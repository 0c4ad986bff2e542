// The backup folder's playlist: every ready file once per cycle, in random order.
module ShuffleBag {
  import opened Bytes

  type File = string

  function SetOf(files: seq<File>): set<File>
  {
    set f | f in files
  }

  /** The files still to come this cycle, the next one last, and the files already taken into the cycle. */
  datatype State = State(bag: seq<File>, known: set<File>)

  const EMPTY := State([], {})

  /** A new file goes anywhere into the rest of the bag, as the random pick says. */
  function Insert(bag: seq<File>, file: File, pick: nat): seq<File>
  {
    var at := pick % (|bag| + 1);
    bag[..at] + [file] + bag[at..]
  }

  function Admit(s: State, file: File, pick: nat): State
  {
    if file in s.known then s else State(Insert(s.bag, file, pick), s.known + {file})
  }

  /** The first n ready files admitted. */
  function AdmitAll(s: State, ready: seq<File>, picks: seq<nat>, n: nat): State
    requires n <= |ready| <= |picks|
  {
    if n == 0 then s else Admit(AdmitAll(s, ready, picks, n - 1), ready[n - 1], picks[n - 1])
  }

  predicate Shuffled(pool: seq<File>, ready: seq<File>)
  {
    multiset(pool) == multiset(ready)
  }

  /** An empty bag is filled with all ready files, in the order the shuffle gave. */
  function Refill(s: State, ready: seq<File>, pool: seq<File>): State
  {
    if s.bag == [] then State(pool, SetOf(ready)) else s
  }

  function Draw(s: State): (State, Option<File>)
  {
    if s.bag == [] then (s, None) else (s.(bag := s.bag[..|s.bag| - 1]), Some(s.bag[|s.bag| - 1]))
  }

  /** One call: what is ready, where new files are put, and how a new cycle is shuffled. */
  datatype Call = Call(ready: seq<File>, picks: seq<nat>, pool: seq<File>)

  predicate Distinct(files: seq<File>)
  {
    forall i, j :: 0 <= i < j < |files| ==> files[i] != files[j]
  }

  predicate Proper(c: Call)
  {
    Distinct(c.ready) && |c.ready| <= |c.picks| && Shuffled(c.pool, c.ready)
  }

  function NextStep(s: State, c: Call): (State, Option<File>)
    requires Proper(c)
  {
    Draw(Refill(AdmitAll(s, c.ready, c.picks, |c.ready|), c.ready, c.pool))
  }

  // ----- the objects -----

  class Bag {
    var bag: seq<File>
    var known: set<File>

    function Abs(): State
      reads this
    {
      State(bag, known)
    }

    constructor ()
      ensures Abs() == EMPTY
    {
      bag, known := [], {};
    }

    method Next(c: Call) returns (r: Option<File>)
      requires Proper(c)
      modifies this
      ensures (Abs(), r) == NextStep(old(Abs()), c)
    {
      for i := 0 to |c.ready|
        invariant Abs() == AdmitAll(old(Abs()), c.ready, c.picks, i)
      {
        var path := c.ready[i];
        if path !in known {
          known := known + {path};
          var at := c.picks[i] % (|bag| + 1);
          bag := bag[..at] + [path] + bag[at..];
        }
      }
      if |bag| == 0 {
        bag := c.pool;
        known := SetOf(c.ready);
      }
      if |bag| == 0 {
        return None;
      }
      var last := |bag| - 1;
      r := Some(bag[last]);
      bag := bag[..last];
    }
  }

  datatype Item = Clip(file: File) | Separator(file: File)

  class FolderPlaylist {
    const files: Bag
    var wantSeparator: bool

    constructor ()
      ensures !wantSeparator && files.Abs() == EMPTY && fresh(files)
    {
      files := new Bag();
      wantSeparator := false;
    }

    /** After each file comes the separator, if there is one; an empty name is none. */
    method Next(c: Call, separator: File) returns (r: Option<Item>)
      requires Proper(c)
      modifies this, files
      ensures old(wantSeparator) && separator != "" ==>
                r == Some(Separator(separator)) && files.Abs() == old(files.Abs()) && !wantSeparator
      ensures !(old(wantSeparator) && separator != "") ==>
                var (s, file) := NextStep(old(files.Abs()), c);
                && files.Abs() == s && wantSeparator == file.Some?
                && r == if file.Some? then Some(Clip(file.value)) else None
    {
      if wantSeparator {
        wantSeparator := false;
        if separator != "" {
          return Some(Separator(separator));
        }
      }
      var next := files.Next(c);
      if next.None? {
        return None;
      }
      wantSeparator := true;
      return Some(Clip(next.value));
    }
  }

  // ----- cycles -----

  /** The bag, what was drawn since the last refill, and whether the last call refilled. */
  datatype Sys = Sys(s: State, drawn: seq<File>)

  function Refills(s: State, c: Call): bool
    requires Proper(c)
  {
    AdmitAll(s, c.ready, c.picks, |c.ready|).bag == []
  }

  function SysStep(y: Sys, c: Call): Sys
    requires Proper(c)
  {
    var (s, r) := NextStep(y.s, c);
    Sys(s, (if Refills(y.s, c) then [] else y.drawn) + if r.Some? then [r.value] else [])
  }

  ghost predicate AllProper(calls: seq<Call>)
  {
    forall c :: c in calls ==> Proper(c)
  }

  ghost function SysRun(y: Sys, calls: seq<Call>): Sys
    requires AllProper(calls)
    decreases |calls|
  {
    if calls == [] then y
    else
      assert calls[0] in calls;
      SysRun(SysStep(y, calls[0]), calls[1..])
  }

  /** Drawn or still in the bag: every known file is exactly one of these, once. */
  ghost predicate Inv(y: Sys)
  {
    multiset(y.s.bag) + multiset(y.drawn) == multiset(y.s.known)
  }

  lemma InsertAdds(bag: seq<File>, file: File, pick: nat)
    ensures multiset(Insert(bag, file, pick)) == multiset(bag) + multiset{file}
  {
    var at := pick % (|bag| + 1);
    assert bag == bag[..at] + bag[at..];
  }

  lemma SetAdds(known: set<File>, file: File)
    requires file !in known
    ensures multiset(known + {file}) == multiset(known) + multiset{file}
  {
  }

  lemma AdmitOneKeepsInv(s: State, drawn: seq<File>, file: File, pick: nat)
    requires Inv(Sys(s, drawn))
    ensures var s' := Admit(s, file, pick); Inv(Sys(s', drawn)) && s'.known == s.known + {file}
  {
    InsertAdds(s.bag, file, pick);
    hide Insert;
    if file !in s.known {
      SetAdds(s.known, file);
    }
  }

  lemma SetOfSnoc(files: seq<File>, file: File)
    ensures SetOf(files + [file]) == SetOf(files) + {file}
  {
  }

  lemma {:induction false} AdmitKeepsInv(s: State, drawn: seq<File>, ready: seq<File>, picks: seq<nat>, n: nat)
    requires n <= |ready| <= |picks| && Inv(Sys(s, drawn))
    ensures var s' := AdmitAll(s, ready, picks, n); Inv(Sys(s', drawn)) && s'.known == s.known + SetOf(ready[..n])
  {
    hide Inv, Admit;
    if n == 0 {
      assert SetOf([]) == {};
    } else {
      AdmitKeepsInv(s, drawn, ready, picks, n - 1);
      AdmitOneKeepsInv(AdmitAll(s, ready, picks, n - 1), drawn, ready[n - 1], picks[n - 1]);
      assert ready[..n] == ready[..n - 1] + [ready[n - 1]];
      SetOfSnoc(ready[..n - 1], ready[n - 1]);
      hide SetOf;
      assert (s.known + SetOf(ready[..n - 1])) + {ready[n - 1]} == s.known + (SetOf(ready[..n - 1]) + {ready[n - 1]});
    }
  }

  lemma {:induction false} DistinctMultiset(files: seq<File>)
    requires Distinct(files)
    ensures multiset(files) == multiset(SetOf(files))
    decreases |files|
  {
    if files != [] {
      var init, last := files[..|files| - 1], files[|files| - 1];
      assert files == init + [last];
      DistinctMultiset(init);
      SetAdds(SetOf(init), last);
      assert SetOf(files) == SetOf(init) + {last};
    }
  }

  lemma DrawKeepsInv(s: State, drawn: seq<File>)
    requires Inv(Sys(s, drawn))
    ensures var (s', r) := Draw(s); Inv(Sys(s', drawn + if r.Some? then [r.value] else []))
  {
    if s.bag != [] {
      assert s.bag == s.bag[..|s.bag| - 1] + [s.bag[|s.bag| - 1]];
    } else {
      assert drawn + [] == drawn;
    }
  }

  /** The state right before the draw. */
  lemma FilledInv(y: Sys, c: Call)
    requires Inv(y) && Proper(c)
    ensures var s1 := AdmitAll(y.s, c.ready, c.picks, |c.ready|);
            && s1.known == y.s.known + SetOf(c.ready) && Inv(Sys(s1, y.drawn))
            && (s1.bag == [] ==> multiset(y.drawn) == multiset(s1.known))
            && Inv(Sys(Refill(s1, c.ready, c.pool), if s1.bag == [] then [] else y.drawn))
  {
    AdmitKeepsInv(y.s, y.drawn, c.ready, c.picks, |c.ready|);
    assert c.ready[..|c.ready|] == c.ready;
    DistinctMultiset(c.ready);
    hide AdmitAll;
  }

  lemma StepKeepsInv(y: Sys, c: Call)
    requires Inv(y) && Proper(c)
    ensures Inv(SysStep(y, c))
  {
    FilledInv(y, c);
    hide AdmitAll, Proper;
    var s1 := AdmitAll(y.s, c.ready, c.picks, |c.ready|);
    DrawKeepsInv(Refill(s1, c.ready, c.pool), if s1.bag == [] then [] else y.drawn);
  }

  lemma {:induction false} RunKeepsInv(y: Sys, calls: seq<Call>)
    requires AllProper(calls) && Inv(y)
    ensures Inv(SysRun(y, calls))
    decreases |calls|
  {
    if calls != [] {
      assert calls[0] in calls && forall c :: c in calls[1..] ==> c in calls;
      StepKeepsInv(y, calls[0]);
      hide SysStep, Inv;
      RunKeepsInv(SysStep(y, calls[0]), calls[1..]);
    }
  }

  /** Between two refills no file is drawn twice. */
  lemma NoRepeatWithinCycle(calls: seq<Call>)
    requires AllProper(calls)
    ensures Distinct(SysRun(Sys(EMPTY, []), calls).drawn)
  {
    RunKeepsInv(Sys(EMPTY, []), calls);
    hide SysRun;
    var y := SysRun(Sys(EMPTY, []), calls);
    forall i, j | 0 <= i < j < |y.drawn| ensures y.drawn[i] != y.drawn[j] {
      assert multiset(y.drawn)[y.drawn[i]] <= multiset(y.s.known)[y.drawn[i]] <= 1;
      if y.drawn[i] == y.drawn[j] {
        TwiceCounts(y.drawn, i, j);
      }
    }
  }

  lemma TwiceCounts(files: seq<File>, i: nat, j: nat)
    requires i < j < |files| && files[i] == files[j]
    ensures multiset(files)[files[i]] >= 2
  {
    assert files == files[..j] + files[j..];
    assert files[i] in files[..j] && files[j] in files[j..];
  }

  /** The files of a cycle: a refill comes only when each has been drawn. */
  ghost function ReadyInCycle(y: Sys, calls: seq<Call>, seen: set<File>): set<File>
    requires AllProper(calls)
    decreases |calls|
  {
    if calls == [] then seen
    else
      assert calls[0] in calls;
      ReadyInCycle(SysStep(y, calls[0]), calls[1..],
                   (if Refills(y.s, calls[0]) then {} else seen) + SetOf(calls[0].ready))
  }

  lemma StepKnows(y: Sys, c: Call, seen: set<File>)
    requires Proper(c) && Inv(y) && seen <= y.s.known
    ensures (if Refills(y.s, c) then {} else seen) + SetOf(c.ready) <= SysStep(y, c).s.known
  {
    FilledInv(y, c);
    hide AdmitAll;
  }

  lemma {:induction false} CycleKnows(y: Sys, calls: seq<Call>, seen: set<File>)
    requires AllProper(calls) && Inv(y) && seen <= y.s.known
    ensures ReadyInCycle(y, calls, seen) <= SysRun(y, calls).s.known
    decreases |calls|
  {
    if calls != [] {
      assert calls[0] in calls && forall c :: c in calls[1..] ==> c in calls;
      StepKnows(y, calls[0], seen);
      StepKeepsInv(y, calls[0]);
      hide SysStep, Inv, Refills;
      CycleKnows(SysStep(y, calls[0]), calls[1..], (if Refills(y.s, calls[0]) then {} else seen) + SetOf(calls[0].ready));
    }
  }

  /** When a call refills the bag, every file that was ready at any call since the refill before has been drawn in
      between. */
  lemma AllDrawnBeforeRefill(calls: seq<Call>, c: Call, file: File)
    requires AllProper(calls) && Proper(c)
    requires var y := SysRun(Sys(EMPTY, []), calls); Refills(y.s, c)
    requires file in ReadyInCycle(Sys(EMPTY, []), calls, {}) || file in c.ready
    ensures file in SysRun(Sys(EMPTY, []), calls).drawn
  {
    RunKeepsInv(Sys(EMPTY, []), calls);
    CycleKnows(Sys(EMPTY, []), calls, {});
    hide SysRun, ReadyInCycle;
    var y := SysRun(Sys(EMPTY, []), calls);
    FilledInv(y, c);
    hide AdmitAll;
    assert multiset(y.drawn)[file] > 0;
  }

  // ----- a fixed pool -----

  /** The bag is empty and nothing but the pool is known: a cycle begins with the next call. */
  predicate AtCycleStart(s: State, pool: set<File>)
  {
    s.bag == [] && (s.known == {} || s.known == pool)
  }

  predicate SamePool(c: Call, pool: set<File>)
  {
    Proper(c) && SetOf(c.ready) == pool
  }

  ghost predicate AllSamePool(calls: seq<Call>, pool: set<File>)
  {
    forall c :: c in calls ==> SamePool(c, pool)
  }

  /** The files that a row of calls draws. */
  ghost function Draws(s: State, calls: seq<Call>): seq<File>
    requires AllProper(calls)
    decreases |calls|
  {
    if calls == [] then []
    else
      assert calls[0] in calls;
      var (s', r) := NextStep(s, calls[0]);
      (if r.Some? then [r.value] else []) + Draws(s', calls[1..])
  }

  ghost function After(s: State, calls: seq<Call>): State
    requires AllProper(calls)
    decreases |calls|
  {
    if calls == [] then s
    else
      assert calls[0] in calls;
      After(NextStep(s, calls[0]).0, calls[1..])
  }

  lemma {:induction false} AdmitsNothing(s: State, ready: seq<File>, picks: seq<nat>, n: nat)
    requires n <= |ready| <= |picks| && forall f :: f in ready ==> f in s.known
    ensures AdmitAll(s, ready, picks, n) == s
  {
    if n > 0 {
      AdmitsNothing(s, ready, picks, n - 1);
    }
  }

  /** A call in the middle of a cycle takes the last of the bag. */
  lemma MidCycleCall(s: State, c: Call, pool: set<File>)
    requires SamePool(c, pool) && s.known == pool && s.bag != []
    ensures NextStep(s, c) == (s.(bag := s.bag[..|s.bag| - 1]), Some(s.bag[|s.bag| - 1]))
  {
    AdmitsNothing(s, c.ready, c.picks, |c.ready|);
    hide AdmitAll;
  }

  lemma {:induction false} BagIsDrawn(s: State, calls: seq<Call>, pool: set<File>)
    requires AllSamePool(calls, pool) && AllProper(calls) && s.known == pool && |calls| == |s.bag|
    ensures multiset(Draws(s, calls)) == multiset(s.bag) && After(s, calls) == s.(bag := [])
    decreases |calls|
  {
    if calls != [] {
      assert calls[0] in calls && forall c :: c in calls[1..] ==> c in calls;
      MidCycleCall(s, calls[0], pool);
      hide NextStep, SamePool, Proper;
      var s1 := s.(bag := s.bag[..|s.bag| - 1]);
      BagIsDrawn(s1, calls[1..], pool);
      assert s.bag == s1.bag + [s.bag[|s.bag| - 1]];
    }
  }

  /** Within a cycle the bag is drawn from its end, in the order the shuffle gave. */
  lemma {:induction false} BagIsDrawnInOrder(s: State, calls: seq<Call>, pool: set<File>)
    requires AllSamePool(calls, pool) && AllProper(calls) && s.known == pool && |calls| <= |s.bag|
    ensures |Draws(s, calls)| == |calls| && forall k :: 0 <= k < |calls| ==> Draws(s, calls)[k] == s.bag[|s.bag| - 1 - k]
    decreases |calls|
  {
    if calls != [] {
      assert calls[0] in calls && forall c :: c in calls[1..] ==> c in calls;
      MidCycleCall(s, calls[0], pool);
      hide NextStep, SamePool, Proper;
      BagIsDrawnInOrder(s.(bag := s.bag[..|s.bag| - 1]), calls[1..], pool);
    }
  }

  /** A file that comes new in the middle of a cycle can come into any place of it, as the random pick says, and leaves
      the others in their order. */
  lemma NewFileIsPlaced(s: State, file: File, at: nat)
    requires file !in s.known && at <= |s.bag|
    ensures var bag := Admit(s, file, at).bag;
            && |bag| == |s.bag| + 1 && bag[at] == file
            && (forall i :: 0 <= i < at ==> bag[i] == s.bag[i]) && (forall i :: at < i < |bag| ==> bag[i] == s.bag[i - 1])
  {
    assert at % (|s.bag| + 1) == at;
  }

  /** The first call of a cycle has the whole pool in the bag before it draws. */
  lemma CycleBegins(s: State, c: Call, pool: set<File>) returns (bag: seq<File>)
    requires SamePool(c, pool) && AtCycleStart(s, pool) && pool != {}
    ensures multiset(bag) == multiset(pool) && |bag| > 0
    ensures NextStep(s, c) == (State(bag[..|bag| - 1], pool), Some(bag[|bag| - 1]))
  {
    var n := |c.ready|;
    var drawn: seq<File> := [];
    if s.known == {} {
      FilledInv(Sys(s, drawn), c);
    } else {
      AdmitsNothing(s, c.ready, c.picks, n);
      DistinctMultiset(c.ready);
    }
    hide AdmitAll, Proper;
    var filled := Refill(AdmitAll(s, c.ready, c.picks, n), c.ready, c.pool);
    assert {} + pool == pool;
    bag := filled.bag;
    assert multiset(bag) == multiset(pool) && filled.known == pool;
    PoolNotEmpty(bag, pool);
  }

  lemma PoolNotEmpty(bag: seq<File>, pool: set<File>)
    requires multiset(bag) == multiset(pool) && pool != {}
    ensures |bag| == |pool| > 0
  {
    assert |bag| == |multiset(bag)|;
  }

  lemma DrawsUnfold(s: State, calls: seq<Call>, s1: State, file: File)
    requires calls != [] && AllProper(calls) && Proper(calls[0]) && NextStep(s, calls[0]) == (s1, Some(file))
    ensures AllProper(calls[1..]) && Draws(s, calls) == [file] + Draws(s1, calls[1..]) && After(s, calls) == After(s1, calls[1..])
  {
    hide NextStep, Proper;
  }

  lemma LastIsDrawn(bag: seq<File>, rest: seq<File>)
    requires |bag| > 0 && multiset(rest) == multiset(bag[..|bag| - 1])
    ensures multiset([bag[|bag| - 1]] + rest) == multiset(bag)
  {
    assert bag == bag[..|bag| - 1] + [bag[|bag| - 1]];
  }

  /** With a fixed pool of n files, n draws from the start of a cycle are a permutation of the pool, and a new cycle
      starts after them. */
  lemma CycleIsPermutation(s: State, calls: seq<Call>, pool: set<File>)
    requires AllSamePool(calls, pool) && AllProper(calls) && AtCycleStart(s, pool) && pool != {} && |calls| == |pool|
    ensures multiset(Draws(s, calls)) == multiset(pool) && AtCycleStart(After(s, calls), pool)
  {
    assert calls[0] in calls && forall c :: c in calls[1..] ==> c in calls;
    assert SamePool(calls[0], pool) && AllSamePool(calls[1..], pool);
    var bag := CycleBegins(s, calls[0], pool);
    hide NextStep, SamePool, Proper, Draws, After, AllSamePool, AllProper;
    PoolNotEmpty(bag, pool);
    var s1 := State(bag[..|bag| - 1], pool);
    DrawsUnfold(s, calls, s1, bag[|bag| - 1]);
    BagIsDrawn(s1, calls[1..], pool);
    LastIsDrawn(bag, Draws(s1, calls[1..]));
  }

  /** So it goes on, cycle after cycle: the k-th n draws from an empty bag are a permutation too. */
  lemma {:induction false} EveryCycleIsPermutation(s: State, cycles: seq<seq<Call>>, pool: set<File>, k: nat)
    requires AtCycleStart(s, pool) && pool != {} && k < |cycles|
    requires forall i :: 0 <= i < |cycles| ==> AllSamePool(cycles[i], pool) && AllProper(cycles[i]) && |cycles[i]| == |pool|
    ensures AllProper(Concat(cycles[..k])) && AllProper(cycles[k])
    ensures var s' := After(s, Concat(cycles[..k]));
            AtCycleStart(s', pool) && multiset(Draws(s', cycles[k])) == multiset(pool)
    decreases k
  {
    hide AllProper, AllSamePool, AtCycleStart, Draws;
    if k == 0 {
      NoCalls(s);
      assert cycles[..0] == [];
      CycleIsPermutation(s, cycles[0], pool);
    } else {
      CycleIsPermutation(s, cycles[0], pool);
      var s1 := After(s, cycles[0]);
      EveryCycleIsPermutation(s1, cycles[1..], pool, k - 1);
      assert cycles[1..][..k - 1] == cycles[..k][1..] && cycles[1..][k - 1] == cycles[k];
      AfterAppend(s, cycles[0], Concat(cycles[..k][1..]));
    }
  }

  lemma NoCalls(s: State)
    ensures AllProper([]) && After(s, []) == s
  {
  }

  lemma {:induction false} AfterAppend(s: State, a: seq<Call>, b: seq<Call>)
    requires AllProper(a) && AllProper(b)
    ensures AllProper(a + b) && After(s, a + b) == After(After(s, a), b)
    decreases |a|
  {
    hide NextStep, Proper;
    if a == [] {
      assert a + b == b;
    } else {
      assert (a + b)[0] == a[0] && (a + b)[1..] == a[1..] + b;
      assert a[0] in a && forall c :: c in a[1..] ==> c in a;
      AfterAppend(NextStep(s, a[0]).0, a[1..], b);
    }
  }
}
