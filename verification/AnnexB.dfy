// NAL units between Annex B start codes (ITU-T H.264) and behind four-octet lengths (ISO/IEC 14496-15).
module AnnexB {
  import opened Bytes

  // ----- start codes -----

  /** 00 00 01 stands at i. */
  predicate CodeAt(d: bytes, i: nat)
  {
    i + 3 <= |d| && d[i] == 0 && d[i + 1] == 0 && d[i + 2] == 1
  }

  /** Where the first start code stands, counting from an index. */
  function FindCodeFrom(d: bytes, from: nat): (r: Option<nat>)
    ensures r.Some? ==> from <= r.value && CodeAt(d, r.value)
    decreases |d| - from
  {
    if from + 3 > |d| then None
    else if CodeAt(d, from) then Some(from)
    else FindCodeFrom(d, from + 1)
  }

  function FindCode(d: bytes): (r: Option<nat>)
    ensures r.Some? ==> CodeAt(d, r.value)
  {
    FindCodeFrom(d, 0)
  }

  ghost predicate NoCodeBefore(d: bytes, end: nat)
  {
    forall i :: 0 <= i < end ==> !CodeAt(d, i)
  }

  lemma {:induction false} FindCodeFromFirst(d: bytes, from: nat)
    requires NoCodeBefore(d, from)
    ensures var r := FindCodeFrom(d, from); NoCodeBefore(d, if r.Some? then r.value else |d|)
    decreases |d| - from
  {
    if from + 3 <= |d| && !CodeAt(d, from) {
      FindCodeFromFirst(d, from + 1);
    }
  }

  lemma FindCodeIs(d: bytes, at: nat)
    requires CodeAt(d, at) && NoCodeBefore(d, at)
    ensures FindCode(d) == Some(at)
  {
    FindCodeFromFirst(d, 0);
  }

  lemma NoCodeMeansNone(d: bytes)
    requires NoCodeBefore(d, |d|)
    ensures FindCode(d).None?
  {
    FindCodeFromFirst(d, 0);
  }

  function StripZeros(d: bytes): (r: bytes)
    ensures |r| <= |d|
  {
    if d != [] && d[|d| - 1] == 0 then StripZeros(d[..|d| - 1]) else d
  }

  lemma {:induction false} StripZerosPrefix(d: bytes)
    ensures var r := StripZeros(d); r == d[..|r|] && (r != [] ==> r[|r| - 1] != 0)
  {
    if d != [] && d[|d| - 1] == 0 {
      StripZerosPrefix(d[..|d| - 1]);
    }
  }

  function Kept(nal: bytes): seq<bytes>
  {
    if |nal| == 0 then [] else [nal]
  }

  /** The NAL units of d, which starts just after a start code. */
  function UnitsAfter(d: bytes): seq<bytes>
    decreases |d|
  {
    match FindCode(d)
    case None => Kept(StripZeros(d))
    case Some(at) => Kept(StripZeros(d[..at])) + UnitsAfter(d[at + 3..])
  }

  function NalUnits(d: bytes): seq<bytes>
  {
    match FindCode(d)
    case None => []
    case Some(at) => UnitsAfter(d[at + 3..])
  }

  /** What is left to find from a start code onwards. */
  ghost function Remaining(d: bytes, start: Option<nat>): seq<bytes>
    requires start.Some? ==> CodeAt(d, start.value)
  {
    if start.None? then [] else UnitsAfter(d[start.value + 3..])
  }

  /** The start code after the one at `start`. */
  function NextCode(d: bytes, start: nat): (r: Option<nat>)
    requires CodeAt(d, start)
    ensures r.Some? ==> start + 3 <= r.value && CodeAt(d, r.value)
  {
    var rel := FindCode(d[start + 3..]);
    if rel.Some? then Some(start + 3 + rel.value) else None
  }

  function SegmentAfter(d: bytes, start: nat): bytes
    requires CodeAt(d, start)
  {
    var nxt := NextCode(d, start);
    d[start + 3..if nxt.Some? then nxt.value else |d|]
  }

  lemma UnitsAfterUnfolds(d: bytes)
    ensures FindCode(d).None? ==> UnitsAfter(d) == Kept(StripZeros(d))
    ensures var at := FindCode(d);
            at.Some? ==> UnitsAfter(d) == Kept(StripZeros(d[..at.value])) + UnitsAfter(d[at.value + 3..])
  {
  }

  lemma RemainingStep(d: bytes, start: nat)
    requires CodeAt(d, start)
    ensures Remaining(d, Some(start)) == Kept(StripZeros(SegmentAfter(d, start))) + Remaining(d, NextCode(d, start))
  {
    hide StripZeros, FindCode, UnitsAfter, Kept;
    var rest := d[start + 3..];
    UnitsAfterUnfolds(rest);
    var at := FindCode(rest);
    if at.None? {
      assert rest == SegmentAfter(d, start);
      assert Kept(StripZeros(rest)) + [] == Kept(StripZeros(rest));
    } else {
      assert rest[..at.value] == SegmentAfter(d, start);
      assert rest[at.value + 3..] == d[start + 3 + at.value + 3..];
    }
  }

  method TrimZeros(segment: bytes) returns (nal: bytes)
    ensures nal == StripZeros(segment)
  {
    nal := segment;
    while |nal| > 0 && nal[|nal| - 1] == 0
      invariant StripZeros(nal) == StripZeros(segment)
      decreases |nal|
    {
      nal := nal[..|nal| - 1];
    }
  }

  function AppendUnit(out: seq<bytes>, nal: bytes): seq<bytes>
  {
    if |nal| > 0 then out + [nal] else out
  }

  lemma AppendStep(out: seq<bytes>, d: bytes, start: nat)
    requires CodeAt(d, start)
    ensures AppendUnit(out, StripZeros(SegmentAfter(d, start))) + Remaining(d, NextCode(d, start))
            == out + Remaining(d, Some(start))
  {
    hide UnitsAfter, StripZeros, SegmentAfter, NextCode, Remaining;
    RemainingStep(d, start);
    var nal, rest := StripZeros(SegmentAfter(d, start)), Remaining(d, NextCode(d, start));
    assert (out + Kept(nal)) + rest == out + (Kept(nal) + rest);
  }

  method SplitNalUnits(data: bytes) returns (out: seq<bytes>)
    ensures out == NalUnits(data)
  {
    out := [];
    var start := FindCode(data);
    while start.Some?
      invariant start.Some? ==> CodeAt(data, start.value)
      invariant out + Remaining(data, start) == NalUnits(data)
      decreases if start.Some? then |data| - start.value else 0
    {
      AppendStep(out, data, start.value);
      var nal := TrimZeros(SegmentAfter(data, start.value));
      out := AppendUnit(out, nal);
      start := NextCode(data, start.value);
    }
  }

  /** Every NAL unit behind the four-octet start code. */
  function Annexed(nals: seq<bytes>): bytes
  {
    if nals == [] then [] else [0, 0, 0, 1] + nals[0] + Annexed(nals[1..])
  }

  /** A NAL unit start codes can delimit. */
  ghost predicate Clean(nal: bytes)
  {
    nal != [] && nal[|nal| - 1] != 0 && NoCodeBefore(nal, |nal|)
  }

  ghost predicate AllClean(nals: seq<bytes>)
  {
    forall n :: n in nals ==> Clean(n)
  }

  lemma CleanStripped(nal: bytes, zeros: bytes)
    requires nal == [] || nal[|nal| - 1] != 0
    requires forall i :: 0 <= i < |zeros| ==> zeros[i] == 0
    ensures StripZeros(nal + zeros) == nal
    decreases |zeros|
  {
    if zeros != [] {
      assert (nal + zeros)[..|nal + zeros| - 1] == nal + zeros[..|zeros| - 1];
      CleanStripped(nal, zeros[..|zeros| - 1]);
    } else {
      assert nal + zeros == nal;
    }
  }

  /** The first start code after a clean NAL unit is the one that follows it, zero octet included. */
  lemma NextCodeAfterClean(nal: bytes, tail: bytes)
    requires Clean(nal)
    ensures FindCode(nal + [0, 0, 0, 1] + tail) == Some(|nal| + 1)
    ensures StripZeros((nal + [0, 0, 0, 1] + tail)[..|nal| + 1]) == nal
  {
    hide StripZeros, FindCode;
    var d := nal + [0, 0, 0, 1] + tail;
    forall i | 0 <= i < |nal| + 1 ensures !CodeAt(d, i) {
      if i + 3 <= |nal| {
        assert !CodeAt(nal, i);
      }
    }
    FindCodeIs(d, |nal| + 1);
    assert d[..|nal| + 1] == nal + [0];
    CleanStripped(nal, [0]);
  }

  lemma UnitsAfterLast(nal: bytes)
    requires Clean(nal)
    ensures UnitsAfter(nal) == [nal]
  {
    NoCodeMeansNone(nal);
    CleanStripped(nal, []);
    assert nal + [] == nal;
  }

  lemma UnitsAfterNext(nal: bytes, tail: bytes)
    requires Clean(nal)
    ensures UnitsAfter(nal + [0, 0, 0, 1] + tail) == [nal] + UnitsAfter(tail)
  {
    hide StripZeros, FindCode;
    NextCodeAfterClean(nal, tail);
    assert (nal + [0, 0, 0, 1] + tail)[|nal| + 4..] == tail;
  }

  lemma {:induction false} UnitsAfterClean(nal: bytes, rest: seq<bytes>)
    requires Clean(nal) && AllClean(rest)
    ensures UnitsAfter(nal + Annexed(rest)) == [nal] + rest
    decreases |rest|
  {
    hide UnitsAfter;
    if rest == [] {
      assert nal + Annexed(rest) == nal;
      UnitsAfterLast(nal);
    } else {
      var tail := rest[0] + Annexed(rest[1..]);
      assert nal + Annexed(rest) == nal + [0, 0, 0, 1] + tail;
      UnitsAfterNext(nal, tail);
      UnitsAfterClean(rest[0], rest[1..]);
      assert [rest[0]] + rest[1..] == rest;
    }
  }

  /** Splitting undoes start-code writing on clean NAL units. */
  lemma NalUnitsInvertAnnexed(nals: seq<bytes>)
    requires AllClean(nals)
    ensures NalUnits(Annexed(nals)) == nals
  {
    if nals != [] {
      var d := Annexed(nals);
      var tail := nals[0] + Annexed(nals[1..]);
      assert d == [0, 0, 0, 1] + tail;
      FindCodeIs(d, 1);
      assert d[4..] == tail;
      UnitsAfterClean(nals[0], nals[1..]);
      assert [nals[0]] + nals[1..] == nals;
    }
  }

  lemma StrippedClean(d: bytes)
    requires NoCodeBefore(d, |d|)
    ensures StripZeros(d) == [] || Clean(StripZeros(d))
  {
    var nal := StripZeros(d);
    StripZerosPrefix(d);
    forall i | 0 <= i < |nal| ensures !CodeAt(nal, i) {
      assert !CodeAt(d, i);
    }
  }

  /** Whatever the data, every NAL unit found is clean. */
  lemma {:induction false} UnitsAfterAreClean(d: bytes)
    ensures AllClean(UnitsAfter(d))
    decreases |d|
  {
    FindCodeFromFirst(d, 0);
    match FindCode(d)
    case None =>
      StrippedClean(d);
    case Some(at) =>
      forall i | 0 <= i < at ensures !CodeAt(d[..at], i) {
        if i + 3 <= at {
          assert !CodeAt(d, i);
        }
      }
      StrippedClean(d[..at]);
      UnitsAfterAreClean(d[at + 3..]);
  }

  lemma NalUnitsAreClean(d: bytes)
    ensures AllClean(NalUnits(d))
  {
    match FindCode(d)
    case None =>
    case Some(at) => UnitsAfterAreClean(d[at + 3..]);
  }

  /** The exact lists of NAL units that survive start-code writing and splitting. */
  lemma AnnexBRoundTripsIff(nals: seq<bytes>)
    ensures NalUnits(Annexed(nals)) == nals <==> AllClean(nals)
  {
    if AllClean(nals) {
      NalUnitsInvertAnnexed(nals);
    }
    NalUnitsAreClean(Annexed(nals));
  }

  // ----- lengths -----

  function Packed(nals: seq<bytes>): bytes
  {
    if nals == [] then [] else Be32(|nals[0]|) + nals[0] + Packed(nals[1..])
  }

  /** The NAL units of length-prefixed data; a unit cut short ends the list. */
  function Unpacked(d: bytes): seq<bytes>
    decreases |d|
  {
    if |d| < 4 then []
    else
      var length := BeUint(d[..4]);
      if length > |d| - 4 then []
      else [d[4..4 + length]] + Unpacked(d[4 + length..])
  }

  method SplitPacked(data: bytes) returns (out: seq<bytes>)
    ensures out == Unpacked(data)
  {
    out := [];
    var i, n := 0, |data|;
    while i + 4 <= n
      invariant 0 <= i <= n
      invariant out + Unpacked(data[i..]) == Unpacked(data)
    {
      var rest := data[i..];
      var length := BeUint(data[i..i + 4]);
      assert rest[..4] == data[i..i + 4];
      i := i + 4;
      if length > n - i {
        return;
      }
      assert rest[4..4 + length] == data[i..i + length] && rest[4 + length..] == data[i + length..];
      out := out + [data[i..i + length]];
      i := i + length;
    }
  }

  /** Splitting undoes packing, whatever incomplete unit follows. */
  lemma {:induction false} UnpackedInvertsPacked(nals: seq<bytes>)
    requires forall n :: n in nals ==> |n| < 0x1_0000_0000
    ensures Unpacked(Packed(nals)) == nals
  {
    if nals != [] {
      var n := nals[0];
      var d := Packed(nals);
      assert d == Be32(|n|) + (n + Packed(nals[1..]));
      assert d[..4] == Be32(|n|);
      Be32RoundTrips(|n|);
      assert d[4..4 + |n|] == n && d[4 + |n|..] == Packed(nals[1..]);
      UnpackedInvertsPacked(nals[1..]);
    }
  }
}
