// The 33-bit 90 kHz clock of ISO/IEC 13818-1 (sections 2.4.3.5 and 2.4.3.7): its five-octet and six-octet
// fields, and the unwrapping of its 26.5 hour period into an unbounded clock.
module TsClock {
  import opened Bytes

  const TWO_TO_32 := 0x1_0000_0000
  const TWO_TO_33 := 0x2_0000_0000

  function WriteTs90k(prefix4: nat, value: int): (r: bytes)
    requires prefix4 < 16
    ensures |r| == 5
  {
    var v := value % TWO_TO_33;
    [prefix4 * 16 + v / 0x4000_0000 % 8 * 2 + 1,
     v / 0x40_0000 % 256,
     v / 0x8000 % 128 * 2 + 1,
     v / 128 % 256,
     v % 128 * 2 + 1]
  }

  function ReadTs90k(b: bytes): int
    requires |b| == 5
  {
    b[0] as int / 2 % 8 * 0x4000_0000 + b[1] as int * 0x40_0000 + b[2] as int / 2 * 0x8000
    + b[3] as int * 128 + b[4] as int / 2 % 128
  }

  lemma Digits33(v: nat)
    requires v < TWO_TO_33
    ensures v == v / 0x4000_0000 % 8 * 0x4000_0000 + v / 0x40_0000 % 256 * 0x40_0000
                 + v / 0x8000 % 128 * 0x8000 + v / 128 % 256 * 128 + v % 128
  {
    var a := v / 128;
    var b := a / 256;
    var c := b / 128;
    var d := c / 256;
    assert b == v / 0x8000 && c == v / 0x40_0000 && d == v / 0x4000_0000;
  }

  lemma ReadFields(prefix4: nat, d4: nat, d3: nat, d2: nat, d1: nat, d0: nat)
    requires prefix4 < 16 && d4 < 8 && d3 < 256 && d2 < 128 && d1 < 256 && d0 < 128
    ensures ReadTs90k([prefix4 * 16 + d4 * 2 + 1, d3, d2 * 2 + 1, d1, d0 * 2 + 1])
            == d4 * 0x4000_0000 + d3 * 0x40_0000 + d2 * 0x8000 + d1 * 128 + d0
  {
    assert (prefix4 * 16 + d4 * 2 + 1) / 2 == prefix4 * 8 + d4;
  }

  /** Reading inverts writing modulo the clock's period. */
  lemma Ts90kRoundTrips(prefix4: nat, value: int)
    requires prefix4 < 16
    ensures ReadTs90k(WriteTs90k(prefix4, value)) == value % TWO_TO_33
  {
    var v := value % TWO_TO_33;
    Digits33(v);
    ReadFields(prefix4, v / 0x4000_0000 % 8, v / 0x40_0000 % 256, v / 0x8000 % 128, v / 128 % 256, v % 128);
  }

  /** Program clock reference: 33 bits of base, 6 reserved ones, an extension of 0. */
  function EncodePcr(pcr90k: int): (r: bytes)
    ensures |r| == 6
  {
    Octets(pcr90k % TWO_TO_33 * 0x8000 + 0x3F * 0x200, 6)
  }

  /** Base (the first 33 bits) and extension (the last 9), as section 2.4.3.5 of ISO/IEC 13818-1 lays them out. */
  function PcrBase(b: bytes): int
  {
    BeUint(b) / 0x8000
  }

  function PcrExtension(b: bytes): int
  {
    BeUint(b) % 0x200
  }

  lemma PcrRoundTrips(pcr90k: int)
    ensures PcrBase(EncodePcr(pcr90k)) == pcr90k % TWO_TO_33
    ensures PcrExtension(EncodePcr(pcr90k)) == 0
  {
    assert Pow256(2) == 0x1_0000;
    assert Pow256(4) == 0x1_0000_0000;
    assert Pow256(6) == 0x1_0000_0000_0000;
    OctetsRoundTrip(pcr90k % TWO_TO_33 * 0x8000 + 0x3F * 0x200, 6);
  }

  // ----- unwrapping -----

  datatype Unwrap = Unwrap(hasPrev: bool, prevRaw: int, prevUnwrapped: int)

  const FRESH := Unwrap(false, 0, 0)

  function UnwrapStep(u: Unwrap, raw: int): Unwrap
  {
    if !u.hasPrev then Unwrap(true, raw, raw)
    else
      var delta := (raw - u.prevRaw) % TWO_TO_33;
      Unwrap(true, raw, u.prevUnwrapped + if delta > TWO_TO_32 then delta - TWO_TO_33 else delta)
  }

  /** The unwrapper of one stream. */
  class PtsUnwrapper {
    var hasPrev: bool
    var prevRaw: int
    var prevUnwrapped: int

    function Abs(): Unwrap
      reads this
    {
      Unwrap(hasPrev, prevRaw, prevUnwrapped)
    }

    constructor ()
      ensures Abs() == FRESH
    {
      hasPrev, prevRaw, prevUnwrapped := false, 0, 0;
    }

    method Step(raw: int) returns (unwrapped: int)
      modifies this
      ensures Abs() == UnwrapStep(old(Abs()), raw)
      ensures unwrapped == Abs().prevUnwrapped
    {
      if !hasPrev {
        prevUnwrapped := raw;
        hasPrev := true;
      } else {
        var delta := (raw - prevRaw) % TWO_TO_33;
        if delta > TWO_TO_32 {
          delta := delta - TWO_TO_33;
        }
        prevUnwrapped := prevUnwrapped + delta;
      }
      prevRaw := raw;
      unwrapped := prevUnwrapped;
    }
  }

  /** A step of the true clock the 33-bit values can tell. */
  predicate Tellable(step: int)
  {
    -TWO_TO_32 < step <= TWO_TO_32
  }

  /** One step is reproduced exactly when it is shorter than half the period (a half itself counts as forward). */
  lemma StepReproducedIff(u: Unwrap, before: int, after: int)
    requires u.hasPrev && u.prevRaw == before % TWO_TO_33
    ensures UnwrapStep(u, after % TWO_TO_33).prevUnwrapped == u.prevUnwrapped + (after - before)
            <==> Tellable(after - before)
  {
    ModOfDifference(after, before);
    ShortestIff(after - before);
  }

  lemma ModOfDifference(a: int, b: int)
    ensures (a % TWO_TO_33 - b % TWO_TO_33) % TWO_TO_33 == (a - b) % TWO_TO_33
  {
    var qa, qb := a / TWO_TO_33, b / TWO_TO_33;
    var d, q := a - b, (a - b) / TWO_TO_33;
    assert a % TWO_TO_33 - b % TWO_TO_33 == d % TWO_TO_33 + TWO_TO_33 * (q - qa + qb);
  }

  /** The representative of a step nearest to zero is the step itself exactly when the step is tellable. */
  lemma ShortestIff(step: int)
    ensures var m := step % TWO_TO_33;
            (if m > TWO_TO_32 then m - TWO_TO_33 else m) == step <==> Tellable(step)
  {
    var m, q := step % TWO_TO_33, step / TWO_TO_33;
    assert step == q * TWO_TO_33 + m;
  }

  /** The unwrapped values of a whole stream of raw ones. */
  function UnwrapAll(u: Unwrap, raws: seq<int>): (r: seq<int>)
    ensures |r| == |raws|
    decreases |raws|
  {
    if raws == [] then []
    else var u' := UnwrapStep(u, raws[0]); [u'.prevUnwrapped] + UnwrapAll(u', raws[1..])
  }

  function Raws(clock: seq<int>): (r: seq<int>)
    ensures |r| == |clock| && forall i :: 0 <= i < |r| ==> r[i] == clock[i] % TWO_TO_33
  {
    seq(|clock|, i requires 0 <= i < |clock| => clock[i] % TWO_TO_33)
  }

  ghost predicate TellableClock(clock: seq<int>)
  {
    forall i :: 0 < i < |clock| ==> Tellable(clock[i] - clock[i - 1])
  }

  lemma {:induction false} UnwrapContinues(u: Unwrap, before: int, clock: seq<int>)
    requires u.hasPrev && u.prevRaw == before % TWO_TO_33
    requires TellableClock([before] + clock)
    ensures forall i :: 0 <= i < |clock| ==>
              UnwrapAll(u, Raws(clock))[i] == u.prevUnwrapped + (clock[i] - before)
    decreases |clock|
  {
    if clock != [] {
      var all := [before] + clock;
      assert all[1] == clock[0] && all[0] == before;
      StepReproducedIff(u, before, clock[0]);
      assert Raws(clock)[1..] == Raws(clock[1..]);
      assert [clock[0]] + clock[1..] == all[1..];
      assert TellableClock(all[1..]) by {
        forall i | 0 < i < |all| - 1 ensures Tellable(all[1..][i] - all[1..][i - 1]) {
          assert all[1..][i] == all[i + 1] && all[1..][i - 1] == all[i];
        }
      }
      UnwrapContinues(UnwrapStep(u, Raws(clock)[0]), clock[0], clock[1..]);
    }
  }

  /** However often the clock wraps, unwrapping its 33-bit values gives every difference back. */
  lemma UnwrapReproducesClock(clock: seq<int>)
    requires TellableClock(clock)
    ensures forall i :: 0 <= i < |clock| ==>
              UnwrapAll(FRESH, Raws(clock))[i] - UnwrapAll(FRESH, Raws(clock))[0] == clock[i] - clock[0]
  {
    if clock != [] {
      assert Raws(clock)[1..] == Raws(clock[1..]);
      assert [clock[0]] + clock[1..] == clock;
      UnwrapContinues(UnwrapStep(FRESH, Raws(clock)[0]), clock[0], clock[1..]);
    }
  }

  // ----- milliseconds -----

  /** n / d rounded to the nearest integer, a half to the even neighbour. */
  function RoundHalfEven(n: int, d: int): (r: int)
    requires d > 0
    ensures -d <= 2 * (n - r * d) <= d
    ensures 2 * (n - r * d) == d || 2 * (n - r * d) == -d ==> r % 2 == 0
  {
    var f := n / d;
    var twice := 2 * (n - f * d);
    if twice > d then f + 1 else if twice < d then f else if f % 2 != 0 then f + 1 else f
  }

  lemma RoundMilliseconds(ms: int)
    ensures RoundHalfEven(ms * 90, 90) == ms
  {
  }
}
