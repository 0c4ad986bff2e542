// Inside a NAL unit (ITU-T H.264, sections 7.3.1, 7.4.1 and 9.1): emulation prevention, and the bit reader with
// its Exp-Golomb codes.
module Rbsp {
  import opened Bytes
  import opened AnnexB

  // ----- emulation prevention -----

  predicate Emulated(d: bytes)
  {
    |d| >= 3 && d[0] == 0 && d[1] == 0 && d[2] == 3
  }

  /** The payload without its emulation prevention octets. */
  function Unescape(d: bytes): bytes
  {
    if d == [] then []
    else if Emulated(d) then [0, 0] + Unescape(d[3..])
    else [d[0]] + Unescape(d[1..])
  }

  method StripEmulation(data: bytes) returns (out: bytes)
    ensures out == Unescape(data)
  {
    out := [];
    var i, n := 0, |data|;
    assert data[0..] == data;
    while i < n
      invariant 0 <= i <= n
      invariant out + Unescape(data[i..]) == Unescape(data)
    {
      UnescapeStep(out, data, i);
      if i + 2 < n && data[i] == 0 && data[i + 1] == 0 && data[i + 2] == 3 {
        out := out + data[i..i + 2];
        i := i + 3;
      } else {
        out := out + [data[i]];
        i := i + 1;
      }
    }
    assert out + [] == out;
  }

  lemma UnescapeStep(out: bytes, data: bytes, i: nat)
    requires i < |data|
    ensures if i + 2 < |data| && data[i] == 0 && data[i + 1] == 0 && data[i + 2] == 3 then
              (out + data[i..i + 2]) + Unescape(data[i + 3..]) == out + Unescape(data[i..])
            else (out + [data[i]]) + Unescape(data[i + 1..]) == out + Unescape(data[i..])
  {
    var d := data[i..];
    assert d[1..] == data[i + 1..];
    if i + 2 < |data| && data[i] == 0 && data[i + 1] == 0 && data[i + 2] == 3 {
      assert d[3..] == data[i + 3..] && data[i..i + 2] == [0, 0];
      assert (out + [0, 0]) + Unescape(d[3..]) == out + ([0, 0] + Unescape(d[3..]));
    } else {
      assert (out + [d[0]]) + Unescape(d[1..]) == out + ([d[0]] + Unescape(d[1..]));
    }
  }

  /** What the standard has an encoder send: after two zeros an octet up to 3 is preceded by a 3. */
  function Escape(zeros: nat, d: bytes): bytes
    requires zeros <= 2
    decreases |d|
  {
    if d == [] then []
    else if zeros == 2 && d[0] <= 3 then [3, d[0]] + Escape(if d[0] == 0 then 1 else 0, d[1..])
    else [d[0]] + Escape(if d[0] == 0 then zeros + 1 else 0, d[1..])
  }

  function Zeros(n: nat): (r: bytes)
    ensures |r| == n
  {
    if n == 0 then [] else [0] + Zeros(n - 1)
  }

  lemma TwoZeros()
    ensures Zeros(0) == [] && Zeros(1) == [0] && Zeros(2) == [0, 0]
  {
    assert Zeros(1) == [0] + Zeros(0);
    assert Zeros(2) == [0] + Zeros(1);
  }

  lemma PlainOctet(x: byte, rest: bytes)
    requires x != 0
    ensures Unescape([x] + rest) == [x] + Unescape(rest)
  {
    assert ([x] + rest)[1..] == rest;
  }

  lemma ZeroThenPlain(x: byte, rest: bytes)
    requires x != 0
    ensures Unescape([0, x] + rest) == [0, x] + Unescape(rest)
  {
    assert ([0, x] + rest)[1..] == [x] + rest;
    PlainOctet(x, rest);
  }

  lemma TwoZerosThenPlain(x: byte, rest: bytes)
    requires x > 3
    ensures Unescape([0, 0, x] + rest) == [0, 0, x] + Unescape(rest)
  {
    assert ([0, 0, x] + rest)[1..] == [0, x] + rest;
    ZeroThenPlain(x, rest);
  }

  lemma Prevented(rest: bytes)
    ensures Unescape([0, 0, 3] + rest) == [0, 0] + Unescape(rest)
  {
    assert ([0, 0, 3] + rest)[3..] == rest;
  }

  lemma OnlyZeros()
    ensures Unescape([]) == [] && Unescape([0]) == [0] && Unescape([0, 0]) == [0, 0]
  {
    assert [0, 0][1..] == [0] && [0][1..] == [];
  }

  /** The reader undoes the encoder, whatever zeros came before. */
  lemma {:induction false} UnescapeInvertsFrom(zeros: nat, d: bytes)
    requires zeros <= 2
    ensures Unescape(Zeros(zeros) + Escape(zeros, d)) == Zeros(zeros) + d
    decreases |d|
  {
    TwoZeros();
    OnlyZeros();
    hide Unescape, Zeros;
    if d == [] {
      assert Zeros(zeros) + [] == Zeros(zeros);
    } else {
      InvertsStep(zeros, d[0], d[1..]);
      assert d == [d[0]] + d[1..];
    }
  }

  /** One octet, given what follows it is undone. */
  lemma InvertsStep(zeros: nat, x: byte, rest: bytes)
    requires zeros <= 2
    ensures Unescape(Zeros(zeros) + Escape(zeros, [x] + rest)) == Zeros(zeros) + ([x] + rest)
    decreases |rest| + 1, 0
  {
    TwoZeros();
    assert ([x] + rest)[1..] == rest;
    if x == 0 && zeros == 2 {
      UnescapeInvertsFrom(1, rest);
      PreventedStep(0, Escape(1, rest));
    } else if x == 0 {
      UnescapeInvertsFrom(zeros + 1, rest);
      hide *;
      ZeroJoins(zeros, Escape(zeros + 1, rest));
      ZeroJoins(zeros, rest);
    } else {
      UnescapeInvertsFrom(0, rest);
      hide Unescape, Escape, Zeros;
      assert [] + Escape(0, rest) == Escape(0, rest) && [] + rest == rest;
      if zeros == 2 && x <= 3 {
        PreventedStep(x, Escape(0, rest));
        PlainOctet(x, Escape(0, rest));
      } else {
        PlainStep(zeros, x, Escape(0, rest));
      }
    }
  }

  lemma ZeroJoins(zeros: nat, more: bytes)
    requires zeros <= 1
    ensures Zeros(zeros) + ([0] + more) == Zeros(zeros + 1) + more
  {
    TwoZeros();
  }

  lemma PreventedStep(x: byte, more: bytes)
    ensures Unescape([0, 0] + ([3, x] + more)) == [0, 0] + Unescape([x] + more)
  {
    hide Unescape;
    assert [0, 0] + ([3, x] + more) == [0, 0, 3] + ([x] + more);
    Prevented([x] + more);
  }

  lemma PlainStep(zeros: nat, x: byte, more: bytes)
    requires zeros <= 2 && x != 0 && (zeros == 2 ==> x > 3)
    ensures Unescape(Zeros(zeros) + ([x] + more)) == Zeros(zeros) + ([x] + Unescape(more))
  {
    TwoZeros();
    hide Unescape, Zeros;
    var after := Unescape(more);
    if zeros == 0 {
      assert [] + ([x] + more) == [x] + more && [] + ([x] + after) == [x] + after;
      PlainOctet(x, more);
    } else if zeros == 1 {
      assert [0] + ([x] + more) == [0, x] + more && [0] + ([x] + after) == [0, x] + after;
      ZeroThenPlain(x, more);
    } else {
      assert [0, 0] + ([x] + more) == [0, 0, x] + more && [0, 0] + ([x] + after) == [0, 0, x] + after;
      TwoZerosThenPlain(x, more);
    }
  }

  /** Taking the emulation prevention octets out gives back any payload. */
  lemma UnescapeInvertsEscape(d: bytes)
    ensures Unescape(Escape(0, d)) == d
  {
    UnescapeInvertsFrom(0, d);
    assert [] + Escape(0, d) == Escape(0, d) && [] + d == d;
  }

  ghost predicate NoCode(d: bytes)
  {
    forall i :: 0 <= i < |d| ==> !CodeAt(d, i)
  }

  lemma {:induction false} EscapedHasNoCode(zeros: nat, d: bytes)
    requires zeros <= 2
    ensures NoCode(Zeros(zeros) + Escape(zeros, d))
    decreases |d|
  {
    TwoZeros();
    hide Zeros;
    if d == [] {
    } else {
      var x, rest := d[0], d[1..];
      if zeros == 2 && x <= 3 {
        EscapedHasNoCode(if x == 0 then 1 else 0, rest);
        CodeFreePrepend3(x, Escape(if x == 0 then 1 else 0, rest));
      } else if x == 0 {
        EscapedHasNoCode(zeros + 1, rest);
        assert Zeros(zeros) + ([0] + Escape(zeros + 1, rest)) == Zeros(zeros + 1) + Escape(zeros + 1, rest);
      } else {
        EscapedHasNoCode(0, rest);
        assert [] + Escape(0, rest) == Escape(0, rest);
        CodeFreePrepend(zeros, x, Escape(0, rest));
      }
    }
  }

  lemma CodeInSuffix(front: bytes, more: bytes, i: nat)
    requires i >= |front|
    ensures CodeAt(front + more, i) <==> CodeAt(more, i - |front|)
  {
  }

  lemma CodeFreePrepend(zeros: nat, x: byte, more: bytes)
    requires zeros <= 2 && x != 0 && (zeros == 2 ==> x > 3) && NoCode(more)
    ensures NoCode(Zeros(zeros) + ([x] + more))
  {
    TwoZeros();
    hide Zeros;
    var front := Zeros(zeros) + [x];
    assert Zeros(zeros) + ([x] + more) == front + more;
    forall i | 0 <= i < |front + more| ensures !CodeAt(front + more, i) {
      if i >= |front| {
        CodeInSuffix(front, more, i);
      }
    }
  }

  lemma CodeFreePrepend3(x: byte, more: bytes)
    requires x <= 3 && NoCode(Zeros(if x == 0 then 1 else 0) + more)
    ensures NoCode(Zeros(2) + ([3, x] + more))
  {
    TwoZeros();
    hide Zeros;
    var front := if x == 0 then [0, 0, 3] else [0, 0, 3, x];
    var tail := Zeros(if x == 0 then 1 else 0) + more;
    assert Zeros(2) + ([3, x] + more) == front + tail;
    forall i | 0 <= i < |front + tail| ensures !CodeAt(front + tail, i) {
      if i >= |front| {
        CodeInSuffix(front, tail, i);
      }
    }
  }

  /** A NAL unit made as the standard says is one the multiplexer's start codes carry without loss. */
  lemma EscapedIsClean(header: byte, d: bytes)
    requires header != 0 && d != [] && d[|d| - 1] != 0
    ensures Clean([header] + Escape(0, d))
  {
    EscapedHasNoCode(0, d);
    TwoZeros();
    assert [] + Escape(0, d) == Escape(0, d);
    CodeFreePrepend(0, header, Escape(0, d));
    assert [] + ([header] + Escape(0, d)) == [header] + Escape(0, d);
    LastKept(0, d);
  }

  lemma {:induction false} LastKept(zeros: nat, d: bytes)
    requires zeros <= 2 && d != []
    ensures var e := Escape(zeros, d); |e| > 0 && e[|e| - 1] == d[|d| - 1]
    decreases |d|
  {
    if |d| > 1 {
      LastKept(if zeros == 2 && d[0] <= 3 then if d[0] == 0 then 1 else 0 else if d[0] == 0 then zeros + 1 else 0, d[1..]);
    } else {
      assert d[1..] == [];
    }
  }

  // ----- bits -----

  function Pow2(n: nat): (r: nat)
    ensures r > 0
  {
    if n == 0 then 1 else 2 * Pow2(n - 1)
  }

  function BitOf(x: byte, k: nat): bool
    requires k < 8
  {
    x as int / Pow2(7 - k) % 2 == 1
  }

  /** The bits of the data from a position on, most significant first. */
  function BitsFrom(d: bytes, pos: nat): (r: seq<bool>)
    requires pos <= 8 * |d|
    ensures |r| == 8 * |d| - pos
  {
    seq(8 * |d| - pos, i requires 0 <= i < 8 * |d| - pos => BitOf(d[(pos + i) / 8], (pos + i) % 8))
  }

  function AsNat(b: bool): nat
  {
    if b then 1 else 0
  }

  /** The number some bits spell. */
  function Number(b: seq<bool>): nat
  {
    if b == [] then 0 else Number(b[..|b| - 1]) * 2 + AsNat(b[|b| - 1])
  }

  const MAX_ZEROS := 32

  /** The zeros that lead. */
  function Leading(b: seq<bool>): (n: nat)
    ensures n <= |b| && (n < |b| ==> b[n]) && forall i :: 0 <= i < n ==> !b[i]
  {
    if b == [] || b[0] then 0 else 1 + Leading(b[1..])
  }

  /** An unsigned Exp-Golomb code: the value and the bits it takes. */
  function ReadUe(b: seq<bool>): Option<(nat, nat)>
  {
    var zeros := Leading(b);
    if zeros > MAX_ZEROS || 2 * zeros + 1 > |b| then None
    else Some((Pow2(zeros) - 1 + Number(b[zeros + 1..2 * zeros + 1]), 2 * zeros + 1))
  }

  /** The sign alternates: 1, -1, 2, -2 and so on. */
  function SignedOf(k: nat): int
  {
    if k % 2 == 1 then (k + 1) / 2 else -(k / 2)
  }

  class BitReader {
    const data: bytes
    var pos: nat
    var err: bool

    predicate Valid()
      reads this
    {
      pos <= 8 * |data|
    }

    constructor (d: bytes)
      ensures Valid() && data == d && pos == 0 && !err
    {
      data, pos, err := d, 0, false;
    }

    /** The error is sticky; past the end every bit reads 0. */
    method Bit() returns (b: bool)
      requires Valid()
      modifies this
      ensures Valid()
      ensures if old(pos) < 8 * |data| then b == BitsFrom(data, old(pos))[0] && pos == old(pos) + 1 && err == old(err)
              else !b && err && pos == old(pos)
    {
      var i, off := pos / 8, pos % 8;
      if i >= |data| {
        err := true;
        return false;
      }
      pos := pos + 1;
      b := BitOf(data[i], off);
    }

    method Bits(n: nat) returns (v: nat)
      requires Valid()
      modifies this
      ensures Valid()
      ensures old(pos) + n <= 8 * |data| ==>
                v == Number(BitsFrom(data, old(pos))[..n]) && pos == old(pos) + n && err == old(err)
      ensures old(pos) + n > 8 * |data| ==> err
    {
      v := 0;
      ghost var all := BitsFrom(data, pos);
      for j := 0 to n
        invariant Valid()
        invariant old(pos) + j <= 8 * |data| ==> v == Number(all[..j]) && pos == old(pos) + j && err == old(err)
        invariant old(pos) + j > 8 * |data| ==> err && pos == 8 * |data|
      {
        if old(pos) + j < 8 * |data| {
          assert BitsFrom(data, pos)[0] == all[j];
          assert all[..j + 1][..j] == all[..j];
        }
        var b := Bit();
        v := v * 2 + AsNat(b);
      }
    }

    /** Up to the leading one, or to the error. */
    method LeadingZeros() returns (zeros: nat)
      requires Valid() && !err
      modifies this
      ensures Valid()
      ensures var b := BitsFrom(data, old(pos));
              if Leading(b) > MAX_ZEROS || Leading(b) == |b| then err
              else !err && zeros == Leading(b) && pos == old(pos) + zeros + 1
    {
      ghost var all := BitsFrom(data, pos);
      zeros := 0;
      while true
        invariant Valid() && !err && pos == old(pos) + zeros && zeros <= MAX_ZEROS && zeros <= |all|
        invariant forall i :: 0 <= i < zeros ==> !all[i]
        decreases MAX_ZEROS - zeros
      {
        assert zeros < |all| ==> BitsFrom(data, pos)[0] == all[zeros];
        var b := Bit();
        if err {
          LeadingIs(all, zeros);
          return;
        }
        if b {
          LeadingIs(all, zeros);
          return;
        }
        zeros := zeros + 1;
        if zeros > MAX_ZEROS {
          LeadingAtLeast(all, zeros);
          err := true;
          return;
        }
      }
    }

    method Ue() returns (v: nat)
      requires Valid() && !err
      modifies this
      ensures Valid()
      ensures match ReadUe(BitsFrom(data, old(pos)))
              case Some((value, used)) => v == value && pos == old(pos) + used && !err
              case None => err
    {
      hide Leading, Number, Pow2, BitsFrom;
      ghost var all := BitsFrom(data, pos);
      var zeros := LeadingZeros();
      if err {
        return 0;
      }
      BitsDrop(data, old(pos), zeros + 1);
      var rest := Bits(zeros);
      if 2 * zeros + 1 <= |all| {
        Middle(all, zeros);
      }
      v := Pow2(zeros) - 1 + rest;
    }

    method Se() returns (v: int)
      requires Valid() && !err
      modifies this
      ensures Valid()
      ensures match ReadUe(BitsFrom(data, old(pos)))
              case Some((value, used)) => v == SignedOf(value) && pos == old(pos) + used && !err
              case None => err
    {
      var k: int := Ue();
      v := if k % 2 != 0 then (k + 1) / 2 else -(k / 2);
    }
  }

  lemma {:induction false} LeadingIs(b: seq<bool>, n: nat)
    requires n <= |b| && (n < |b| ==> b[n]) && forall i :: 0 <= i < n ==> !b[i]
    ensures Leading(b) == n
  {
  }

  lemma {:induction false} LeadingAtLeast(b: seq<bool>, n: nat)
    requires n <= |b| && forall i :: 0 <= i < n ==> !b[i]
    ensures Leading(b) >= n
  {
  }

  // ----- Exp-Golomb codes -----

  /** The low n bits of a number. */
  function Binary(v: nat, n: nat): (r: seq<bool>)
    ensures |r| == n
  {
    if n == 0 then [] else Binary(v / 2, n - 1) + [v % 2 == 1]
  }

  lemma {:induction false} NumberOfBinary(v: nat, n: nat)
    requires v < Pow2(n)
    ensures Number(Binary(v, n)) == v
  {
    if n > 0 {
      NumberOfBinary(v / 2, n - 1);
      assert Binary(v, n)[..n - 1] == Binary(v / 2, n - 1);
    }
  }

  function ZeroBits(n: nat): (r: seq<bool>)
    ensures |r| == n && forall i :: 0 <= i < n ==> !r[i]
  {
    seq(n, i => false)
  }

  /** So many bits follow the leading one of v + 1. */
  function Width(v: nat): (n: nat)
    ensures Pow2(n) <= v + 1 < 2 * Pow2(n)
    decreases v
  {
    if v == 0 then 0 else 1 + Width((v + 1) / 2 - 1)
  }

  /** The code of section 9.1: as many zeros as bits follow the leading one, then v + 1. */
  function UeCode(v: nat): seq<bool>
  {
    ZeroBits(Width(v)) + [true] + Binary(v + 1 - Pow2(Width(v)), Width(v))
  }

  lemma CodeLeads(n: nat, low: seq<bool>, tail: seq<bool>)
    requires |low| == n
    ensures var b := ZeroBits(n) + [true] + low + tail;
            Leading(b) == n && b[n + 1..2 * n + 1] == low
  {
    var b := ZeroBits(n) + [true] + low + tail;
    forall i | 0 <= i < n ensures !b[i] {
      assert b[i] == ZeroBits(n)[i];
    }
    assert b[n];
    LeadingIs(b, n);
  }

  lemma BitsDrop(d: bytes, pos: nat, n: nat)
    requires pos + n <= 8 * |d|
    ensures BitsFrom(d, pos + n) == BitsFrom(d, pos)[n..]
  {
    hide BitOf;
    assert |BitsFrom(d, pos + n)| == |BitsFrom(d, pos)[n..]|;
    forall i | 0 <= i < |BitsFrom(d, pos + n)| ensures BitsFrom(d, pos + n)[i] == BitsFrom(d, pos)[n..][i] {
      assert pos + n + i == pos + (n + i);
    }
  }

  lemma Middle(b: seq<bool>, n: nat)
    requires 2 * n + 1 <= |b|
    ensures b[n + 1..][..n] == b[n + 1..2 * n + 1]
  {
  }

  lemma ReadUeIs(b: seq<bool>, n: nat, low: seq<bool>)
    requires Leading(b) == n <= MAX_ZEROS && 2 * n + 1 <= |b| && b[n + 1..2 * n + 1] == low
    ensures ReadUe(b) == Some((Pow2(n) - 1 + Number(low), 2 * n + 1))
  {
    hide Leading, Number, Pow2;
  }

  lemma UeReads(v: nat, tail: seq<bool>)
    requires Width(v) <= MAX_ZEROS
    ensures ReadUe(UeCode(v) + tail) == Some((v, |UeCode(v)|))
  {
    hide *;
    var n := Width(v);
    var low := v + 1 - Pow2(n);
    CodeLeads(n, Binary(low, n), tail);
    NumberOfBinary(low, n);
    CodeLength(v, tail);
    ReadUeIs(UeCode(v) + tail, n, Binary(low, n));
  }

  lemma CodeLength(v: nat, tail: seq<bool>)
    ensures |UeCode(v)| == 2 * Width(v) + 1 && 2 * Width(v) + 1 <= |UeCode(v) + tail|
    ensures UeCode(v) + tail == ZeroBits(Width(v)) + [true] + Binary(v + 1 - Pow2(Width(v)), Width(v)) + tail
  {
    hide Width, Binary, Pow2, ZeroBits;
  }

  /** A code of up to 32 leading zeros, and no longer one, is read back, and exactly its bits are used. */
  lemma UeRoundTripsIff(v: nat, tail: seq<bool>)
    ensures ReadUe(UeCode(v) + tail) == Some((v, |UeCode(v)|)) <==> Width(v) <= MAX_ZEROS
  {
    if Width(v) <= MAX_ZEROS {
      UeReads(v, tail);
    } else {
      CodeLeads(Width(v), Binary(v + 1 - Pow2(Width(v)), Width(v)), tail);
    }
  }

  /** Every integer has exactly one unsigned code. */
  lemma SignedIsBijection(x: int)
    ensures var k := if x > 0 then 2 * x - 1 else -2 * x; k >= 0 && SignedOf(k) == x && forall j: nat :: SignedOf(j) == x ==> j == k
  {
  }
}
