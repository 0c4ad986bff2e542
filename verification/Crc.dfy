// The section checksum of ISO/IEC 13818-1, Annex A: CRC-32/MPEG-2, neither reflected nor inverted at the end.
module Crc {
  import opened Bytes

  const INITIAL: bv32 := 0xFFFF_FFFF

  function ShiftBit(crc: bv32): bv32
  {
    if crc & 0x8000_0000 != 0 then (crc << 1) ^ 0x04C1_1DB7 else crc << 1
  }

  function CrcShift(crc: bv32, bits: nat): bv32
    decreases bits
  {
    if bits == 0 then crc else CrcShift(ShiftBit(crc), bits - 1)
  }

  /** An octet mixed into the top of the register. */
  function Mixed(x: byte, crc: bv32): bv32
  {
    crc ^ ((x as bv32) << 24)
  }

  function Crc32Mpeg(data: bytes, crc: bv32): bv32
    decreases |data|
  {
    if data == [] then crc else Crc32Mpeg(data[1..], CrcShift(Mixed(data[0], crc), 8))
  }

  /** Most significant octet first. */
  function CrcOctets(crc: bv32): (r: bytes)
    ensures |r| == 4
  {
    [((crc >> 24) & 0xFF) as int, ((crc >> 16) & 0xFF) as int, ((crc >> 8) & 0xFF) as int, (crc & 0xFF) as int]
  }

  method ComputeCrc(data: bytes) returns (crc: bv32)
    ensures crc == Crc32Mpeg(data, INITIAL)
  {
    hide ShiftBit;
    crc := INITIAL;
    assert data[0..] == data;
    for i := 0 to |data|
      invariant Crc32Mpeg(data[i..], crc) == Crc32Mpeg(data, INITIAL)
    {
      assert data[i..][1..] == data[i + 1..];
      crc := crc ^ ((data[i] as bv32) << 24);
      ghost var shifted := CrcShift(crc, 8);
      for bit := 0 to 8
        invariant CrcShift(crc, 8 - bit) == shifted
      {
        crc := ShiftBit(crc);
      }
    }
  }

  /** A known answer: the checksum of one zero octet. */
  lemma ChecksumOfZero()
    ensures Crc32Mpeg([0], INITIAL) == 0x4E08_BFB4
  {
    assert [0][1..] == [];
    assert Mixed(0, INITIAL) == 0xFFFF_FFFF;
    Shifts([0xFFFF_FFFF, 0xFB3E_E249, 0xF2BC_D925, 0xE1B8_AFFD, 0xC7B0_424D, 0x8BA1_992D, 0x1382_2FED, 0x2704_5FDA, 0x4E08_BFB4]);
    assert CrcShift(0xFFFF_FFFF, 8) == 0x4E08_BFB4;
  }

  lemma {:induction false} Shifts(registers: seq<bv32>)
    requires registers != [] && forall i :: 0 <= i < |registers| - 1 ==> registers[i + 1] == ShiftBit(registers[i])
    ensures CrcShift(registers[0], |registers| - 1) == registers[|registers| - 1]
    decreases |registers|
  {
    if |registers| > 1 {
      Shifts(registers[1..]);
    }
  }

  // ----- a checksum checks itself -----

  lemma ShiftClear(c: bv32, n: nat)
    requires n > 0 && c & 0x8000_0000 == 0
    ensures CrcShift(c, n) == CrcShift(c << 1, n - 1)
  {
  }

  lemma TopClear(c: bv32)
    requires c & 0xFF00_0000 == 0
    ensures c & 0x8000_0000 == 0 && (c << 1) & 0x8000_0000 == 0 && (c << 2) & 0x8000_0000 == 0 && (c << 3) & 0x8000_0000 == 0
    ensures (c << 4) & 0x8000_0000 == 0 && (c << 5) & 0x8000_0000 == 0 && (c << 6) & 0x8000_0000 == 0 && (c << 7) & 0x8000_0000 == 0
    ensures (c << 1) << 1 == c << 2 && (c << 2) << 1 == c << 3 && (c << 3) << 1 == c << 4 && (c << 4) << 1 == c << 5
    ensures (c << 5) << 1 == c << 6 && (c << 6) << 1 == c << 7 && (c << 7) << 1 == c << 8
  {
  }

  lemma ShiftNone(c: bv32)
    ensures CrcShift(c, 0) == c
  {
  }

  lemma ShiftOctet(c: bv32)
    requires c & 0xFF00_0000 == 0
    ensures CrcShift(c, 8) == c << 8
  {
    TopClear(c);
    hide CrcShift;
    ShiftClear(c, 8);
    ShiftClear(c << 1, 7);
    ShiftClear(c << 2, 6);
    ShiftClear(c << 3, 5);
    ShiftClear(c << 4, 4);
    ShiftClear(c << 5, 3);
    ShiftClear(c << 6, 2);
    ShiftClear(c << 7, 1);
    ShiftNone(c << 8);
  }

  /** The octet the register leads with. */
  predicate Leads(x: byte, c: bv32)
  {
    x as bv32 == (c >> 24) & 0xFF
  }

  function Next(c: bv32): bv32
  {
    c << 8
  }

  lemma OwnOctetMixed(x: byte, c: bv32)
    requires Leads(x, c)
    ensures Mixed(x, c) & 0xFF00_0000 == 0 && Mixed(x, c) << 8 == Next(c)
  {
  }

  lemma TakesOwnOctet(x: byte, c: bv32)
    requires Leads(x, c)
    ensures CrcShift(Mixed(x, c), 8) == Next(c)
  {
    OwnOctetMixed(x, c);
    hide *;
    ShiftOctet(Mixed(x, c));
  }

  lemma CrcCons(x: byte, rest: bytes, c: bv32)
    ensures Crc32Mpeg([x] + rest, c) == Crc32Mpeg(rest, CrcShift(Mixed(x, c), 8))
  {
    hide CrcShift, Mixed;
    assert ([x] + rest)[1..] == rest;
  }

  lemma OneOctet(x: byte, rest: bytes, c: bv32)
    requires Leads(x, c)
    ensures Crc32Mpeg([x] + rest, c) == Crc32Mpeg(rest, Next(c))
  {
    hide *;
    CrcCons(x, rest, c);
    TakesOwnOctet(x, c);
  }

  lemma CrcNone(c: bv32)
    ensures Crc32Mpeg([], c) == c
  {
  }

  lemma FourOctets(o: bytes, c: bv32)
    requires |o| == 4 && Leads(o[0], c) && Leads(o[1], Next(c)) && Leads(o[2], Next(Next(c))) && Leads(o[3], Next(Next(Next(c))))
    ensures Crc32Mpeg(o, c) == Next(Next(Next(Next(c))))
  {
    hide *;
    OneOctet(o[0], o[1..], c);
    OneOctet(o[1], o[2..], Next(c));
    OneOctet(o[2], o[3..], Next(Next(c)));
    OneOctet(o[3], [], Next(Next(Next(c))));
    CrcNone(Next(Next(Next(Next(c)))));
    assert o == [o[0]] + o[1..] && o[1..] == [o[1]] + o[2..] && o[2..] == [o[2]] + o[3..] && o[3..] == [o[3]] + [];
  }

  lemma OctetBack(x: bv32)
    requires x <= 0xFF
    ensures (x as int) as bv32 == x && 0 <= x as int < 256
  {
  }

  lemma RegisterOctets(c: bv32)
    ensures (c >> 24) & 0xFF <= 0xFF && (c >> 16) & 0xFF <= 0xFF && (c >> 8) & 0xFF <= 0xFF && c & 0xFF <= 0xFF
    ensures ((c << 8) >> 24) & 0xFF == (c >> 16) & 0xFF && ((c << 16) >> 24) & 0xFF == (c >> 8) & 0xFF
    ensures ((c << 24) >> 24) & 0xFF == c & 0xFF
    ensures (c << 8) << 8 == c << 16 && (c << 16) << 8 == c << 24 && (c << 24) << 8 == 0
  {
  }

  lemma OctetsAre(c: bv32)
    ensures var o := CrcOctets(c);
            && o[0] as bv32 == (c >> 24) & 0xFF && o[1] as bv32 == (c >> 16) & 0xFF
            && o[2] as bv32 == (c >> 8) & 0xFF && o[3] as bv32 == c & 0xFF
  {
    RegisterOctets(c);
    OctetBack((c >> 24) & 0xFF);
    OctetBack((c >> 16) & 0xFF);
    OctetBack((c >> 8) & 0xFF);
    OctetBack(c & 0xFF);
  }

  lemma OwnOctetsLead(c: bv32)
    ensures var o := CrcOctets(c);
            Leads(o[0], c) && Leads(o[1], Next(c)) && Leads(o[2], Next(Next(c))) && Leads(o[3], Next(Next(Next(c))))
    ensures Next(Next(Next(Next(c)))) == 0
  {
    OctetsAre(c);
    RegisterOctets(c);
    hide CrcOctets;
  }

  lemma {:induction false} CrcAppend(a: bytes, b: bytes, c: bv32)
    ensures Crc32Mpeg(a + b, c) == Crc32Mpeg(b, Crc32Mpeg(a, c))
    decreases |a|
  {
    hide CrcShift, Mixed;
    if a == [] {
      assert a + b == b;
    } else {
      assert (a + b)[1..] == a[1..] + b;
      CrcAppend(a[1..], b, CrcShift(Mixed(a[0], c), 8));
    }
  }

  /** Data followed by its own checksum has the checksum 0, which is what a receiver checks. */
  lemma ChecksumClosesToZero(data: bytes)
    ensures Crc32Mpeg(data + CrcOctets(Crc32Mpeg(data, INITIAL)), INITIAL) == 0
  {
    hide *;
    var c := Crc32Mpeg(data, INITIAL);
    CrcAppend(data, CrcOctets(c), INITIAL);
    OwnOctetsLead(c);
    FourOctets(CrcOctets(c), c);
  }
}
