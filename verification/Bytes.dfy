// Octet strings. The wire code shifts, masks and ors its integers; here a shift is a division or a
// multiplication by a power of two, a mask is a remainder, and the or of disjoint bit fields is a sum.
module Bytes {

  type byte = x: int | 0 <= x < 256
  type bytes = seq<byte>

  datatype Option<+T> = None | Some(value: T)

  /** The low 16 bits, most significant octet first. */
  function Be16(n: nat): (r: bytes)
    ensures |r| == 2
  {
    [n / 256 % 256, n % 256]
  }

  /** The low 24 bits, most significant octet first. */
  function Be24(n: nat): (r: bytes)
    ensures |r| == 3
  {
    [n / 0x1_0000 % 256, n / 256 % 256, n % 256]
  }

  /** The low 32 bits, most significant octet first. */
  function Be32(n: nat): (r: bytes)
    ensures |r| == 4
  {
    [n / 0x100_0000 % 256, n / 0x1_0000 % 256, n / 256 % 256, n % 256]
  }

  /** The number an octet string spells, most significant octet first. */
  function BeUint(b: bytes): (n: nat)
  {
    if b == [] then 0 else BeUint(b[..|b| - 1]) * 256 + b[|b| - 1]
  }

  lemma BeUintSnoc(b: bytes, x: byte)
    ensures BeUint(b + [x]) == BeUint(b) * 256 + x
  {
    assert (b + [x])[..|b|] == b;
  }

  lemma BeUint16(x: byte, y: byte)
    ensures BeUint([x, y]) == x * 256 + y
  {
    BeUintSnoc([], x);
    BeUintSnoc([x], y);
    assert [x] + [y] == [x, y];
    assert [] + [x] == [x];
  }

  lemma BeUint24(x: byte, y: byte, z: byte)
    ensures BeUint([x, y, z]) == x * 0x1_0000 + y * 256 + z
  {
    BeUint16(x, y);
    BeUintSnoc([x, y], z);
    assert [x, y] + [z] == [x, y, z];
  }

  lemma BeUint32(w: byte, x: byte, y: byte, z: byte)
    ensures BeUint([w, x, y, z]) == w * 0x100_0000 + x * 0x1_0000 + y * 256 + z
  {
    BeUint24(w, x, y);
    BeUintSnoc([w, x, y], z);
    assert [w, x, y] + [z] == [w, x, y, z];
  }

  lemma Be32RoundTrips(n: nat)
    requires n < 0x1_0000_0000
    ensures BeUint(Be32(n)) == n
  {
    BeUint32(n / 0x100_0000 % 256, n / 0x1_0000 % 256, n / 256 % 256, n % 256);
    assert n / 256 == n / 0x1_0000 * 256 + n / 256 % 256;
    assert n / 0x1_0000 == n / 0x100_0000 * 256 + n / 0x1_0000 % 256;
  }

  /** The low n octets, most significant first, as shifting them out one by one yields them. */
  function Octets(v: nat, n: nat): (r: bytes)
    ensures |r| == n
  {
    if n == 0 then [] else Octets(v / 256, n - 1) + [v % 256]
  }

  function Pow256(n: nat): (r: nat)
    ensures r > 0
  {
    if n == 0 then 1 else 256 * Pow256(n - 1)
  }

  lemma {:induction false} OctetsRoundTrip(v: nat, n: nat)
    requires v < Pow256(n)
    ensures BeUint(Octets(v, n)) == v
  {
    if n > 0 {
      OctetsRoundTrip(v / 256, n - 1);
      BeUintSnoc(Octets(v / 256, n - 1), v % 256);
    }
  }

  /** The parts one after another. */
  function Concat<T>(parts: seq<seq<T>>): (r: seq<T>)
  {
    if parts == [] then [] else parts[0] + Concat(parts[1..])
  }

  lemma {:induction false} ConcatAppend<T>(a: seq<seq<T>>, b: seq<seq<T>>)
    ensures Concat(a + b) == Concat(a) + Concat(b)
  {
    if a == [] {
      assert a + b == b;
    } else {
      assert (a + b)[0] == a[0] && (a + b)[1..] == a[1..] + b;
      ConcatAppend(a[1..], b);
    }
  }
}
