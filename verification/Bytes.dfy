/** Bytes, machine integers and the little-endian integer layout used by the queue's headers. */
module Bytes {
  newtype Byte = x: int | 0 <= x < 256

  // Unsigned 64-bit arithmetic. Dafny checks that no expression of this type leaves the range,
  // so an expression of type `U64` never wraps around.
  newtype U64 = x: int | 0 <= x < 0x1_0000_0000_0000_0000

  const TWO_TO_THE_64: nat := 0x1_0000_0000_0000_0000

  function Pow256(k: nat): (p: nat)
    ensures p > 0
  {
    if k == 0 then 1 else 256 * Pow256(k - 1)
  }

  function LittleEndian(n: nat, width: nat): (s: seq<Byte>)
    ensures |s| == width
    decreases width
  {
    if width == 0 then [] else [(n % 256) as Byte] + LittleEndian(n / 256, width - 1)
  }

  function FromLittleEndian(s: seq<Byte>): nat {
    if s == [] then 0 else s[0] as nat + 256 * FromLittleEndian(s[1..])
  }

  lemma {:induction false} LittleEndianRoundTrip(n: nat, width: nat)
    requires n < Pow256(width)
    ensures FromLittleEndian(LittleEndian(n, width)) == n
    decreases width
  {
    if width == 0 {
    } else {
      LittleEndianRoundTrip(n / 256, width - 1);
      assert LittleEndian(n, width)[1..] == LittleEndian(n / 256, width - 1);
    }
  }

  lemma Pow256Of8()
    ensures Pow256(8) == TWO_TO_THE_64
  {
  }

  /** Byte strings laid end to end. */
  function Flat(parts: seq<seq<Byte>>): seq<Byte> {
    if parts == [] then [] else parts[0] + Flat(parts[1..])
  }

  lemma {:induction false} FlatAppend(parts: seq<seq<Byte>>, part: seq<Byte>)
    ensures Flat(parts + [part]) == Flat(parts) + part
  {
    if parts == [] {
      assert [part][1..] == [];
    } else {
      FlatAppend(parts[1..], part);
      assert (parts + [part])[1..] == parts[1..] + [part];
    }
  }

  lemma {:induction false} FlatConcat(a: seq<seq<Byte>>, b: seq<seq<Byte>>)
    ensures Flat(a + b) == Flat(a) + Flat(b)
  {
    if a == [] {
      assert a + b == b;
    } else {
      assert (a + b)[1..] == a[1..] + b;
      FlatConcat(a[1..], b);
      assert a[0] + (Flat(a[1..]) + Flat(b)) == (a[0] + Flat(a[1..])) + Flat(b);
    }
  }

  function Min(a: nat, b: nat): nat {
    if a < b then a else b
  }

  function Sum(ns: seq<nat>): nat {
    if ns == [] then 0 else ns[0] + Sum(ns[1..])
  }

  // Two conserved stretches of a run put together.
  lemma ConservedTwice<T>(q: seq<T>, s: seq<T>, h: seq<T>, q1: seq<T>, acc: seq<T>, del: seq<T>, q': seq<T>)
    requires q + s == h + q1 && q1 + acc == del + q'
    ensures q + (s + acc) == (h + del) + q'
  {
    assert q + (s + acc) == (q + s) + acc;
    assert (h + q1) + acc == h + (q1 + acc);
    assert h + (del + q') == (h + del) + q';
  }
}
