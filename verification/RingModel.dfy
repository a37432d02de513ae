/** The simple form of the circular queue: a modular byte ring that holds records, each a
    24-byte header followed by its body, laid out one after another from `tail`.
    The module proves that this ring behaves as a bounded FIFO of byte strings. */
module RingModel {
  import opened Bytes

  const HEADER_SIZE: nat := 24

  // The layout codes stored in the first byte of a header.
  const CASE1: Byte := 1  // the element ends before the end of the region
  const CASE2: Byte := 2  // the element ends exactly at the end of the region
  const CASE3: Byte := 3  // the header is split across the end
  const CASE4: Byte := 4  // the body is split across the end
  const CASE5: Byte := 5  // the header ends exactly at the end, the body starts at 0

  // ---------- header codec ----------

  // The four padding bytes and the eight time-stamp bytes of a header: any values at all.
  type Filler = s: seq<Byte> | |s| == 12 witness seq(12, i => 0)

  /** Byte 0 the layout code, bytes 1-3 "000", 4-7 padding, 8-15 the body length, 16-23 a time stamp. */
  function Header(code: Byte, bodyLen: nat, filler: Filler): (h: seq<Byte>)
    ensures |h| == HEADER_SIZE
  {
    [code, 48, 48, 48] + filler[..4] + LittleEndian(bodyLen, 8) + filler[4..]
  }

  function BodyLen(h: seq<Byte>): nat
    requires |h| >= HEADER_SIZE
  {
    FromLittleEndian(h[8..16])
  }

  lemma HeaderRoundTrip(code: Byte, bodyLen: nat, filler: Filler, body: seq<Byte>)
    requires bodyLen < TWO_TO_THE_64
    ensures BodyLen(Header(code, bodyLen, filler) + body) == bodyLen
    ensures (Header(code, bodyLen, filler) + body)[0] == code
  {
    Pow256Of8();
    LittleEndianRoundTrip(bodyLen, 8);
    assert (Header(code, bodyLen, filler) + body)[8..16] == LittleEndian(bodyLen, 8);
  }

  // ---------- positions on the ring ----------

  function Wrap(x: nat, n: nat): nat {
    if x < n then x else x - n
  }

  lemma WrapIsModulo(x: nat, n: nat)
    requires x < 2 * n
    ensures Wrap(x, n) == x % n
  {
    if x >= n {
      assert x == n + (x - n);
    }
  }

  /** The `len` bytes that start at `start` and continue at 0 after the end of the region. */
  function Arc(mem: seq<Byte>, start: nat, len: nat): (a: seq<Byte>)
    requires start < |mem| && len <= |mem|
    ensures |a| == len
  {
    seq(len, i requires 0 <= i < len => mem[Wrap(start + i, |mem|)])
  }

  /** How far `j` lies behind `start`, going round the ring. */
  function Offset(j: nat, start: nat, n: nat): nat
    requires j < n && start < n
  {
    if j >= start then j - start else j + n - start
  }

  /** `mem` with byte `i` of `bytes` stored at position `start + i`, modulo the size. */
  function Spread(mem: seq<Byte>, start: nat, bytes: seq<Byte>): (m: seq<Byte>)
    requires start < |mem| && |bytes| <= |mem|
    ensures |m| == |mem|
  {
    seq(|mem|, j requires 0 <= j < |mem| =>
      if Offset(j, start, |mem|) < |bytes| then bytes[Offset(j, start, |mem|)] else mem[j])
  }

  /** What is stored behind a used arc extends it, and the used arc keeps every byte. */
  lemma SpreadExtendsArc(mem: seq<Byte>, tail: nat, used: nat, bytes: seq<Byte>)
    requires tail < |mem| && used + |bytes| <= |mem|
    ensures Arc(Spread(mem, Wrap(tail + used, |mem|), bytes), tail, used + |bytes|) == Arc(mem, tail, used) + bytes
    ensures Arc(Spread(mem, Wrap(tail + used, |mem|), bytes), tail, used) == Arc(mem, tail, used)
  {
    var n := |mem|;
    var head := Wrap(tail + used, n);
    var m := Spread(mem, head, bytes);
    forall i | 0 <= i < used + |bytes|
      ensures m[Wrap(tail + i, n)] == (Arc(mem, tail, used) + bytes)[i]
    {
      var j := Wrap(tail + i, n);
      if i < used {
        assert |bytes| > 0 ==> Offset(j, head, n) == n - used + i;
      } else {
        assert Offset(j, head, n) == i - used;
      }
    }
    assert Arc(m, tail, used) == Arc(m, tail, used + |bytes|)[..used];
  }

  lemma ArcSplit(mem: seq<Byte>, tail: nat, a: nat, b: nat)
    requires tail < |mem| && a + b <= |mem|
    ensures Arc(mem, tail, a + b) == Arc(mem, tail, a) + Arc(mem, Wrap(tail + a, |mem|), b)
  {
    var whole, first := Arc(mem, tail, a + b), Arc(mem, tail, a);
    assert b > 0 ==> Wrap(tail + a, |mem|) < |mem|;
    forall i | 0 <= i < a + b
      ensures whole[i] == (first + Arc(mem, Wrap(tail + a, |mem|), b))[i]
    {
      if i >= a {
        assert Wrap(Wrap(tail + a, |mem|) + (i - a), |mem|) == Wrap(tail + i, |mem|);
      }
    }
  }

  // ---------- records ----------

  function Bodies(records: seq<seq<Byte>>): (bodies: seq<seq<Byte>>)
    requires forall r | r in records :: |r| >= HEADER_SIZE
    ensures |bodies| == |records|
  {
    seq(|records|, i requires 0 <= i < |records| => records[i][HEADER_SIZE..])
  }

  /** The layout code of an element whose header starts at `pos` in a region of `n` bytes. */
  function CaseOf(pos: nat, bodyLen: nat, n: nat): Byte {
    if pos + HEADER_SIZE + bodyLen < n then CASE1
    else if pos + HEADER_SIZE + bodyLen == n then CASE2
    else if n < pos + HEADER_SIZE then CASE3
    else if pos + HEADER_SIZE < n then CASE4
    else CASE5
  }

  ghost predicate WellFormed(record: seq<Byte>, pos: nat, n: nat) {
    && HEADER_SIZE < |record| <= n
    && BodyLen(record) == |record| - HEADER_SIZE
    && record[0] == CaseOf(pos, |record| - HEADER_SIZE, n)
  }

  /** Every record, the first at `pos` and each next where the last one ends, has a sound header. */
  ghost predicate Tagged(records: seq<seq<Byte>>, pos: nat, n: nat)
    requires pos < n
    ensures Tagged(records, pos, n) ==> forall r | r in records :: |r| > HEADER_SIZE
  {
    records == [] ||
    (WellFormed(records[0], pos, n) && Tagged(records[1..], Wrap(pos + |records[0]|, n), n))
  }

  lemma {:induction false} TaggedAppend(records: seq<seq<Byte>>, record: seq<Byte>, pos: nat, n: nat)
    requires pos < n && Tagged(records, pos, n)
    requires |Flat(records)| + |record| <= n
    requires WellFormed(record, Wrap(pos + |Flat(records)|, n), n)
    ensures Tagged(records + [record], pos, n)
  {
    if records == [] {
      assert [record][1..] == [];
    } else {
      TaggedAppend(records[1..], record, Wrap(pos + |records[0]|, n), n);
      assert (records + [record])[1..] == records[1..] + [record];
    }
  }

  /** The number of records whose layout code is not CASE1. */
  function Wrapping(records: seq<seq<Byte>>): nat
    requires forall r | r in records :: |r| > HEADER_SIZE
  {
    if records == [] then 0
    else (if records[0][0] == CASE1 then 0 else 1) + Wrapping(records[1..])
  }

  lemma {:induction false} WrappingCount(records: seq<seq<Byte>>, pos: nat, n: nat)
    requires pos < n && Tagged(records, pos, n) && |Flat(records)| <= n
    ensures Wrapping(records) == if pos + |Flat(records)| >= n then 1 else 0
  {
    if records == [] {
    } else {
      WrappingCount(records[1..], Wrap(pos + |records[0]|, n), n);
    }
  }

  // ---------- the ring ----------

  datatype Ring = Ring(mem: seq<Byte>, left: nat, count: nat, head: nat, tail: nat)

  ghost predicate RingInv(r: Ring, records: seq<seq<Byte>>) {
    var n := |r.mem|;
    && HEADER_SIZE < n < TWO_TO_THE_64
    && r.left <= n
    && r.tail < n
    && r.head == Wrap(r.tail + (n - r.left), n)
    && r.count == |records|
    && Arc(r.mem, r.tail, n - r.left) == Flat(records)
    && Tagged(records, r.tail, n)
  }

  function Record(pos: nat, n: nat, data: seq<Byte>, filler: Filler): (rec: seq<Byte>)
    ensures |rec| == HEADER_SIZE + |data|
  {
    Header(CaseOf(pos, |data|, n), |data|, filler) + data
  }

  function Put(r: Ring, data: seq<Byte>, filler: Filler): Ring
    requires r.head < |r.mem| && HEADER_SIZE + |data| <= r.left <= |r.mem|
  {
    var rec := Record(r.head, |r.mem|, data, filler);
    Ring(Spread(r.mem, r.head, rec), r.left - |rec|, r.count + 1, Wrap(r.head + |rec|, |r.mem|), r.tail)
  }

  predicate CanTake(r: Ring) {
    && r.count > 0
    && r.tail < |r.mem|
    && HEADER_SIZE <= |r.mem|
    && HEADER_SIZE + BodyLen(Arc(r.mem, r.tail, HEADER_SIZE)) <= |r.mem|
  }

  function Take(r: Ring): (result: (Ring, seq<Byte>))
    requires CanTake(r)
  {
    var n := |r.mem|;
    var len := BodyLen(Arc(r.mem, r.tail, HEADER_SIZE));
    var body := Arc(r.mem, Wrap(r.tail + HEADER_SIZE, n), len);
    (Ring(r.mem, r.left + HEADER_SIZE + len, r.count - 1, r.head, Wrap(r.tail + HEADER_SIZE + len, n)), body)
  }

  lemma SpreadAt(mem: seq<Byte>, start: nat, bytes: seq<Byte>, i: nat)
    requires start < |mem| && |bytes| <= |mem| && i < |bytes|
    ensures Spread(mem, start, bytes)[(start + i) % |mem|] == bytes[i]
  {
    WrapIsModulo(start + i, |mem|);
    assert Offset(Wrap(start + i, |mem|), start, |mem|) == i;
  }

  /** Byte i of header and body lands at (head + i) modulo the size, and nothing else changes. */
  lemma PutIsModular(r: Ring, data: seq<Byte>, filler: Filler)
    requires r.head < |r.mem| && HEADER_SIZE + |data| <= r.left <= |r.mem|
    ensures var (n, rec, r') := (|r.mem|, Record(r.head, |r.mem|, data, filler), Put(r, data, filler));
            && r'.head == (r.head + HEADER_SIZE + |data|) % n
            && (forall i | 0 <= i < |rec| :: r'.mem[(r.head + i) % n] == rec[i])
            && (forall j | 0 <= j < n && Offset(j, r.head, n) >= |rec| :: r'.mem[j] == r.mem[j])
  {
    hide Record;
    var n, rec, r' := |r.mem|, Record(r.head, |r.mem|, data, filler), Put(r, data, filler);
    WrapIsModulo(r.head + |rec|, n);
    forall i | 0 <= i < |rec|
      ensures r'.mem[(r.head + i) % n] == rec[i]
    {
      SpreadAt(r.mem, r.head, rec, i);
    }
  }

  /** The body is gathered from (tail + header size + i) modulo the size. */
  lemma TakeIsModular(r: Ring)
    requires CanTake(r)
    ensures var (n, (r', body)) := (|r.mem|, Take(r));
            && r'.tail == (r.tail + HEADER_SIZE + |body|) % n
            && forall i | 0 <= i < |body| :: body[i] == r.mem[(r.tail + HEADER_SIZE + i) % n]
  {
    var n, body := |r.mem|, Take(r).1;
    WrapIsModulo(r.tail + HEADER_SIZE + |body|, n);
    forall i | 0 <= i < |body|
      ensures body[i] == r.mem[(r.tail + HEADER_SIZE + i) % n]
    {
      WrapIsModulo(r.tail + HEADER_SIZE + i, n);
      assert Wrap(Wrap(r.tail + HEADER_SIZE, n) + i, n) == Wrap(r.tail + HEADER_SIZE + i, n);
    }
  }

  lemma PutKeepsInv(r: Ring, records: seq<seq<Byte>>, data: seq<Byte>, filler: Filler)
    requires RingInv(r, records)
    requires 0 < |data| && HEADER_SIZE + |data| <= r.left
    ensures RingInv(Put(r, data, filler), records + [Record(r.head, |r.mem|, data, filler)])
    ensures Bodies(records + [Record(r.head, |r.mem|, data, filler)]) == Bodies(records) + [data]
  {
    hide Tagged, Flat, CaseOf, FromLittleEndian;
    var n := |r.mem|;
    var rec := Record(r.head, n, data, filler);
    HeaderRoundTrip(CaseOf(r.head, |data|, n), |data|, filler, data);
    FlatAppend(records, rec);
    TaggedAppend(records, rec, r.tail, n);
    SpreadExtendsArc(r.mem, r.tail, n - r.left, rec);
  }

  /** The header at the tail is the first record's header, wherever the ring's end falls. */
  lemma TailHoldsFirstRecord(r: Ring, records: seq<seq<Byte>>)
    requires RingInv(r, records) && r.count > 0
    ensures |records[0]| <= |r.mem| - r.left
    ensures Arc(r.mem, r.tail, |records[0]|) == records[0]
    ensures BodyLen(Arc(r.mem, r.tail, HEADER_SIZE)) == |records[0]| - HEADER_SIZE
    ensures Arc(r.mem, Wrap(r.tail + |records[0]|, |r.mem|), |r.mem| - r.left - |records[0]|) == Flat(records[1..])
  {
    var n := |r.mem|;
    var rec := records[0];
    assert Flat(records) == rec + Flat(records[1..]);
    ArcSplit(r.mem, r.tail, |rec|, n - r.left - |rec|);
    assert Arc(r.mem, r.tail, |rec|) == Flat(records)[..|rec|] == rec;
    assert Arc(r.mem, r.tail, HEADER_SIZE)[8..16] == rec[8..16] by {
      assert forall i | 0 <= i < HEADER_SIZE :: Arc(r.mem, r.tail, HEADER_SIZE)[i] == Arc(r.mem, r.tail, |rec|)[i];
    }
  }

  lemma TakeKeepsInv(r: Ring, records: seq<seq<Byte>>)
    requires RingInv(r, records) && r.count > 0
    ensures CanTake(r)
    ensures RingInv(Take(r).0, records[1..])
    ensures Take(r).1 == records[0][HEADER_SIZE..] == Bodies(records)[0]
    ensures Bodies(records[1..]) == Bodies(records)[1..]
  {
    hide BodyLen, CaseOf;
    TailHoldsFirstRecord(r, records);
    ArcSplit(r.mem, r.tail, HEADER_SIZE, |records[0]| - HEADER_SIZE);
  }

  // ---------- reading the queue back from the bytes alone ----------

  /** The bodies met, and the position reached, when `count` headers are decoded from `pos` on. */
  function Walk(mem: seq<Byte>, pos: nat, count: nat): (seq<seq<Byte>>, nat)
    requires pos < |mem|
    decreases count
  {
    if count == 0 || |mem| < HEADER_SIZE then ([], pos) else
      var len := BodyLen(Arc(mem, pos, HEADER_SIZE));
      if |mem| < HEADER_SIZE + len then ([], pos) else
        var body := Arc(mem, Wrap(pos + HEADER_SIZE, |mem|), len);
        var rest := Walk(mem, Wrap(pos + HEADER_SIZE + len, |mem|), count - 1);
        ([body] + rest.0, rest.1)
  }

  /** Walking from the tail visits exactly the queued elements, in order, and ends at the head. */
  lemma {:induction false} WalkVisitsQueue(r: Ring, records: seq<seq<Byte>>)
    requires RingInv(r, records)
    ensures Walk(r.mem, r.tail, r.count) == (Bodies(records), r.head)
    decreases records
  {
    hide BodyLen, Tagged;
    if records != [] {
      TakeKeepsInv(r, records);
      WalkVisitsQueue(Take(r).0, records[1..]);
      assert Bodies(records) == [Bodies(records)[0]] + Bodies(records)[1..];
    }
  }

  lemma WalkReads(mem: seq<Byte>, pos: nat, records: seq<seq<Byte>>)
    requires HEADER_SIZE < |mem| < TWO_TO_THE_64 && pos < |mem| && |Flat(records)| <= |mem|
    requires Tagged(records, pos, |mem|) && Arc(mem, pos, |Flat(records)|) == Flat(records)
    ensures Walk(mem, pos, |records|) == (Bodies(records), Wrap(pos + |Flat(records)|, |mem|))
  {
    var used := |Flat(records)|;
    WalkVisitsQueue(Ring(mem, |mem| - used, |records|, Wrap(pos + used, |mem|), pos), records);
  }

  /** Storing an element touches free bytes only: the queued elements still decode as before. */
  lemma PutKeepsWalk(r: Ring, records: seq<seq<Byte>>, data: seq<Byte>, filler: Filler)
    requires RingInv(r, records) && 0 < |data| && HEADER_SIZE + |data| <= r.left
    ensures Walk(Put(r, data, filler).mem, r.tail, r.count) == Walk(r.mem, r.tail, r.count)
  {
    hide Walk, BodyLen;
    SpreadExtendsArc(r.mem, r.tail, |Flat(records)|, Record(r.head, |r.mem|, data, filler));
    WalkReads(Put(r, data, filler).mem, r.tail, records);
    WalkVisitsQueue(r, records);
  }

  /** One more step of the walk, from the old head to the new one, finds the new element. */
  lemma PutExtendsWalk(r: Ring, records: seq<seq<Byte>>, data: seq<Byte>, filler: Filler)
    requires RingInv(r, records) && 0 < |data| && HEADER_SIZE + |data| <= r.left
    ensures Walk(Put(r, data, filler).mem, r.tail, r.count + 1)
         == (Walk(r.mem, r.tail, r.count).0 + [data], Put(r, data, filler).head)
  {
    hide Walk, Tagged, BodyLen;
    PutKeepsInv(r, records, data, filler);
    WalkVisitsQueue(r, records);
    WalkVisitsQueue(Put(r, data, filler), records + [Record(r.head, |r.mem|, data, filler)]);
  }

  // ---------- space accounting ----------

  /** The bytes a queue of bodies occupies. */
  function Used(bodies: seq<seq<Byte>>): nat {
    if bodies == [] then 0 else HEADER_SIZE + |bodies[0]| + Used(bodies[1..])
  }

  lemma {:induction false} UsedIsFlatLength(records: seq<seq<Byte>>)
    requires forall r | r in records :: |r| > HEADER_SIZE
    ensures Used(Bodies(records)) == |Flat(records)|
    ensures |records| * (HEADER_SIZE + 1) <= |Flat(records)|
  {
    if records != [] {
      UsedIsFlatLength(records[1..]);
      assert Bodies(records)[1..] == Bodies(records[1..]);
    }
  }

  /** The cyclic distance from tail to head; when they meet, the element count says which of 0 and n it is. */
  function Distance(r: Ring): nat
    requires r.tail < |r.mem|
  {
    if r.head > r.tail then r.head - r.tail
    else if r.head < r.tail then r.head + |r.mem| - r.tail
    else if r.count == 0 then 0
    else |r.mem|
  }

  lemma SpaceConservation(r: Ring, records: seq<seq<Byte>>)
    requires RingInv(r, records)
    ensures |r.mem| - r.left == Used(Bodies(records)) == Distance(r)
    ensures r.head < |r.mem|
    ensures r.count * (HEADER_SIZE + 1) <= |r.mem|
    ensures r.count == 0 <==> r.left == |r.mem|
    ensures r.head == r.tail && r.count != 0 ==> r.left == 0
  {
    UsedIsFlatLength(records);
    assert records != [] ==> |Flat(records)| >= |records[0]|;
  }

  /** Exactly one queued element reaches or crosses the end of the region when the used bytes do,
      and none otherwise; so the layout code matters only when head <= tail. */
  lemma LayoutCodesSound(r: Ring, records: seq<seq<Byte>>)
    requires RingInv(r, records)
    ensures Wrapping(records) == if r.count > 0 && r.head <= r.tail then 1 else 0
  {
    WrappingCount(records, r.tail, |r.mem|);
    SpaceConservation(r, records);
  }
}
