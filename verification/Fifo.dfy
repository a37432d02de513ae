/** The specification of the circular queue, a bounded FIFO of byte strings, and the proof
    that the byte ring meets it over every run of TryPut and TryGet. */
module Fifo {
  import opened Bytes
  import opened RingModel

  datatype Error = SizeTooSmall | QueueFull | ValueError

  datatype Outcome = Stored | Data(body: seq<Byte>) | Failed(error: Error)

  // `filler` is whatever the header's padding and time stamp happen to be.
  datatype Op = TryPut(data: seq<Byte>, filler: Filler) | TryGet

  /** What TryPut decides from the sizes alone. */
  function PutVerdict(size: nat, total: nat, left: nat): (v: Outcome) {
    if HEADER_SIZE + size > total then Failed(SizeTooSmall)
    else if HEADER_SIZE + size > left then Failed(QueueFull)
    else if size == 0 then Failed(ValueError)
    else Stored
  }

  /** One operation on a FIFO that may occupy `capacity` bytes, headers included. */
  function FifoStep(capacity: nat, q: seq<seq<Byte>>, op: Op): (seq<seq<Byte>>, Outcome) {
    match op
    case TryPut(data, _) =>
      var v := PutVerdict(|data|, capacity, if Used(q) <= capacity then capacity - Used(q) else 0);
      (if v.Stored? then q + [data] else q, v)
    case TryGet =>
      if q == [] then (q, Failed(QueueFull)) else (q[1..], Data(q[0]))
  }

  function RingTryPut(r: Ring, data: seq<Byte>, filler: Filler): (Ring, Outcome)
    requires r.head < |r.mem| && r.left <= |r.mem|
  {
    var v := PutVerdict(|data|, |r.mem|, r.left);
    (if v.Stored? then Put(r, data, filler) else r, v)
  }

  function RingTryGet(r: Ring): (Ring, Outcome)
    requires r.count > 0 ==> CanTake(r)
  {
    if r.count == 0 then (r, Failed(QueueFull)) else (Take(r).0, Data(Take(r).1))
  }

  ghost predicate Valid(r: Ring) {
    exists records :: RingInv(r, records)
  }

  /** The queue a valid ring represents, decoded from its bytes. */
  function Contents(r: Ring): seq<seq<Byte>>
    requires r.tail < |r.mem|
  {
    Walk(r.mem, r.tail, r.count).0
  }

  lemma ValidIsSafe(r: Ring)
    requires Valid(r)
    ensures r.head < |r.mem| && r.tail < |r.mem| && r.left <= |r.mem|
    ensures r.count > 0 ==> CanTake(r)
  {
    var records :| RingInv(r, records);
    SpaceConservation(r, records);
    if r.count > 0 { TakeKeepsInv(r, records); }
  }

  function RingStep(r: Ring, op: Op): (result: (Ring, Outcome))
    requires r.head < |r.mem| && r.left <= |r.mem| && (r.count > 0 ==> CanTake(r))
  {
    match op
    case TryPut(data, filler) => RingTryPut(r, data, filler)
    case TryGet => RingTryGet(r)
  }

  lemma StepRefines(r: Ring, op: Op)
    requires Valid(r)
    ensures r.head < |r.mem| && r.left <= |r.mem| && (r.count > 0 ==> CanTake(r))
    ensures r.tail < |r.mem|
    ensures var (r', out) := RingStep(r, op);
            && Valid(r') && |r'.mem| == |r.mem| && r'.tail < |r'.mem|
            && (Contents(r'), out) == FifoStep(|r.mem|, Contents(r), op)
  {
    hide Walk, BodyLen, Tagged, Flat;
    ValidIsSafe(r);
    var records :| RingInv(r, records);
    SpaceConservation(r, records);
    WalkVisitsQueue(r, records);
    match op
    case TryPut(data, filler) =>
      if PutVerdict(|data|, |r.mem|, r.left).Stored? {
        var records' := records + [Record(r.head, |r.mem|, data, filler)];
        PutKeepsInv(r, records, data, filler);
        WalkVisitsQueue(Put(r, data, filler), records');
      }
    case TryGet =>
      if r.count > 0 {
        TakeKeepsInv(r, records);
        WalkVisitsQueue(Take(r).0, records[1..]);
      }
  }

  // ---------- the answers ----------

  /** Which of its four answers a TryPut of `size` bytes gets, when `used` of `total` bytes are taken. */
  predicate PutAnswers(size: nat, total: nat, used: nat, out: Outcome) {
    && (out == Failed(SizeTooSmall) <==> HEADER_SIZE + size > total)
    && (out == Failed(QueueFull) <==> HEADER_SIZE + size <= total < HEADER_SIZE + size + used)
    && (out == Failed(ValueError) <==> HEADER_SIZE + size + used <= total && size == 0)
    && (out == Stored <==> HEADER_SIZE + size + used <= total && size > 0)
  }

  /** On any valid ring: TryPut answers by the sizes of the queued bodies alone and stores exactly when it
      says so, TryGet fails exactly on the empty queue, and else hands out and removes the oldest body. */
  lemma StepAnswers(r: Ring, op: Op)
    requires Valid(r)
    ensures r.head < |r.mem| && r.left <= |r.mem| && r.tail < |r.mem| && (r.count > 0 ==> CanTake(r))
    ensures var (r', out) := RingStep(r, op);
            && r'.tail < |r'.mem|
            && match op
               case TryPut(data, _) =>
                 && PutAnswers(|data|, |r.mem|, Used(Contents(r)), out)
                 && Contents(r') == Contents(r) + (if out == Stored then [data] else [])
               case TryGet =>
                 && (out == Failed(QueueFull) <==> Contents(r) == [])
                 && (out.Data? <==> Contents(r) != [])
                 && (out.Data? ==> Contents(r) == [out.body] + Contents(r'))
  {
    StepRefines(r, op);
    UsedFits(r);
    hide Walk, BodyLen, Valid, Put, Take, CanTake;
    assert Contents(r) + [] == Contents(r);
  }

  lemma UsedFits(r: Ring)
    requires Valid(r) && r.tail < |r.mem|
    ensures Used(Contents(r)) <= |r.mem|
  {
    var records :| RingInv(r, records);
    SpaceConservation(r, records);
    WalkVisitsQueue(r, records);
  }

  // ---------- runs ----------

  function FifoRun(capacity: nat, q: seq<seq<Byte>>, ops: seq<Op>): (seq<seq<Byte>>, seq<Outcome>)
    decreases ops
  {
    if ops == [] then (q, []) else
      var (q', out) := FifoStep(capacity, q, ops[0]);
      var rest := FifoRun(capacity, q', ops[1..]);
      (rest.0, [out] + rest.1)
  }

  ghost function RingRun(r: Ring, ops: seq<Op>): (Ring, seq<Outcome>)
    requires Valid(r)
    decreases ops
  {
    if ops == [] then (r, []) else
      StepRefines(r, ops[0]);
      var (r', out) := RingStep(r, ops[0]);
      var rest := RingRun(r', ops[1..]);
      (rest.0, [out] + rest.1)
  }

  /** FIFO refinement: over every run, the ring answers each call as the bounded FIFO does,
      and its bytes still decode to the FIFO's queue at the end. */
  lemma {:induction false} RunRefinesFifo(r: Ring, ops: seq<Op>)
    requires Valid(r)
    ensures r.tail < |r.mem|
    ensures var (r', outs) := RingRun(r, ops);
            && Valid(r') && |r'.mem| == |r.mem| && r'.tail < |r'.mem|
            && (Contents(r'), outs) == FifoRun(|r.mem|, Contents(r), ops)
    decreases ops
  {
    ValidIsSafe(r);
    if ops != [] {
      StepRefines(r, ops[0]);
      RunRefinesFifo(RingStep(r, ops[0]).0, ops[1..]);
    }
  }

  // ---------- what FIFO means ----------

  /** The body a call stores, if it does. */
  function Stores(op: Op, out: Outcome): seq<seq<Byte>> {
    if op.TryPut? && out.Stored? then [op.data] else []
  }

  /** The body a call hands out, if it does. */
  function Hands(out: Outcome): seq<seq<Byte>> {
    if out.Data? then [out.body] else []
  }

  function Accepted(ops: seq<Op>, outs: seq<Outcome>): seq<seq<Byte>>
    requires |ops| == |outs|
  {
    if ops == [] then [] else Stores(ops[0], outs[0]) + Accepted(ops[1..], outs[1..])
  }

  function Delivered(outs: seq<Outcome>): seq<seq<Byte>> {
    if outs == [] then [] else Hands(outs[0]) + Delivered(outs[1..])
  }

  lemma StepConserves(capacity: nat, q: seq<seq<Byte>>, op: Op)
    ensures var (q', out) := FifoStep(capacity, q, op);
            q + Stores(op, out) == Hands(out) + q'
  {
  }

  lemma {:induction false} FifoRunConserves(capacity: nat, q: seq<seq<Byte>>, ops: seq<Op>)
    ensures |FifoRun(capacity, q, ops).1| == |ops|
    ensures var (q', outs) := FifoRun(capacity, q, ops);
            q + Accepted(ops, outs) == Delivered(outs) + q'
    decreases ops
  {
    hide FifoStep, Stores, Hands;
    if ops == [] {
      assert q + [] == [] + q;
    } else {
      var (q1, out) := FifoStep(capacity, q, ops[0]);
      StepConserves(capacity, q, ops[0]);
      FifoRunConserves(capacity, q1, ops[1..]);
      var (q', outs) := FifoRun(capacity, q1, ops[1..]);
      assert ([out] + outs)[1..] == outs;
      ConservedTwice(q, Stores(ops[0], out), Hands(out), q1, Accepted(ops[1..], outs), Delivered(outs), q');
    }
  }

  ghost predicate Empty(r: Ring) {
    HEADER_SIZE < |r.mem| < TWO_TO_THE_64 && r.left == |r.mem| && r.count == r.head == r.tail == 0
  }

  /** From a fresh region, whatever the mix of accepted and refused calls: the bodies read are the
      bodies stored, in order, and those still queued are exactly the stored ones not yet read. */
  lemma ReadsReturnOldestWrites(r: Ring, ops: seq<Op>)
    requires Empty(r)
    ensures Valid(r)
    ensures var (r', outs) := RingRun(r, ops);
            && Valid(r') && r'.tail < |r'.mem| && |outs| == |ops|
            && Accepted(ops, outs) == Delivered(outs) + Contents(r')
  {
    assert RingInv(r, []);
    RunRefinesFifo(r, ops);
    FifoRunConserves(|r.mem|, [], ops);
    assert [] + Accepted(ops, RingRun(r, ops).1) == Accepted(ops, RingRun(r, ops).1);
  }
}
