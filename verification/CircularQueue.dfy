/** The non-blocking calls on the circular queue: the guards around the ring. */
module CircularQueue {
  import opened Bytes
  import opened RingModel
  import opened Fifo
  import opened QueueOperation

  class CircularQueue {
    const elementOp: ElementOp

    ghost predicate Valid()
      reads this, elementOp, elementOp.elementBegin
    {
      elementOp.Valid()
    }

    ghost function Contents(): seq<seq<Byte>>
      reads this, elementOp, elementOp.elementBegin
      requires Valid()
    {
      elementOp.Contents()
    }

    ghost function Capacity(): nat
      reads elementOp
    {
      elementOp.qTotalSize as nat
    }

    constructor Attach(op: ElementOp)
      requires op.Valid()
      ensures elementOp == op
    {
      elementOp := op;
    }

    /** Answers, and changes the contents, exactly as the bounded FIFO does. The byte string is one
        that can exist in memory. */
    method TryPut(data: seq<Byte>, filler: Filler) returns (out: Outcome)
      requires Valid() && |data| < TWO_TO_THE_63
      modifies elementOp, elementOp.elementBegin
      ensures Valid() && Capacity() == old(Capacity())
      ensures (Contents(), out) == FifoStep(Capacity(), old(Contents()), Op.TryPut(data, filler))
      ensures (elementOp.Snapshot(), out) == RingTryPut(old(elementOp.Snapshot()), data, filler)
      ensures PutAnswers(|data|, Capacity(), Used(old(Contents())), out)
    {
      ghost var r := elementOp.Snapshot();
      ValidIsSafe(r);
      StepRefines(r, Op.TryPut(data, filler));
      StepAnswers(r, Op.TryPut(data, filler));
      var size := |data| as U64;
      var elementSize := size + HEADER;
      if elementSize > elementOp.qTotalSize {
        out := Failed(SizeTooSmall);
      } else if elementSize > elementOp.qLeftSize {
        out := Failed(QueueFull);
      } else {
        out := elementOp.Write(data, filler);
      }
    }

    /** Answers, and changes the contents, exactly as the FIFO does. An empty queue is reported
        with the exception the source names QueueFull. */
    method TryGet() returns (out: Outcome)
      requires Valid()
      modifies elementOp
      ensures Valid() && Capacity() == old(Capacity())
      ensures (Contents(), out) == FifoStep(Capacity(), old(Contents()), Op.TryGet)
      ensures old(elementOp.Snapshot()).count > 0 ==> CanTake(old(elementOp.Snapshot()))
      ensures (elementOp.Snapshot(), out) == RingTryGet(old(elementOp.Snapshot()))
      ensures old(Contents()) == [] <==> out == Failed(QueueFull)
      ensures old(Contents()) != [] <==> out.Data?
      ensures out.Data? ==> old(Contents()) == [out.body] + Contents()
    {
      ghost var r := elementOp.Snapshot();
      ValidIsSafe(r);
      StepRefines(r, Op.TryGet);
      if 0 == elementOp.elementCount {
        out := Failed(QueueFull);
      } else {
        out := elementOp.Read();
      }
    }
  }

  /** A fresh region, or the source's refusal of one too small to hold a header. */
  method Create(memSize: U64) returns (queue: CircularQueue?, out: Outcome)
    requires memSize as nat < TWO_TO_THE_63
    ensures memSize <= META_SIZE + HEADER <==> out == Failed(SizeTooSmall)
    ensures memSize <= META_SIZE + HEADER <==> queue == null
    ensures queue != null ==>
              && queue.Valid() && queue.Contents() == [] && queue.Capacity() == (memSize - META_SIZE) as nat
              && fresh(queue) && fresh(queue.elementOp) && fresh(queue.elementOp.elementBegin)
  {
    if memSize <= META_SIZE + HEADER {
      return null, Failed(SizeTooSmall);
    }
    var op := new ElementOp.Init(memSize);
    queue := new CircularQueue.Attach(op);
    out := Stored;
  }

  // ---------- the guard's arithmetic ----------

  /** The sum the guard compares, as an unsigned 64-bit machine computes it. */
  function WrappedElementSize(size: nat): nat {
    (size + HEADER_SIZE) % TWO_TO_THE_64
  }

  predicate GuardAccepts(size: nat, left: nat) {
    WrappedElementSize(size) <= left
  }

  /** The guard decides whether header and body fit, on exactly the sizes whose sum with the header
      does not wrap round to something that fits. */
  lemma GuardExact(size: nat, left: nat)
    requires size < TWO_TO_THE_64 && left < TWO_TO_THE_63
    ensures (GuardAccepts(size, left) <==> HEADER_SIZE + size <= left)
       <==> (size < TWO_TO_THE_64 - HEADER_SIZE || size - (TWO_TO_THE_64 - HEADER_SIZE) > left)
  {
    if size + HEADER_SIZE >= TWO_TO_THE_64 {
      assert WrappedElementSize(size) == size + HEADER_SIZE - TWO_TO_THE_64;
    } else {
      assert WrappedElementSize(size) == size + HEADER_SIZE;
    }
  }

  /** The largest size a caller can name passes the guard of any queue with 23 bytes left. */
  lemma GuardWraps()
    ensures GuardAccepts(TWO_TO_THE_64 - 1, 23) && !(HEADER_SIZE + (TWO_TO_THE_64 - 1) <= 23)
  {
  }
}
