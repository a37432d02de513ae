/** The queue with a set index, RawFastFindQueue: Put, TryGet, Get up to its wait, and Find, each as
    the work done under one hold of the lock; and how far the index can be trusted. */
module FastFindQueue {
  import opened Bytes

  datatype Error = QueueStopToPut | QueueStopToGet | QueueEmpty | QueueEmptyAndStopToPut | ElementNotFound

  datatype Outcome<T> = Done | Got(el: T) | MustWait | Failed(error: Error)

  /** The fields of the queue as a value. */
  datatype Store<T(==)> = Store(queue: seq<T>, index: set<T>, waitCount: int, stopToPut: bool, stopToGet: bool)

  datatype Op<T> = Put(el: T) | TryGet | Get | StopPut | StopPutAndGet

  // ---------- what each operation does to the fields ----------

  function PutStep<T>(s: Store<T>, el: T): (Store<T>, Outcome<T>) {
    if s.stopToPut then (s, Failed(QueueStopToPut))
    else (s.(queue := s.queue + [el], index := s.index + {el},
             waitCount := if s.waitCount != 0 then s.waitCount - 1 else 0), Done)
  }

  /** The front element leaves the queue before the index is consulted: when the index does not
      know it, the exception loses it. */
  function TakeStep<T>(s: Store<T>): (Store<T>, Outcome<T>)
    requires s.queue != []
  {
    var el := s.queue[0];
    (s.(queue := s.queue[1..], index := s.index - {el}),
     if el in s.index then Got(el) else Failed(ElementNotFound))
  }

  function TryGetStep<T>(s: Store<T>): (Store<T>, Outcome<T>) {
    if s.stopToGet then (s, Failed(QueueStopToGet))
    else if s.queue == [] then (s, Failed(QueueEmpty))
    else TakeStep(s)
  }

  /** Get from the moment it owns the lock to its wait or its return. */
  function GetStep<T>(s: Store<T>): (Store<T>, Outcome<T>) {
    if s.queue == [] && !s.stopToPut then (s.(waitCount := s.waitCount + 1), MustWait)
    else if s.stopToGet then (s, Failed(QueueStopToGet))
    else if s.queue == [] then (s, Failed(QueueEmptyAndStopToPut))
    else TakeStep(s)
  }

  function Step<T>(s: Store<T>, op: Op<T>): (Store<T>, Outcome<T>) {
    match op
    case Put(el) => PutStep(s, el)
    case TryGet => TryGetStep(s)
    case Get => GetStep(s)
    case StopPut => (s.(stopToPut := true), Done)
    case StopPutAndGet => (s.(stopToGet := true, stopToPut := true), Done)
  }

  // ---------- the class ----------

  class RawFastFindQueue<T(==)> {
    var queue: seq<T>
    var index: set<T>
    var waitCount: int
    var stopToPut: bool
    var stopToGet: bool

    ghost function Fields(): Store<T>
      reads this
    {
      Store(queue, index, waitCount, stopToPut, stopToGet)
    }

    constructor ()
      ensures Fields() == Store([], {}, 0, false, false)
    {
      queue, index, waitCount, stopToPut, stopToGet := [], {}, 0, false, false;
    }

    method SetErase(el: T) returns (found: bool)
      modifies this`index
      ensures index == old(index) - {el} && found == (el in old(index))
    {
      found := el in index;
      if found {
        index := index - {el};
      }
    }

    method SetInsert(el: T)
      modifies this`index
      ensures index == old(index) + {el}
    {
      index := index + {el};
    }

    method Put(el: T) returns (out: Outcome<T>, signalled: bool)
      modifies this
      ensures (Fields(), out) == PutStep(old(Fields()), el)
      ensures out == (if old(stopToPut) then Failed(QueueStopToPut) else Done)
      ensures queue == old(queue) + (if old(stopToPut) then [] else [el])
      ensures signalled == (out == Done && old(waitCount) != 0)
    {
      signalled := false;
      if stopToPut {
        return Failed(QueueStopToPut), false;
      }
      queue := queue + [el];
      SetInsert(el);
      if waitCount != 0 {
        waitCount := waitCount - 1;
        signalled := true;
      }
      out := Done;
    }

    method PopFront() returns (out: Outcome<T>)
      requires queue != []
      modifies this
      ensures (Fields(), out) == TakeStep(old(Fields()))
    {
      var temp := queue[0];
      queue := queue[1..];
      var found := SetErase(temp);
      out := if found then Got(temp) else Failed(ElementNotFound);
    }

    method TryGet() returns (out: Outcome<T>)
      modifies this
      ensures (Fields(), out) == TryGetStep(old(Fields()))
      ensures Answers(old(Fields()), Op<T>.TryGet, out) && old(queue) == Removes(old(Fields()), Op<T>.TryGet) + queue
    {
      if stopToGet {
        return Failed(QueueStopToGet);
      }
      if queue == [] {
        return Failed(QueueEmpty);
      }
      out := PopFront();
    }

    method Get() returns (out: Outcome<T>)
      modifies this
      ensures (Fields(), out) == GetStep(old(Fields()))
      ensures Answers(old(Fields()), Op<T>.Get, out) && old(queue) == Removes(old(Fields()), Op<T>.Get) + queue
    {
      if queue == [] && !stopToPut {
        waitCount := waitCount + 1;
        return MustWait;
      }
      if stopToGet {
        return Failed(QueueStopToGet);
      }
      if queue == [] && stopToPut {
        return Failed(QueueEmptyAndStopToPut);
      }
      out := PopFront();
    }

    /** As long as no element has been put that the index already held, this is a linear search. */
    method Find(el: T) returns (count: nat)
      ensures count == if el in index then 1 else 0
      ensures Debt(Fields()) == 0 && Indexed(Fields()) ==> (count == 1 <==> el in queue)
    {
      if Indexed(Fields()) {
        IndexIsQueue(Fields());
      }
      count := if el in index then 1 else 0;
    }
  }

  // ---------- how far the index can be trusted ----------

  function Elements<T(==)>(q: seq<T>): set<T> {
    set el | el in q
  }

  /** Every indexed element is queued. */
  predicate Indexed<T>(s: Store<T>) {
    s.index <= Elements(s.queue)
  }

  /** How many queued elements the index cannot account for. */
  function Debt<T>(s: Store<T>): int {
    |s.queue| - |s.index|
  }

  lemma {:induction false} ElementsAtMost<T>(q: seq<T>)
    ensures |Elements(q)| <= |q|
    ensures |Elements(q)| == |q| ==> Distinct(q)
  {
    if q != [] {
      ElementsAtMost(q[1..]);
      assert Elements(q) == Elements(q[1..]) + {q[0]};
    }
  }

  ghost predicate Distinct<T>(q: seq<T>) {
    forall i, j | 0 <= i < j < |q| :: q[i] != q[j]
  }

  lemma {:induction false} DistinctCount<T>(q: seq<T>)
    requires Distinct(q)
    ensures |Elements(q)| == |q|
  {
    if q != [] {
      DistinctCount(q[1..]);
      assert Elements(q) == Elements(q[1..]) + {q[0]};
    }
  }

  lemma SubsetSize<T>(a: set<T>, b: set<T>)
    requires a <= b
    ensures |a| <= |b| && (|a| == |b| ==> a == b)
  {
    assert b == a + (b - a);
  }

  /** No debt means exactly: the queued elements are distinct and the index is the set of them. */
  lemma IndexIsQueue<T>(s: Store<T>)
    requires Indexed(s)
    ensures 0 <= Debt(s)
    ensures Debt(s) == 0 <==> Distinct(s.queue) && s.index == Elements(s.queue)
  {
    ElementsAtMost(s.queue);
    SubsetSize(s.index, Elements(s.queue));
    if Distinct(s.queue) {
      DistinctCount(s.queue);
    }
  }

  /** A Put of an element that Find already reports: the guard a caller can test. */
  predicate Repeats<T>(s: Store<T>, op: Op<T>) {
    op.Put? && !s.stopToPut && op.el in s.index
  }

  lemma StepBalance<T>(s: Store<T>, op: Op<T>)
    requires Indexed(s)
    ensures var (s', out) := Step(s, op);
            && Indexed(s')
            && Debt(s') + (if out == Failed(ElementNotFound) then 1 else 0) == Debt(s) + (if Repeats(s, op) then 1 else 0)
  {
    if s.queue != [] {
      assert Elements(s.queue) == Elements(s.queue[1..]) + {s.queue[0]};
    }
  }

  function Run<T>(s: Store<T>, ops: seq<Op<T>>): (Store<T>, seq<Outcome<T>>)
    decreases |ops|
  {
    if ops == [] then (s, []) else
      var (s1, out) := Step(s, ops[0]);
      var (s', outs) := Run(s1, ops[1..]);
      (s', [out] + outs)
  }

  // ---------- first in, first out ----------

  /** What a call brings to the queue: the element of a Put that meets no stop flag. */
  function Brings<T>(s: Store<T>, op: Op<T>): seq<T> {
    if op.Put? && !s.stopToPut then [op.el] else []
  }

  /** What a call takes off the queue, to return it or to lose it: the front element, for a Get or TryGet
      that meets no stop flag and a queue that is not empty. */
  function Removes<T>(s: Store<T>, op: Op<T>): seq<T> {
    if (op.Get? || op.TryGet?) && !s.stopToGet && s.queue != [] then [s.queue[0]] else []
  }

  /** The answer to a call, from the flags, the emptiness and the index. */
  predicate Answers<T>(s: Store<T>, op: Op<T>, out: Outcome<T>) {
    match op
    case Put(_) => out == if s.stopToPut then Failed(QueueStopToPut) else Done
    case StopPut => out == Done
    case StopPutAndGet => out == Done
    case _ =>
      && (out.MustWait? <==> op.Get? && s.queue == [] && !s.stopToPut)
      && (out == Failed(QueueStopToGet) <==> s.stopToGet && !out.MustWait?)
      && (out == Failed(QueueEmpty) <==> op.TryGet? && s.queue == [] && !s.stopToGet)
      && (out == Failed(QueueEmptyAndStopToPut) <==> op.Get? && s.queue == [] && s.stopToPut && !s.stopToGet)
      && (out == Failed(ElementNotFound) <==> Removes(s, op) != [] && Removes(s, op)[0] !in s.index)
      && (out.Got? <==> Removes(s, op) != [] && Removes(s, op)[0] in s.index)
      && (out.Got? ==> Removes(s, op) == [out.el])
  }

  /** Each call removes at the front and adds at the back, in queue and index alike, and answers by what
      it found; the flags are the stop calls' and the wait count the waits' and the Puts'. */
  lemma StepIsFifo<T>(s: Store<T>, op: Op<T>)
    ensures var (s', out) := Step(s, op);
            && s.queue + Brings(s, op) == Removes(s, op) + s'.queue
            && s'.index == s.index + Elements(Brings(s, op)) - Elements(Removes(s, op))
            && Answers(s, op, out)
            && s'.stopToPut == (s.stopToPut || op.StopPut? || op.StopPutAndGet?)
            && s'.stopToGet == (s.stopToGet || op.StopPutAndGet?)
            && s'.waitCount == s.waitCount + (if out.MustWait? then 1 else 0)
                                           - (if Brings(s, op) != [] && s.waitCount != 0 then 1 else 0)
  {
    if s.queue != [] {
      assert s.queue == [s.queue[0]] + s.queue[1..];
    }
  }

  function Brought<T>(s: Store<T>, ops: seq<Op<T>>): seq<T>
    decreases |ops|
  {
    if ops == [] then [] else Brings(s, ops[0]) + Brought(Step(s, ops[0]).0, ops[1..])
  }

  function Removed<T>(s: Store<T>, ops: seq<Op<T>>): seq<T>
    decreases |ops|
  {
    if ops == [] then [] else Removes(s, ops[0]) + Removed(Step(s, ops[0]).0, ops[1..])
  }

  /** Over every run: the old queue followed by the accepted elements is what left, returned or lost,
      followed by the new queue. */
  lemma {:induction false} RunIsFifo<T>(s: Store<T>, ops: seq<Op<T>>)
    ensures s.queue + Brought(s, ops) == Removed(s, ops) + Run(s, ops).0.queue
    decreases |ops|
  {
    if ops == [] {
      assert s.queue + [] == [] + s.queue;
    } else {
      var s1 := Step(s, ops[0]).0;
      StepIsFifo(s, ops[0]);
      hide Step, Brings, Removes, Answers;
      RunIsFifo(s1, ops[1..]);
      ConservedTwice(s.queue, Brings(s, ops[0]), Removes(s, ops[0]), s1.queue,
              Brought(s1, ops[1..]), Removed(s1, ops[1..]), Run(s, ops).0.queue);
    }
  }

  /** What the calls of a run returned. */
  function Returned<T>(outs: seq<Outcome<T>>): seq<T> {
    if outs == [] then [] else (if outs[0].Got? then [outs[0].el] else []) + Returned(outs[1..])
  }

  /** In a run that puts no element the index holds, what is returned is what was put, in order. */
  lemma {:induction false} RunReturnsFifo<T>(s: Store<T>, ops: seq<Op<T>>)
    requires Indexed(s) && Debt(s) == 0 && Repetitions(s, ops) == 0
    ensures Returned(Run(s, ops).1) == Removed(s, ops)
    ensures s.queue + Brought(s, ops) == Returned(Run(s, ops).1) + Run(s, ops).0.queue
    decreases |ops|
  {
    RunIsFifo(s, ops);
    if ops != [] {
      var (s1, out) := Step(s, ops[0]);
      StepIsFifo(s, ops[0]);
      StepBalance(s, ops[0]);
      IndexIsQueue(s);
      IndexIsQueue(s1);
      assert (if out.Got? then [out.el] else []) == Removes(s, ops[0]);
      hide Step, Removes, Brings, Answers;
      RunReturnsFifo(s1, ops[1..]);
      var outs := Run(s1, ops[1..]).1;
      assert ([out] + outs)[1..] == outs;
    }
  }

  // ---------- what repetition costs ----------

  /** Calls that put an element the index held at that time. */
  function Repetitions<T>(s: Store<T>, ops: seq<Op<T>>): nat
    decreases |ops|
  {
    if ops == [] then 0
    else (if Repeats(s, ops[0]) then 1 else 0) + Repetitions(Step(s, ops[0]).0, ops[1..])
  }

  /** Elements taken from the queue and lost to the exception. */
  function Lost<T(==)>(outs: seq<Outcome<T>>): nat {
    if outs == [] then 0 else (if outs[0] == Failed(ElementNotFound) then 1 else 0) + Lost(outs[1..])
  }

  lemma {:induction false} RunBalance<T>(s: Store<T>, ops: seq<Op<T>>)
    requires Indexed(s)
    ensures var (s', outs) := Run(s, ops);
            Indexed(s') && Debt(s') + Lost(outs) == Debt(s) + Repetitions(s, ops)
    decreases |ops|
  {
    hide Step, Indexed, Debt, Repeats;
    if ops != [] {
      StepBalance(s, ops[0]);
      RunBalance(Step(s, ops[0]).0, ops[1..]);
      var (s', outs) := Run(Step(s, ops[0]).0, ops[1..]);
      assert ([Step(s, ops[0]).1] + outs)[1..] == outs;
    }
  }

  /** From an empty queue: the index is the set of queued elements, these are distinct, and no
      element was lost, exactly when no call put an element that Find would have reported. */
  lemma IndexAgreement<T>(ops: seq<Op<T>>)
    ensures var s: Store<T> := Store([], {}, 0, false, false);
            var (s', outs) := Run(s, ops);
            Repetitions(s, ops) == 0 <==>
              Lost(outs) == 0 && Distinct(s'.queue) && s'.index == Elements(s'.queue)
  {
    var s: Store<T> := Store([], {}, 0, false, false);
    RunBalance(s, ops);
    IndexIsQueue(Run(s, ops).0);
  }

  /** And once the queue has been drained, one element has been lost for every such call. */
  lemma OneLossPerRepetition<T>(ops: seq<Op<T>>)
    ensures var s: Store<T> := Store([], {}, 0, false, false);
            var (s', outs) := Run(s, ops);
            s'.queue == [] ==> Lost(outs) == Repetitions(s, ops)
  {
    var s: Store<T> := Store([], {}, 0, false, false);
    RunBalance(s, ops);
    var s' := Run(s, ops).0;
    assert s'.queue == [] ==> Elements(s'.queue) == {};
  }

  lemma RunCons<T>(s: Store<T>, op: Op<T>, ops: seq<Op<T>>)
    ensures var (s', outs) := Run(Step(s, op).0, ops);
            Run(s, [op] + ops) == (s', [Step(s, op).1] + outs)
  {
  }

  /** Two puts of one element, then two gets: the second get throws and its element is gone. */
  lemma RepetitionLosesElement()
    ensures var s: Store<int> := Store([], {}, 0, false, false);
            Run(s, [Put(7), Put(7), TryGet, TryGet]) == (s, [Done, Done, Got(7), Failed(ElementNotFound)])
  {
    var s: Store<int> := Store([], {}, 0, false, false);
    var s1: Store<int> := Store([7], {7}, 0, false, false);
    var s2: Store<int> := Store([7, 7], {7}, 0, false, false);
    var s3: Store<int> := Store([7], {}, 0, false, false);
    var none: set<int> := {};
    assert none + {7} == {7} + {7} == {7} && {7} - {7} == none - {7} == none;
    var empty: seq<int> := [];
    assert empty + [7] == [7] && [7] + [7] == [7, 7] && [7, 7][1..] == [7] && [7][1..] == empty;
    RunCons(s3, TryGet, []);
    RunCons(s2, TryGet, [TryGet] + []);
    RunCons(s1, Put(7), [TryGet] + ([TryGet] + []));
    RunCons(s, Put(7), [Put(7)] + ([TryGet] + ([TryGet] + [])));
    assert Step(s, Put(7)) == (s1, Done) && Step(s1, Put(7)) == (s2, Done);
    assert [Put(7)] + ([Put(7)] + ([TryGet] + ([TryGet] + []))) == [Put(7), Put(7), TryGet, TryGet];
    var lost: Outcome<int> := Failed(ElementNotFound);
    assert [Done] + ([Done] + ([Got(7)] + ([lost] + []))) == [Done, Done, Got(7), lost];
    assert Step(s2, TryGet) == (s3, Got(7)) && Step(s3, TryGet) == (s, Failed(ElementNotFound));
  }
}
