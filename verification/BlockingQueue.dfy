/** The blocking calls Put and Get on the circular queue, one producer process and one consumer
    process sharing a mutex and a single condition variable, as a state machine over their steps.
    A call takes the lock, tests its guard and sleeps until it holds, works on the ring, releases
    the lock, and only then signals. Sleepers may also wake for no reason. */
module BlockingQueue {
  import opened Bytes
  import opened RingModel
  import opened Fifo

  // Where a process stands: between calls, owning the lock, waiting on the condition, woken but
  // without the lock yet, or past the unlock with its signal still to send.
  datatype Place = Idle | Holding | Asleep | Woken | Signalling

  datatype Who = Producer | Consumer

  datatype Step = Acquire(who: Who) | Section(who: Who) | Signal(who: Who) | Spurious(who: Who)

  datatype Job = Job(data: seq<Byte>, filler: Filler)

  /** `puts` are the producer's calls not yet finished, the current one first; `gets` counts the
      consumer's. `stored` and `delivered` record the bodies put and got so far, in lock order. */
  datatype State = State(ring: Ring, producer: Place, consumer: Place,
                         puts: seq<Job>, gets: nat,
                         stored: seq<seq<Byte>>, delivered: seq<seq<Byte>>)
  {
    function At(who: Who): Place {
      if who.Producer? then producer else consumer
    }

    function Move(who: Who, place: Place): State {
      if who.Producer? then this.(producer := place) else this.(consumer := place)
    }

    predicate HasWork(who: Who) {
      if who.Producer? then puts != [] else gets > 0
    }
  }

  function Other(who: Who): Who {
    if who.Producer? then Consumer else Producer
  }

  // ---------- steps ----------

  predicate Enabled(s: State, step: Step) {
    match step
    case Acquire(who) => (s.At(who).Woken? || (s.At(who).Idle? && s.HasWork(who))) && !s.At(Other(who)).Holding?
    case Section(who) => s.At(who).Holding?
    case Signal(who) => s.At(who).Signalling?
    case Spurious(who) => s.At(who).Asleep?
  }

  /** The producer under the lock, from the test of the guard to the wait or the unlock. */
  function ProducerSection(s: State): State
    requires s.puts != [] && s.ring.head < |s.ring.mem| && s.ring.left <= |s.ring.mem|
  {
    var job := s.puts[0];
    var (ring', out) := RingTryPut(s.ring, job.data, job.filler);
    if out == Failed(QueueFull) then s.(producer := Asleep)
    else if out.Stored? then
      s.(ring := ring', producer := Signalling, puts := s.puts[1..], stored := s.stored + [job.data])
    else s.(producer := Idle, puts := s.puts[1..])  // an exception: the guard unlocks, nothing is signalled
  }

  function ConsumerSection(s: State): State
    requires s.gets > 0 && (s.ring.count > 0 ==> CanTake(s.ring))
  {
    var (ring', out) := RingTryGet(s.ring);
    if out.Data? then
      s.(ring := ring', consumer := Signalling, gets := s.gets - 1, delivered := s.delivered + [out.body])
    else s.(consumer := Asleep)
  }

  ghost function Apply(s: State, step: Step): State
    requires Inv(s) && Enabled(s, step)
  {
    ValidIsSafe(s.ring);
    match step
    case Acquire(who) => s.Move(who, Holding)
    case Section(who) => if who.Producer? then ProducerSection(s) else ConsumerSection(s)
    case Signal(who) =>
      var s' := s.Move(who, Idle);
      if s.At(Other(who)).Asleep? then s'.Move(Other(who), Woken) else s'
    case Spurious(who) => s.Move(who, Woken)
  }

  // ---------- invariant ----------

  predicate GuardHolds(s: State, who: Who) {
    if who.Producer? then s.puts != [] && HEADER_SIZE + |s.puts[0].data| <= s.ring.left
    else s.ring.count > 0
  }

  /** If `who` sleeps although its guard holds, the other side has a signal still to send. */
  predicate NoLostWakeUp(s: State, who: Who) {
    s.At(who).Asleep? && GuardHolds(s, who) ==> s.At(Other(who)).Signalling?
  }

  predicate InACall(s: State, who: Who) {
    s.At(who).Holding? || s.At(who).Asleep? || s.At(who).Woken?
  }

  ghost predicate Inv(s: State) {
    && Fifo.Valid(s.ring)
    && !(s.producer.Holding? && s.consumer.Holding?)
    && (InACall(s, Producer) ==> s.HasWork(Producer))
    && (InACall(s, Consumer) ==> s.HasWork(Consumer))
    && (s.producer.Asleep? ==> HEADER_SIZE + |s.puts[0].data| <= |s.ring.mem|)
    && !(s.producer.Asleep? && s.consumer.Asleep?)
    && NoLostWakeUp(s, Producer) && NoLostWakeUp(s, Consumer)
    && s.ring.tail < |s.ring.mem|
    && s.stored == s.delivered + Contents(s.ring)
  }

  // What the ring's space accounting gives the monitor.
  lemma EmptyMeansAllFree(r: Ring)
    requires Fifo.Valid(r)
    ensures r.count == 0 <==> r.left == |r.mem|
  {
  }

  lemma ContentsCount(r: Ring)
    requires Fifo.Valid(r) && r.tail < |r.mem|
    ensures |Contents(r)| == r.count
  {
    var records :| RingInv(r, records);
    WalkVisitsQueue(r, records);
  }

  lemma ProducerSectionKeepsInv(s: State)
    requires Inv(s) && s.producer.Holding?
    ensures Inv(Apply(s, Section(Producer)))
  {
    hide Walk, Put, Used, Fifo.Valid;
    var s', job := Apply(s, Section(Producer)), s.puts[0];
    EmptyMeansAllFree(s.ring);
    StepRefines(s.ring, TryPut(job.data, job.filler));
  }

  lemma ConsumerSectionKeepsInv(s: State)
    requires Inv(s) && s.consumer.Holding?
    ensures Inv(Apply(s, Section(Consumer)))
  {
    hide Walk, Take, Used, Fifo.Valid;
    var s' := Apply(s, Section(Consumer));
    EmptyMeansAllFree(s.ring);
    StepRefines(s.ring, TryGet);
    ContentsCount(s.ring);
    if s.ring.count > 0 {
      assert s.stored == s.delivered + [Contents(s.ring)[0]] + Contents(s.ring)[1..];
    }
  }

  lemma StepKeepsInv(s: State, step: Step)
    requires Inv(s) && Enabled(s, step)
    ensures Inv(Apply(s, step))
  {
    hide Walk, Fifo.Valid, ProducerSection, ConsumerSection;
    match step
    case Section(who) =>
      if who.Producer? { ProducerSectionKeepsInv(s); } else { ConsumerSectionKeepsInv(s); }
    case _ =>
  }

  // ---------- runs ----------

  ghost predicate Possible(s: State, steps: seq<Step>)
    requires Inv(s)
    decreases steps
  {
    steps == [] ||
    (Enabled(s, steps[0]) && (StepKeepsInv(s, steps[0]); Possible(Apply(s, steps[0]), steps[1..])))
  }

  ghost function Run(s: State, steps: seq<Step>): State
    requires Inv(s) && Possible(s, steps)
    decreases steps
  {
    if steps == [] then s else
      StepKeepsInv(s, steps[0]);
      Run(Apply(s, steps[0]), steps[1..])
  }

  /** Every reachable state keeps the invariant: mutual exclusion, no lost wake-up, never both
      asleep, and what was stored is what was delivered followed by what the ring holds. */
  lemma {:induction false} RunKeepsInv(s: State, steps: seq<Step>)
    requires Inv(s) && Possible(s, steps)
    ensures Inv(Run(s, steps))
    decreases steps
  {
    hide Inv, Apply, Enabled;
    if steps != [] {
      StepKeepsInv(s, steps[0]);
      RunKeepsInv(Apply(s, steps[0]), steps[1..]);
    }
  }

  // ---------- progress ----------

  /** Nothing can happen any more, short of a wake-up without cause. */
  ghost predicate Stuck(s: State) {
    forall step | Enabled(s, step) :: step.Spurious?
  }

  /** No deadlock: when everything has stopped, either all calls are done, or the only unfinished
      call waits for the other side, which has no call left to make. */
  lemma StuckOnlyForWantOfCalls(s: State)
    requires Inv(s)
    ensures Stuck(s) <==>
              || (s.producer.Idle? && s.puts == [] && s.consumer.Idle? && s.gets == 0)
              || (s.producer.Idle? && s.puts == [] && s.consumer.Asleep? && s.ring.count == 0)
              || (s.consumer.Idle? && s.gets == 0 && s.producer.Asleep? && !GuardHolds(s, Producer))
  {
    if Stuck(s) {
      assert !Enabled(s, Section(Producer)) && !Enabled(s, Section(Consumer));
      assert !Enabled(s, Signal(Producer)) && !Enabled(s, Signal(Consumer));
      assert !Enabled(s, Acquire(Producer)) && !Enabled(s, Acquire(Consumer));
    }
  }

  function Rank(p: Place): nat {
    match p
    case Asleep => 0
    case Holding => 1
    case Woken => 2
    case Idle => 2
    case Signalling => 5
  }

  /** Work still ahead; every step but a spurious wake-up uses some of it up. */
  function Measure(s: State): nat {
    5 * (|s.puts| + s.gets) + Rank(s.producer) + Rank(s.consumer)
  }

  lemma StepsUseUpMeasure(s: State, step: Step)
    requires Inv(s) && Enabled(s, step)
    ensures Measure(Apply(s, step)) <= if step.Spurious? then Measure(s) + 2 else Measure(s) - 1
  {
    hide Walk, Put, Take, Fifo.Valid;
  }

  function SpuriousCount(steps: seq<Step>): nat {
    if steps == [] then 0 else (if steps[0].Spurious? then 1 else 0) + SpuriousCount(steps[1..])
  }

  /** No livelock: a run has at most as many steps as the initial measure, and three more for each
      spurious wake-up. */
  lemma {:induction false} RunsAreFinite(s: State, steps: seq<Step>)
    requires Inv(s) && Possible(s, steps)
    ensures |steps| + Measure(Run(s, steps)) <= Measure(s) + 3 * SpuriousCount(steps)
    decreases steps
  {
    hide Inv, Apply, Enabled, Measure;
    if steps != [] {
      StepKeepsInv(s, steps[0]);
      StepsUseUpMeasure(s, steps[0]);
      RunsAreFinite(Apply(s, steps[0]), steps[1..]);
    }
  }

  // ---------- delivery ----------

  /** The bodies a producer's calls will store: those the source does not refuse with an exception. */
  function Storable(puts: seq<Job>, total: nat): seq<seq<Byte>> {
    if puts == [] then []
    else (if 0 < |puts[0].data| && HEADER_SIZE + |puts[0].data| <= total then [puts[0].data] else [])
         + Storable(puts[1..], total)
  }

  lemma StepKeepsAccounts(s: State, step: Step)
    requires Inv(s) && Enabled(s, step)
    ensures var s' := Apply(s, step);
            && |s'.ring.mem| == |s.ring.mem|
            && s'.stored + Storable(s'.puts, |s.ring.mem|) == s.stored + Storable(s.puts, |s.ring.mem|)
            && |s'.delivered| + s'.gets == |s.delivered| + s.gets
  {
    hide Walk, Used, Fifo.Valid;
    ValidIsSafe(s.ring);
    if step == Section(Producer) {
      var data := s.puts[0].data;
      assert s.stored + ([data] + Storable(s.puts[1..], |s.ring.mem|)) == (s.stored + [data]) + Storable(s.puts[1..], |s.ring.mem|);
      assert [] + Storable(s.puts[1..], |s.ring.mem|) == Storable(s.puts[1..], |s.ring.mem|);
    }
  }

  lemma {:induction false} RunKeepsAccounts(s: State, steps: seq<Step>)
    requires Inv(s) && Possible(s, steps)
    ensures var s' := Run(s, steps);
            && |s'.ring.mem| == |s.ring.mem|
            && s'.stored + Storable(s'.puts, |s.ring.mem|) == s.stored + Storable(s.puts, |s.ring.mem|)
            && |s'.delivered| + s'.gets == |s.delivered| + s.gets
    decreases steps
  {
    hide Inv, Apply, Enabled, Storable;
    if steps != [] {
      StepKeepsInv(s, steps[0]);
      StepKeepsAccounts(s, steps[0]);
      RunKeepsAccounts(Apply(s, steps[0]), steps[1..]);
    }
  }

  ghost predicate Initial(s: State) {
    && Empty(s.ring) && s.producer.Idle? && s.consumer.Idle?
    && s.stored == s.delivered == []
  }

  lemma InitialIsInv(s: State)
    requires Initial(s)
    ensures Inv(s)
  {
    assert RingInv(s.ring, []);
  }

  /** When the consumer makes as many calls as there are storable bodies, every run that comes to a
      standstill, whatever the interleaving, has delivered all of them in the order they were put. */
  lemma AllDelivered(s: State, steps: seq<Step>)
    requires Initial(s) && s.gets == |Storable(s.puts, |s.ring.mem|)|
    requires Inv(s) && Possible(s, steps) && Stuck(Run(s, steps))
    ensures Run(s, steps).delivered == Storable(s.puts, |s.ring.mem|)
    ensures Run(s, steps).puts == [] && Run(s, steps).gets == 0
  {
    var s' := Run(s, steps);
    RunKeepsInv(s, steps);
    RunKeepsAccounts(s, steps);
    StuckOnlyForWantOfCalls(s');
    ContentsCount(s'.ring);
    assert s.stored + Storable(s.puts, |s.ring.mem|) == Storable(s.puts, |s.ring.mem|);
    assert |s'.stored| == |s'.delivered| + |Contents(s'.ring)|;
    EmptyMeansAllFree(s'.ring);
  }
}
