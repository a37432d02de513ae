/** The unbounded queue shared by any number of threads: Get, TryGet, Put, StopPut and
    StopPutAndGet as a state machine at the grain of single accesses to the shared fields.
    The two stop flags are written without the lock, so they may change between any two steps
    of a thread that holds it. Sleepers may wake for no reason; a signal wakes at least one
    sleeper when there is one. */
module RawQueue {
  type Tid = nat

  datatype Option<T> = None | Some(value: T)

  // What a thread does next. Those marked * own the lock.
  datatype Place<T> =
    | Idle
    | GetLock               // wants the lock, from outside
    | GetTest               // * tests the loop's condition
    | GetWait               // * found it true: counts itself as waiting and sleeps
    | GetAsleep
    | GetWoken              // wants the lock back, to test again
    | GetStopped            // * left the loop: tests stopToGet
    | GetTake               // * tests for empty-and-stopped, else takes the front element
    | TryLock
    | TryStopped            // *
    | TryTake               // *
    | PutLock(el: T)
    | PutStopped(el: T)     // * tests stopToPut
    | PutPush(el: T)        // * pushes, and signals if the wait count is not zero
    | StopGetFlag           // sets stopToGet
    | StopPutFlag           // sets stopToPut
    | StopBroadcast

  predicate OwnsLock<T>(p: Place<T>) {
    p.GetTest? || p.GetWait? || p.GetStopped? || p.GetTake? || p.TryStopped? || p.TryTake? || p.PutStopped? || p.PutPush?
  }

  /** The shared fields. `puts` and `gots` record the elements put and taken, in lock order;
      `ended` records that some Get has thrown QueueEmptyAndStopToPutException. */
  datatype Fields<T> = Fields(lock: Option<Tid>, queue: seq<T>, waitCount: int, stopToPut: bool, stopToGet: bool,
                              puts: seq<T>, gots: seq<T>, ended: bool)

  type Places<T> = map<Tid, Place<T>>

  datatype State<T> = State(at: Places<T>, f: Fields<T>)

  function Sleepers<T>(at: Places<T>): set<Tid> {
    set t | t in at && at[t].GetAsleep?
  }

  /** Inside Get and sure to test the queue before sleeping again: woken, or owning the lock. */
  predicate IsAwake<T>(p: Place<T>) {
    p.GetWoken? || p.GetTest? || p.GetStopped? || p.GetTake?
  }

  function Awake<T>(at: Places<T>): set<Tid> {
    set t | t in at && IsAwake(at[t])
  }

  // ---------- steps ----------

  // `Next` is a thread's next access; `woken` are the sleepers its signal wakes, if it sends one.
  datatype Step<T> = Start(t: Tid, call: Place<T>) | Next(t: Tid, woken: set<Tid>) | Spurious(t: Tid)

  predicate IsCall<T>(p: Place<T>) {
    p.GetLock? || p.TryLock? || p.PutLock? || p.StopGetFlag? || p.StopPutFlag?
  }

  /** Pushing signals when the wait count says somebody may sleep; stopping broadcasts. */
  predicate Signals<T>(f: Fields<T>, p: Place<T>) {
    p.PutPush? && f.waitCount != 0
  }

  predicate Enabled<T>(s: State<T>, step: Step<T>) {
    && step.t in s.at
    && var p := s.at[step.t];
       match step
       case Start(_, call) => p.Idle? && IsCall(call)
       case Spurious(_) => p.GetAsleep?
       case Next(_, woken) =>
         && !p.Idle? && !p.GetAsleep?
         && (p.GetLock? || p.GetWoken? || p.TryLock? || p.PutLock? ==> s.f.lock == None)
         && (if Signals(s.f, p) then woken <= Sleepers(s.at) && (woken == {} ==> Sleepers(s.at) == {})
             else if p.StopBroadcast? then woken == Sleepers(s.at)
             else woken == {})
  }

  /** Thread `t` at place `p` makes its next access: the fields afterwards and where it stands then. */
  function Access<T>(f: Fields<T>, t: Tid, p: Place<T>): (Fields<T>, Place<T>)
    requires ThreadOk(f, t, p) && !p.Idle? && !p.GetAsleep?
  {
    var free := f.(lock := None);
    var mine := f.(lock := Some(t));
    match p
    case GetLock => (mine, GetTest)
    case GetWoken => (mine, GetTest)
    case GetTest => (f, if f.queue == [] && !f.stopToPut then GetWait else GetStopped)
    case GetWait => (free.(waitCount := f.waitCount + 1), GetAsleep)
    case GetStopped => if f.stopToGet then (free, Idle) else (f, GetTake)
    case GetTake =>
      if f.queue == [] && f.stopToPut then (free.(ended := true), Idle)
      else (free.(queue := f.queue[1..], gots := f.gots + [f.queue[0]]), Idle)
    case TryLock => (mine, TryStopped)
    case TryStopped => if f.stopToGet then (free, Idle) else (f, TryTake)
    case TryTake =>
      if f.queue == [] then (free, Idle)
      else (free.(queue := f.queue[1..], gots := f.gots + [f.queue[0]]), Idle)
    case PutLock(el) => (mine, PutStopped(el))
    case PutStopped(el) => if f.stopToPut then (free, Idle) else (f, PutPush(el))
    case PutPush(el) =>
      (free.(queue := f.queue + [el], puts := f.puts + [el],
             waitCount := if f.waitCount != 0 then f.waitCount - 1 else 0), Idle)
    case StopGetFlag => (f.(stopToGet := true), StopPutFlag)
    case StopPutFlag => (f.(stopToPut := true), StopBroadcast)
    case StopBroadcast => (f, Idle)
  }

  /** Thread `t` moves to `p`, and the threads in `woken` wake up. */
  function Turn<T>(at: Places<T>, woken: set<Tid>, t: Tid, p: Place<T>): Places<T> {
    map u | u in at :: if u == t then p else if u in woken then GetWoken else at[u]
  }

  ghost function Apply<T(!new)>(s: State<T>, step: Step<T>): State<T>
    requires Inv(s) && Enabled(s, step)
  {
    match step
    case Start(t, call) => State(Turn(s.at, {}, t, call), s.f)
    case Spurious(t) => State(Turn(s.at, {}, t, GetWoken), s.f)
    case Next(t, woken) =>
      var (f', p') := Access(s.f, t, s.at[t]);
      State(Turn(s.at, woken, t, p'), f')
  }

  // ---------- invariants ----------

  /** What holds of each thread: it owns the lock exactly where the code says so, it never pops an
      empty queue, and after the end nobody is about to push. */
  predicate ThreadOk<T>(f: Fields<T>, t: Tid, p: Place<T>) {
    && (OwnsLock(p) <==> f.lock == Some(t))
    && (p.GetStopped? || p.GetTake? ==> f.queue != [] || f.stopToPut)
    && (p.GetWait? ==> f.queue == [])
    && (f.ended ==> !p.PutPush?)
    && (p.StopBroadcast? ==> f.stopToPut)
  }

  /** No element is lost, invented or reordered; and the end is the end. */
  predicate FieldsOk<T(==)>(f: Fields<T>) {
    && f.puts == f.gots + f.queue
    && (f.ended ==> f.stopToPut && f.queue == [])
  }

  /** Sleepers are never more than the wait count; and while somebody sleeps, there are at least as
      many threads awake inside Get as there are elements in the queue. */
  predicate WakeOk<T>(f: Fields<T>, sleepers: nat, awake: nat) {
    && sleepers <= f.waitCount
    && (!f.stopToGet && sleepers > 0 ==> |f.queue| <= awake)
  }

  ghost predicate Inv<T(!new)>(s: State<T>) {
    && (forall t | t in s.at :: ThreadOk(s.f, t, s.at[t]))
    && (s.f.lock.Some? ==> s.f.lock.value in s.at)
    && FieldsOk(s.f)
    && WakeOk(s.f, |Sleepers(s.at)|, |Awake(s.at)|)
  }

  // ---------- every step keeps them ----------

  lemma AccessKeepsOwn<T(!new)>(f: Fields<T>, t: Tid, p: Place<T>)
    requires ThreadOk(f, t, p) && FieldsOk(f) && !p.Idle? && !p.GetAsleep?
    requires p.GetLock? || p.GetWoken? || p.TryLock? || p.PutLock? ==> f.lock == None
    ensures var (f', p') := Access(f, t, p); ThreadOk(f', t, p') && FieldsOk(f')
  {
    if f.queue != [] {
      assert f.queue == [f.queue[0]] + f.queue[1..];
    }
  }

  lemma AccessKeepsOther<T(!new)>(f: Fields<T>, t: Tid, p: Place<T>, u: Tid, q: Place<T>)
    requires ThreadOk(f, t, p) && FieldsOk(f) && !p.Idle? && !p.GetAsleep?
    requires p.GetLock? || p.GetWoken? || p.TryLock? || p.PutLock? ==> f.lock == None
    requires u != t && ThreadOk(f, u, q)
    ensures ThreadOk(Access(f, t, p).0, u, q)
  {
  }

  lemma TurnSets<T>(at: Places<T>, woken: set<Tid>, t: Tid, p: Place<T>)
    requires t in at && woken <= Sleepers(at) && t !in woken
    ensures Sleepers(Turn(at, woken, t, p)) == Sleepers(at) + {} - woken - {t} + (if p.GetAsleep? then {t} else {})
    ensures Awake(Turn(at, woken, t, p)) == Awake(at) + woken - {} - {t} + (if IsAwake(p) then {t} else {})
    ensures (t in Sleepers(at) <==> at[t].GetAsleep?) && (t in Awake(at) <==> IsAwake(at[t]))
    ensures Awake(at) !! woken
  {
  }

  function One(b: bool): nat {
    if b then 1 else 0
  }

  lemma AccessKeepsWake<T>(f: Fields<T>, t: Tid, p: Place<T>, sleepers: nat, awake: nat, woken: nat)
    requires ThreadOk(f, t, p) && !p.Idle? && !p.GetAsleep?
    requires WakeOk(f, sleepers, awake) && woken <= sleepers && One(IsAwake(p)) <= awake
    requires if Signals(f, p) then woken == 0 ==> sleepers == 0
             else if p.StopBroadcast? then woken == sleepers
             else woken == 0
    ensures var (f', p') := Access(f, t, p);
            WakeOk(f', sleepers - woken + One(p'.GetAsleep?), awake + woken - One(IsAwake(p)) + One(IsAwake(p')))
  {
  }

  // How many there are when `t` moves and `ins` join or `outs` leave.
  lemma Recount(s: set<Tid>, ins: set<Tid>, outs: set<Tid>, t: Tid, add: bool)
    requires s !! ins && outs <= s && t !in ins && t !in outs
    ensures |s + ins - outs - {t} + (if add then {t} else {})|
         == |s| + |ins| - |outs| - One(t in s) + One(add)
  {
    assert |s + ins| == |s| + |ins|;
    assert |s + ins - outs| == |s + ins| - |outs|;
    var rest := s + ins - outs - {t};
    if t in s {
      assert s + ins - outs == rest + {t};
    } else {
      assert s + ins - outs == rest;
    }
  }

  lemma TurnCounts<T>(at: Places<T>, woken: set<Tid>, t: Tid, p: Place<T>)
    requires t in at && woken <= Sleepers(at) && t !in woken
    ensures |Sleepers(Turn(at, woken, t, p))| == |Sleepers(at)| - |woken| - One(at[t].GetAsleep?) + One(p.GetAsleep?)
    ensures |Awake(Turn(at, woken, t, p))| == |Awake(at)| + |woken| - One(IsAwake(at[t])) + One(IsAwake(p))
  {
    hide Sleepers, Awake, Turn, IsAwake;
    TurnSets(at, woken, t, p);
    Recount(Sleepers(at), {}, woken, t, p.GetAsleep?);
    Recount(Awake(at), woken, {}, t, IsAwake(p));
  }

  lemma CountsBound<T>(at: Places<T>, woken: set<Tid>, t: Tid)
    requires t in at && woken <= Sleepers(at)
    ensures |woken| <= |Sleepers(at)|
    ensures One(IsAwake(at[t])) <= |Awake(at)|
  {
    assert |Sleepers(at) - woken| == |Sleepers(at)| - |woken|;
    if IsAwake(at[t]) {
      assert |Awake(at) - {t}| == |Awake(at)| - 1;
    }
  }

  lemma WakeKept<T(!new)>(s: State<T>, t: Tid, woken: set<Tid>)
    requires Inv(s) && Enabled(s, Next(t, woken))
    ensures var s' := Apply(s, Next(t, woken)); WakeOk(s'.f, |Sleepers(s'.at)|, |Awake(s'.at)|)
  {
    hide Access, WakeOk;
    var p := s.at[t];
    TurnCounts(s.at, woken, t, Access(s.f, t, p).1);
    CountsBound(s.at, woken, t);
    assert woken == {} ==> |woken| == 0;
    AccessKeepsWake(s.f, t, p, |Sleepers(s.at)|, |Awake(s.at)|, |woken|);
  }

  lemma WakeKeptByOthers<T(!new)>(s: State<T>, step: Step<T>)
    requires Inv(s) && Enabled(s, step) && !step.Next?
    ensures var s' := Apply(s, step); WakeOk(s'.f, |Sleepers(s'.at)|, |Awake(s'.at)|)
  {
    TurnCounts(s.at, {}, step.t, if step.Start? then step.call else GetWoken);
  }

  lemma ThreadKept<T(!new)>(s: State<T>, step: Step<T>, u: Tid)
    requires Inv(s) && Enabled(s, step) && u in s.at
    ensures var s' := Apply(s, step); ThreadOk(s'.f, u, s'.at[u])
  {
    assert ThreadOk(s.f, step.t, s.at[step.t]) && ThreadOk(s.f, u, s.at[u]);
    if step.Next? {
      AccessKeepsOwn(s.f, step.t, s.at[step.t]);
      hide Access;
      if u != step.t {
        AccessKeepsOther(s.f, step.t, s.at[step.t], u, s.at[u]);
      }
    }
  }

  lemma FieldsKept<T(!new)>(s: State<T>, step: Step<T>)
    requires Inv(s) && Enabled(s, step)
    ensures var s' := Apply(s, step); FieldsOk(s'.f) && (s'.f.lock.Some? ==> s'.f.lock.value in s'.at)
  {
    assert ThreadOk(s.f, step.t, s.at[step.t]);
    if step.Next? {
      AccessKeepsOwn(s.f, step.t, s.at[step.t]);
    }
  }

  lemma StepKeepsInv<T(!new)>(s: State<T>, step: Step<T>)
    requires Inv(s) && Enabled(s, step)
    ensures Inv(Apply(s, step))
  {
    if step.Next? { WakeKept(s, step.t, step.woken); } else { WakeKeptByOthers(s, step); }
    FieldsKept(s, step);
    forall u | u in s.at
      ensures ThreadOk(Apply(s, step).f, u, Apply(s, step).at[u])
    {
      ThreadKept(s, step, u);
    }
    assert Apply(s, step).at.Keys == s.at.Keys;
    hide WakeOk, FieldsOk, ThreadOk, Apply, Enabled;
  }

  // ---------- runs ----------

  ghost predicate Possible<T(!new)>(s: State<T>, steps: seq<Step<T>>)
    requires Inv(s)
    decreases |steps|
  {
    steps == [] ||
    (Enabled(s, steps[0]) && (StepKeepsInv(s, steps[0]); Possible(Apply(s, steps[0]), steps[1..])))
  }

  ghost function Run<T(!new)>(s: State<T>, steps: seq<Step<T>>): State<T>
    requires Inv(s) && Possible(s, steps)
    decreases |steps|
  {
    if steps == [] then s else
      StepKeepsInv(s, steps[0]);
      Run(Apply(s, steps[0]), steps[1..])
  }

  ghost predicate Initial<T(!new)>(s: State<T>) {
    s.f == Fields(None, [], 0, false, false, [], [], false) && forall t | t in s.at :: s.at[t].Idle?
  }

  /** In every state reachable by any number of threads: what was taken, followed by what is queued,
      is what was put, in order; and the wait count covers the sleepers. */
  lemma {:induction false} RunKeepsInv<T(!new)>(s: State<T>, steps: seq<Step<T>>)
    requires Inv(s) && Possible(s, steps)
    ensures Inv(Run(s, steps))
    decreases |steps|
  {
    hide Inv, Apply, Enabled;
    if steps != [] {
      StepKeepsInv(s, steps[0]);
      RunKeepsInv(Apply(s, steps[0]), steps[1..]);
    }
  }

  lemma InitialIsInv<T(!new)>(s: State<T>)
    requires Initial(s)
    ensures Inv(s)
  {
  }

  // ---------- no lost wake-up ----------

  ghost predicate CanRun<T(!new)>(s: State<T>, t: Tid) {
    exists woken :: Enabled(s, Next(t, woken))
  }

  lemma OwnerCanRun<T(!new)>(s: State<T>, t: Tid)
    requires Inv(s) && t in s.at && s.f.lock == Some(t)
    ensures CanRun(s, t)
  {
    assert ThreadOk(s.f, t, s.at[t]);
    assert Enabled(s, Next(t, if Signals(s.f, s.at[t]) then Sleepers(s.at) else {}));
  }

  /** While an element is queued and a consumer sleeps, some thread inside a call can run on: the
      conditional signal never leaves the elements to the sleepers alone. */
  lemma NoLostWakeUp<T(!new)>(s: State<T>)
    requires Inv(s) && !s.f.stopToGet && s.f.queue != [] && Sleepers(s.at) != {}
    ensures exists t :: t in s.at && CanRun(s, t) && (IsAwake(s.at[t]) || OwnsLock(s.at[t]))
  {
    assert |Sleepers(s.at)| > 0;
    var t :| t in Awake(s.at);
    assert ThreadOk(s.f, t, s.at[t]);
    if s.f.lock == None {
      assert Enabled(s, Next(t, {}));
    } else {
      OwnerCanRun(s, s.f.lock.value);
      assert ThreadOk(s.f, s.f.lock.value, s.at[s.f.lock.value]);
    }
  }

  /** So when every thread has come to rest, sleepers remain only in front of an empty queue. */
  lemma SleepersOnlyOnEmptyQueue<T(!new)>(s: State<T>)
    requires Inv(s) && !s.f.stopToGet
    requires forall t | t in s.at :: s.at[t].Idle? || s.at[t].GetAsleep?
    ensures Sleepers(s.at) != {} ==> s.f.queue == []
  {
  }

  // ---------- drained and stopped ----------

  lemma StepAfterEnd<T(!new)>(s: State<T>, step: Step<T>)
    requires Inv(s) && s.f.ended && Enabled(s, step)
    ensures var f := Apply(s, step).f; f.ended && f.puts == s.f.puts && f.gots == s.f.gots
  {
    assert ThreadOk(s.f, step.t, s.at[step.t]);
  }

  /** Once a Get has reported the queue empty and stopped, everything put has been delivered, in
      order, and nothing is ever put or taken again. */
  lemma {:induction false} EndIsFinal<T(!new)>(s: State<T>, steps: seq<Step<T>>)
    requires Inv(s) && s.f.ended && Possible(s, steps)
    ensures var f := Run(s, steps).f; f.ended && f.gots == f.puts == s.f.puts
    decreases |steps|
  {
    if steps != [] {
      hide Apply, Enabled;
      StepKeepsInv(s, steps[0]);
      StepAfterEnd(s, steps[0]);
      EndIsFinal(Apply(s, steps[0]), steps[1..]);
    }
  }

  // ---------- StopPut's broadcast ----------

  ghost predicate NobodyWaits<T(!new)>(s: State<T>) {
    forall t | t in s.at :: !s.at[t].GetWait? && !s.at[t].GetAsleep?
  }

  lemma StepKeepsAwake<T(!new)>(s: State<T>, step: Step<T>)
    requires Inv(s) && s.f.stopToPut && NobodyWaits(s) && Enabled(s, step)
    ensures Apply(s, step).f.stopToPut && NobodyWaits(Apply(s, step))
  {
  }

  lemma {:induction false} RunKeepsAwake<T(!new)>(s: State<T>, steps: seq<Step<T>>)
    requires Inv(s) && s.f.stopToPut && NobodyWaits(s) && Possible(s, steps)
    ensures NobodyWaits(Run(s, steps))
    decreases |steps|
  {
    hide Apply, Enabled, Inv, NobodyWaits;
    if steps != [] {
      StepKeepsInv(s, steps[0]);
      StepKeepsAwake(s, steps[0]);
      RunKeepsAwake(Apply(s, steps[0]), steps[1..]);
    }
  }

  ghost predicate CanSleep<T(!new)>(s: State<T>)
    requires Inv(s)
  {
    exists steps :: Possible(s, steps) && Sleepers(Run(s, steps).at) != {}
  }

  lemma OneStepRun<T(!new)>(s: State<T>, step: Step<T>, rest: seq<Step<T>>)
    requires Inv(s) && Enabled(s, step)
    ensures Inv(Apply(s, step))
    ensures Possible(Apply(s, step), rest) ==>
              Possible(s, [step] + rest) && Run(s, [step] + rest) == Run(Apply(s, step), rest)
  {
    StepKeepsInv(s, step);
    assert ([step] + rest)[1..] == rest;
  }

  // A consumer that has found the queue empty and not stopped goes to sleep whatever happens since.
  lemma WaiterSleeps<T(!new)>(s: State<T>, u: Tid)
    requires Inv(s) && u in s.at && s.at[u].GetWait?
    ensures CanSleep(s)
  {
    var go: Step<T> := Next(u, {});
    OneStepRun(s, go, []);
    assert Possible(Apply(s, go), []);
    assert u in Sleepers(Run(s, [go] + []).at);
  }

  /** The broadcast of a stop wakes everybody for good exactly when, at that moment, no consumer
      stands between its test of the stop flag and its wait. */
  lemma BroadcastIsEnough<T(!new)>(s: State<T>, t: Tid)
    requires Inv(s) && t in s.at && s.at[t].StopBroadcast?
    requires Enabled(s, Next(t, Sleepers(s.at)))
    ensures Inv(Apply(s, Next(t, Sleepers(s.at))))
    ensures CanSleep(Apply(s, Next(t, Sleepers(s.at)))) <==> exists u :: u in s.at && s.at[u].GetWait?
  {
    hide Possible, Run, FieldsOk, WakeOk;
    StepKeepsInv(s, Next(t, Sleepers(s.at)));
    var b := Apply(s, Next(t, Sleepers(s.at)));
    assert ThreadOk(s.f, t, s.at[t]);
    if u :| u in s.at && s.at[u].GetWait? {
      WaiterSleeps(b, u);
    } else {
      assert NobodyWaits(b);
      forall steps | Possible(b, steps)
        ensures Sleepers(Run(b, steps).at) == {}
      {
        RunKeepsAwake(b, steps);
      }
    }
  }

  lemma {:induction false} RunInParts<T(!new)>(s: State<T>, first: seq<Step<T>>, second: seq<Step<T>>)
    requires Inv(s) && Possible(s, first) && Inv(Run(s, first)) && Possible(Run(s, first), second)
    ensures Possible(s, first + second) && Run(s, first + second) == Run(Run(s, first), second)
    decreases |first|
  {
    hide Apply, Enabled, Inv;
    if first == [] {
      assert first + second == second;
    } else {
      StepKeepsInv(s, first[0]);
      RunInParts(Apply(s, first[0]), first[1..], second);
      assert (first + second)[1..] == first[1..] + second;
    }
  }

  // One step, said by its outcome.
  lemma Leads(s: State<bool>, step: Step<bool>, s': State<bool>)
    requires Inv(s) && Enabled(s, step)
    requires s'.at == match step
                      case Start(t, call) => Turn(s.at, {}, t, call)
                      case Spurious(t) => Turn(s.at, {}, t, GetWoken)
                      case Next(t, woken) => Turn(s.at, woken, t, Access(s.f, t, s.at[t]).1)
    requires s'.f == if step.Next? then Access(s.f, step.t, s.at[step.t]).0 else s.f
    ensures Inv(s') && Possible(s, [step]) && Run(s, [step]) == s'
  {
    StepKeepsInv(s, step);
    assert [step][1..] == [];
  }

  // A consumer finds the queue empty and not stopped.
  lemma ConsumerDecidesToWait(s: State<bool>, f: Fields<bool>) returns (steps: seq<Step<bool>>)
    requires f == Fields(None, [], 0, false, false, [], [], false)
    requires s == State(map[0 := Idle, 1 := Idle], f) && Inv(s)
    ensures Possible(s, steps) && Inv(Run(s, steps))
    ensures Run(s, steps) == State(map[0 := GetWait, 1 := Idle], f.(lock := Some(0)))
  {
    hide Inv, Possible, Run;
    var s1 := State(map[0 := GetLock, 1 := Idle], f);
    var s2 := State(map[0 := GetTest, 1 := Idle], f.(lock := Some(0)));
    Leads(s, Start(0, GetLock), s1);
    Leads(s1, Next(0, {}), s2);
    Leads(s2, Next(0, {}), State(map[0 := GetWait, 1 := Idle], f.(lock := Some(0))));
    RunInParts(s, [Start(0, GetLock)], [Next(0, {})]);
    steps := [Start(0, GetLock)] + [Next(0, {})] + [Next(0, {})];
    RunInParts(s, [Start(0, GetLock)] + [Next(0, {})], [Next(0, {})]);
  }

  // Another thread stops the queue and broadcasts, needing no lock.
  lemma StopAndBroadcast(s: State<bool>, f: Fields<bool>) returns (steps: seq<Step<bool>>)
    requires s == State(map[0 := GetWait, 1 := Idle], f) && Inv(s)
    ensures Possible(s, steps) && Inv(Run(s, steps))
    ensures Run(s, steps) == State(map[0 := GetWait, 1 := Idle], f.(stopToPut := true))
  {
    hide Inv, Possible, Run;
    var s1 := State(map[0 := GetWait, 1 := StopPutFlag], f);
    var s2 := State(map[0 := GetWait, 1 := StopBroadcast], f.(stopToPut := true));
    Leads(s, Start(1, StopPutFlag), s1);
    Leads(s1, Next(1, {}), s2);
    BroadcastToNobody(s2, s2.f);
    RunInParts(s, [Start(1, StopPutFlag)], [Next(1, {})]);
    steps := [Start(1, StopPutFlag)] + [Next(1, {})] + [Next(1, {})];
    RunInParts(s, [Start(1, StopPutFlag)] + [Next(1, {})], [Next(1, {})]);
  }

  // The consumer does what it had decided.
  lemma ConsumerFallsAsleep(s: State<bool>, f: Fields<bool>) returns (step: Step<bool>)
    requires f.lock == Some(0) && s == State(map[0 := GetWait, 1 := Idle], f) && Inv(s)
    ensures Possible(s, [step])
    ensures Run(s, [step]) == State(map[0 := GetAsleep, 1 := Idle], f.(lock := None, waitCount := f.waitCount + 1))
    ensures Inv(Run(s, [step]))
  {
    step := Next(0, {});
    Leads(s, step, State(map[0 := GetAsleep, 1 := Idle], f.(lock := None, waitCount := f.waitCount + 1)));
  }

  lemma BroadcastToNobody(s: State<bool>, f: Fields<bool>)
    requires s == State(map[0 := GetWait, 1 := StopBroadcast], f) && Inv(s)
    ensures Possible(s, [Next(1, {})])
    ensures Run(s, [Next(1, {})]) == State(map[0 := GetWait, 1 := Idle], f)
    ensures Inv(Run(s, [Next(1, {})]))
  {
    assert Sleepers(s.at) == {};
    Leads(s, Next(1, {}), State(map[0 := GetWait, 1 := Idle], f));
  }

  /** Such a moment is reachable: one consumer, one stopping thread, and in the end the consumer
      sleeps on a stopped, empty queue with nobody left to wake it. */
  lemma StopCanStrandConsumer() returns (s: State<bool>, steps: seq<Step<bool>>)
    ensures Initial(s) && Inv(s) && Possible(s, steps)
    ensures var s' := Run(s, steps);
            s'.f.stopToPut && s'.f.queue == [] && s'.at == map[0 := GetAsleep, 1 := Idle]
  {
    var f: Fields<bool> := Fields(None, [], 0, false, false, [], [], false);
    s := State(map[0 := Idle, 1 := Idle], f);
    InitialIsInv(s);
    hide Inv, Possible, Run;
    var first := ConsumerDecidesToWait(s, f);
    var s3 := Run(s, first);
    var second := StopAndBroadcast(s3, s3.f);
    var s6 := Run(s3, second);
    var last := ConsumerFallsAsleep(s6, s6.f);
    RunInParts(s, first, second);
    steps := first + second + [last];
    RunInParts(s, first + second, [last]);
  }
}
