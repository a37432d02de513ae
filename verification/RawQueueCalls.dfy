/** What the calls on the unbounded queue come to: which calls store, take, end or are refused, told from
    the calls and from what they found under the lock; and that every call gets to its end. */
module RawQueueCalls {
  import opened RawQueue

  /** The call each thread is in or has finished last. */
  type Calls<T> = map<Tid, Place<T>>

  function CallsAfter<T>(calls: Calls<T>, step: Step<T>): Calls<T> {
    if step.Start? then calls[step.t := step.call] else calls
  }

  // ---------- threads follow their calls ----------

  ghost predicate Belongs<T>(call: Place<T>, p: Place<T>) {
    match call
    case GetLock => p.GetLock? || p.GetTest? || p.GetWait? || p.GetAsleep? || p.GetWoken? || p.GetStopped? || p.GetTake?
    case TryLock => p.TryLock? || p.TryStopped? || p.TryTake?
    case PutLock(el) => p == PutLock(el) || p == PutStopped(el) || p == PutPush(el)
    case StopGetFlag => p.StopGetFlag? || p.StopPutFlag? || p.StopBroadcast?
    case StopPutFlag => p.StopPutFlag? || p.StopBroadcast?
    case _ => false
  }

  ghost predicate CallOk<T>(f: Fields<T>, call: Place<T>, p: Place<T>) {
    && Belongs(call, p)
    && (call.StopGetFlag? && !p.StopGetFlag? ==> f.stopToGet)
  }

  ghost predicate Following<T(!new)>(s: State<T>, calls: Calls<T>) {
    forall t | t in s.at :: s.at[t].Idle? || (t in calls && CallOk(s.f, calls[t], s.at[t]))
  }

  lemma OwnCallOk<T(!new)>(f: Fields<T>, t: Tid, call: Place<T>, p: Place<T>)
    requires ThreadOk(f, t, p) && CallOk(f, call, p) && !p.Idle? && !p.GetAsleep?
    ensures var (f', p') := Access(f, t, p); p'.Idle? || CallOk(f', call, p')
  {
  }

  lemma FlagsStay<T(!new)>(f: Fields<T>, t: Tid, p: Place<T>)
    requires ThreadOk(f, t, p) && !p.Idle? && !p.GetAsleep?
    ensures var f' := Access(f, t, p).0;
            && f'.stopToGet == (f.stopToGet || p.StopGetFlag?)
            && f'.stopToPut == (f.stopToPut || p.StopPutFlag?)
  {
  }

  lemma OtherCallOk<T(!new)>(s: State<T>, calls: Calls<T>, step: Step<T>, u: Tid)
    requires Inv(s) && Enabled(s, step) && Following(s, calls) && u in s.at && u != step.t
    ensures var p := Apply(s, step).at[u]; p.Idle? || (u in calls && CallOk(Apply(s, step).f, calls[u], p))
  {
    assert ThreadOk(s.f, step.t, s.at[step.t]);
    hide Access, Inv;
    if step.Next? {
      FlagsStay(s.f, step.t, s.at[step.t]);
    }
  }

  /** A thread in a call is always at a place of that call, with that call's argument. */
  lemma StepFollowsCalls<T(!new)>(s: State<T>, calls: Calls<T>, step: Step<T>)
    requires Inv(s) && Enabled(s, step) && Following(s, calls)
    ensures Following(Apply(s, step), CallsAfter(calls, step))
  {
    assert ThreadOk(s.f, step.t, s.at[step.t]);
    assert s.at[step.t].Idle? || CallOk(s.f, calls[step.t], s.at[step.t]);
    hide Access, Inv, ThreadOk;
    if step.Next? {
      OwnCallOk(s.f, step.t, calls[step.t], s.at[step.t]);
      FlagsStay(s.f, step.t, s.at[step.t]);
    }
    forall u | u in s.at && u != step.t
      ensures var p := Apply(s, step).at[u]; p.Idle? || (u in calls && CallOk(Apply(s, step).f, calls[u], p))
    {
      OtherCallOk(s, calls, step, u);
    }
    hide CallOk;
  }

  // ---------- what a call has done when it returns ----------

  ghost predicate SameQueue<T>(f: Fields<T>, f': Fields<T>) {
    f'.queue == f.queue && f'.puts == f.puts && f'.gots == f.gots && f'.ended == f.ended
  }

  ghost predicate FrontTaken<T>(f: Fields<T>, f': Fields<T>) {
    && f.queue != [] && f'.queue == f.queue[1..] && f'.gots == f.gots + [f.queue[0]]
    && f'.puts == f.puts && f'.ended == f.ended
  }

  /** The effect `call` may have had when it returns, from the fields before and after its last step. */
  ghost predicate Done<T>(call: Place<T>, f: Fields<T>, f': Fields<T>) {
    match call
    case PutLock(el) =>
      || (f.stopToPut && SameQueue(f, f'))
      || (f'.queue == f.queue + [el] && f'.puts == f.puts + [el] && f'.gots == f.gots && f'.ended == f.ended)
    case GetLock =>
      || (f.stopToGet && SameQueue(f, f'))
      || (f.queue == [] && f.stopToPut && f'.ended && SameQueue(f, f'.(ended := f.ended)))
      || FrontTaken(f, f')
    case TryLock => (f.stopToGet && SameQueue(f, f')) || (f.queue == [] && SameQueue(f, f')) || FrontTaken(f, f')
    case StopGetFlag => f'.stopToGet && f'.stopToPut && SameQueue(f, f')
    case StopPutFlag => f'.stopToPut && SameQueue(f, f')
    case _ => false
  }

  lemma AccessDoesItsWork<T(!new)>(f: Fields<T>, t: Tid, call: Place<T>, p: Place<T>)
    requires ThreadOk(f, t, p) && CallOk(f, call, p) && !p.Idle? && !p.GetAsleep?
    ensures var (f', p') := Access(f, t, p);
            if p'.Idle? then Done(call, f, f') else SameQueue(f, f')
  {
  }

  /** A call returns only after it has done its work, or with the flag or the emptiness that excuses it;
      and before its last step it leaves the queue alone. */
  lemma CallsDoTheirWork<T(!new)>(s: State<T>, calls: Calls<T>, step: Step<T>)
    requires Inv(s) && Enabled(s, step) && Following(s, calls)
    ensures var (s', t) := (Apply(s, step), step.t);
            if !s.at[t].Idle? && s'.at[t].Idle? then t in calls && Done(calls[t], s.f, s'.f) else SameQueue(s.f, s'.f)
  {
    assert ThreadOk(s.f, step.t, s.at[step.t]);
    assert s.at[step.t].Idle? || CallOk(s.f, calls[step.t], s.at[step.t]);
    if step.Next? {
      AccessDoesItsWork(s.f, step.t, calls[step.t], s.at[step.t]);
    }
    hide Access, Inv, ThreadOk, CallOk, Done;
  }

  /** The stop flags are set by the stop calls' own steps, by nothing else, and never unset. The wait count
      goes up with every wait and down with every Put that finds it above zero, which then signals. */
  lemma FlagsAndCount<T(!new)>(s: State<T>, step: Step<T>)
    requires Inv(s) && Enabled(s, step)
    ensures var (f, f', p) := (s.f, Apply(s, step).f, s.at[step.t]);
            && f'.stopToGet == (f.stopToGet || (step.Next? && p.StopGetFlag?))
            && f'.stopToPut == (f.stopToPut || (step.Next? && p.StopPutFlag?))
            && f'.waitCount == f.waitCount + (if step.Next? && p.GetWait? then 1 else 0)
                                           - (if step.Next? && p.PutPush? && f.waitCount > 0 then 1 else 0)
  {
    assert ThreadOk(s.f, step.t, s.at[step.t]);
    assert s.f.waitCount >= 0;
    hide Turn;
  }

  function Rank<T>(p: Place<T>): nat {
    match p
    case Idle => 0
    case GetAsleep => 0
    case GetLock => 4 case GetWoken => 4 case GetTest => 3 case GetWait => 1 case GetStopped => 2 case GetTake => 1
    case TryLock => 3 case TryStopped => 2 case TryTake => 1
    case PutLock(_) => 3 case PutStopped(_) => 2 case PutPush(_) => 1
    case StopGetFlag => 3 case StopPutFlag => 2 case StopBroadcast => 1
  }

  /** No call runs in circles: every access brings its thread nearer to its return or its sleep, so four
      accesses at most lie between a start or a wake-up and that. */
  lemma AccessesAreBounded<T(!new)>(s: State<T>, t: Tid, woken: set<Tid>)
    requires Inv(s) && Enabled(s, Next(t, woken))
    ensures Rank(Apply(s, Next(t, woken)).at[t]) < Rank(s.at[t]) <= 4
  {
    assert ThreadOk(s.f, t, s.at[t]);
  }

  // ---------- which calls store and which take ----------

  /** The argument of a Put that owns the lock and finds the stop flag unset. */
  ghost function AcceptedAt<T(!new)>(s: State<T>, calls: Calls<T>, step: Step<T>): seq<T> {
    if step.Next? && step.t in s.at && s.at[step.t].PutStopped? && !s.f.stopToPut
       && step.t in calls && calls[step.t].PutLock? then [calls[step.t].el]
    else []
  }

  /** The front element, when a Get or TryGet finds its stop flag unset and the queue not empty. */
  ghost function TakenAt<T(!new)>(s: State<T>, step: Step<T>): seq<T> {
    if step.Next? && step.t in s.at && (s.at[step.t].GetStopped? || s.at[step.t].TryStopped?)
       && !s.f.stopToGet && s.f.queue != [] then [s.f.queue[0]]
    else []
  }

  /** A Get that has left its loop finds its stop flag unset and the queue empty. */
  ghost predicate EndAt<T(!new)>(s: State<T>, step: Step<T>) {
    step.Next? && step.t in s.at && s.at[step.t].GetStopped? && !s.f.stopToGet && s.f.queue == []
  }

  // What the owner of the lock, standing at `p`, has decided and not done yet.

  function ToStore<T>(p: Place<T>): seq<T> {
    if p.PutPush? then [p.el] else []
  }

  function ToTake<T>(f: Fields<T>, p: Place<T>): seq<T> {
    if (p.GetTake? || p.TryTake?) && f.queue != [] then [f.queue[0]] else []
  }

  predicate ToEnd<T>(f: Fields<T>, p: Place<T>) {
    p.GetTake? && f.queue == []
  }

  /** Where the owner of the lock stands. */
  function Owner<T>(s: State<T>): Place<T> {
    if s.f.lock.Some? && s.f.lock.value in s.at then s.at[s.f.lock.value] else Idle
  }

  ghost predicate Balanced<T>(f: Fields<T>, p: Place<T>, f': Fields<T>, p': Place<T>, accepted: seq<T>, taken: seq<T>, end: bool) {
    && f'.puts + ToStore(p') == f.puts + ToStore(p) + accepted
    && f'.gots + ToTake(f', p') == f.gots + ToTake(f, p) + taken
    && (f'.ended || ToEnd(f', p') <==> f.ended || ToEnd(f, p) || end)
  }

  lemma AccessBalances<T(!new)>(f: Fields<T>, t: Tid, p: Place<T>)
    requires ThreadOk(f, t, p) && !p.Idle? && !p.GetAsleep? && (OwnsLock(p) || OwnsLock(Access(f, t, p).1))
    ensures var ((f', p'), q) := (Access(f, t, p), if OwnsLock(p) then p else Idle);
            var q' := if OwnsLock(p') then p' else Idle;
            Balanced(f, q, f', q',
                     if p.PutStopped? && !f.stopToPut then [p.el] else [],
                     if (p.GetStopped? || p.TryStopped?) && !f.stopToGet && f.queue != [] then [f.queue[0]] else [],
                     p.GetStopped? && !f.stopToGet && f.queue == [])
  {
  }

  lemma AccessMovesLock<T(!new)>(f: Fields<T>, t: Tid, p: Place<T>)
    requires ThreadOk(f, t, p) && !p.Idle? && !p.GetAsleep?
    requires p.GetLock? || p.GetWoken? || p.TryLock? || p.PutLock? ==> f.lock == None
    ensures var (f', p') := Access(f, t, p);
            && f'.lock == (if OwnsLock(p') then Some(t) else if OwnsLock(p) then None else f.lock)
            && (OwnsLock(p') && !OwnsLock(p) ==> f.lock == None)
            && (!OwnsLock(p) && !OwnsLock(p') ==> SameQueue(f, f'))
  {
  }

  lemma OwnerOk<T(!new)>(s: State<T>)
    requires Inv(s)
    ensures s.f.lock.Some? ==> s.f.lock.value in s.at && OwnsLock(Owner(s))
    ensures forall t | t in s.at && OwnsLock(s.at[t]) :: s.f.lock == Some(t) && Owner(s) == s.at[t]
  {
    assert s.f.lock.Some? ==> ThreadOk(s.f, s.f.lock.value, s.at[s.f.lock.value]);
    assert forall t | t in s.at :: ThreadOk(s.f, t, s.at[t]);
  }

  // Only sleepers are woken, so the owner moves by its own steps alone.
  lemma OwnerAfter<T(!new)>(s: State<T>, step: Step<T>)
    requires Inv(s) && Enabled(s, step)
    ensures var s' := Apply(s, step);
            && s'.at.Keys == s.at.Keys
            && forall u | u in s.at && u != step.t && OwnsLock(s.at[u]) :: s'.at[u] == s.at[u]
  {
    hide Access;
  }

  lemma StepBalances<T(!new)>(s: State<T>, calls: Calls<T>, step: Step<T>)
    requires Inv(s) && Enabled(s, step) && Following(s, calls)
    ensures var s' := Apply(s, step);
            Balanced(s.f, Owner(s), s'.f, Owner(s'), AcceptedAt(s, calls, step), TakenAt(s, step), EndAt(s, step))
  {
    assert ThreadOk(s.f, step.t, s.at[step.t]);
    hide Access, Balanced, Inv, ThreadOk, Turn, ToStore, ToTake, ToEnd;
    var s', t := Apply(s, step), step.t;
    OwnerOk(s);
    OwnerAfter(s, step);
    assert s.at[t].Idle? || CallOk(s.f, calls[t], s.at[t]);
    if step.Next? {
      AccessMovesLock(s.f, t, s.at[t]);
      if OwnsLock(s.at[t]) || OwnsLock(s'.at[t]) {
        AccessBalances(s.f, t, s.at[t]);
        assert !OwnsLock(s.at[t]) ==> s.f.lock == None;
      }
    }
  }

  // ---------- runs ----------

  ghost function CallsAfterRun<T>(calls: Calls<T>, steps: seq<Step<T>>): Calls<T>
    decreases |steps|
  {
    if steps == [] then calls else CallsAfterRun(CallsAfter(calls, steps[0]), steps[1..])
  }

  ghost function Accepted<T(!new)>(s: State<T>, calls: Calls<T>, steps: seq<Step<T>>): seq<T>
    requires Inv(s) && Possible(s, steps)
    decreases |steps|
  {
    if steps == [] then [] else
      StepKeepsInv(s, steps[0]);
      AcceptedAt(s, calls, steps[0]) + Accepted(Apply(s, steps[0]), CallsAfter(calls, steps[0]), steps[1..])
  }

  ghost function Taken<T(!new)>(s: State<T>, steps: seq<Step<T>>): seq<T>
    requires Inv(s) && Possible(s, steps)
    decreases |steps|
  {
    if steps == [] then [] else
      StepKeepsInv(s, steps[0]);
      TakenAt(s, steps[0]) + Taken(Apply(s, steps[0]), steps[1..])
  }

  ghost predicate EndSeen<T(!new)>(s: State<T>, steps: seq<Step<T>>)
    requires Inv(s) && Possible(s, steps)
    decreases |steps|
  {
    steps != [] && (EndAt(s, steps[0]) || (StepKeepsInv(s, steps[0]); EndSeen(Apply(s, steps[0]), steps[1..])))
  }

  lemma BalanceAdds<T>(f: Fields<T>, p: Place<T>, f1: Fields<T>, p1: Place<T>, f2: Fields<T>, p2: Place<T>,
                       a1: seq<T>, t1: seq<T>, e1: bool, a2: seq<T>, t2: seq<T>, e2: bool)
    requires Balanced(f, p, f1, p1, a1, t1, e1) && Balanced(f1, p1, f2, p2, a2, t2, e2)
    ensures Balanced(f, p, f2, p2, a1 + a2, t1 + t2, e1 || e2)
  {
    assert (f.puts + ToStore(p) + a1) + a2 == f.puts + ToStore(p) + (a1 + a2);
    assert (f.gots + ToTake(f, p) + t1) + t2 == f.gots + ToTake(f, p) + (t1 + t2);
  }

  lemma {:induction false} RunBalances<T(!new)>(s: State<T>, calls: Calls<T>, steps: seq<Step<T>>)
    requires Inv(s) && Possible(s, steps) && Following(s, calls)
    ensures var s' := Run(s, steps);
            && Following(s', CallsAfterRun(calls, steps))
            && Balanced(s.f, Owner(s), s'.f, Owner(s'), Accepted(s, calls, steps), Taken(s, steps), EndSeen(s, steps))
    decreases |steps|
  {
    if steps == [] {
      assert s.f.puts + ToStore(Owner(s)) + [] == s.f.puts + ToStore(Owner(s));
      assert s.f.gots + ToTake(s.f, Owner(s)) + [] == s.f.gots + ToTake(s.f, Owner(s));
    } else {
      hide Inv, Apply, Enabled, Following, Balanced, AcceptedAt, TakenAt, EndAt, CallsAfter, Owner;
      var s1, calls1 := Apply(s, steps[0]), CallsAfter(calls, steps[0]);
      StepKeepsInv(s, steps[0]);
      StepFollowsCalls(s, calls, steps[0]);
      StepBalances(s, calls, steps[0]);
      RunBalances(s1, calls1, steps[1..]);
      var s2 := Run(s1, steps[1..]);
      BalanceAdds(s.f, Owner(s), s1.f, Owner(s1), s2.f, Owner(s2),
                  AcceptedAt(s, calls, steps[0]), TakenAt(s, steps[0]), EndAt(s, steps[0]),
                  Accepted(s1, calls1, steps[1..]), Taken(s1, steps[1..]), EndSeen(s1, steps[1..]));
    }
  }

  /** From the start, whenever nobody owns the lock: what was put is exactly the arguments of those Puts
      that owned the lock and found the stop flag unset, in that order; what was taken is exactly the
      fronts that those Gets and TryGets found which met neither flag nor emptiness; and the end has been
      reported if and only if some Get found the queue empty after leaving its loop. */
  lemma RunStoresAndTakes<T(!new)>(s: State<T>, steps: seq<Step<T>>)
    requires Initial(s) && Inv(s) && Possible(s, steps) && Run(s, steps).f.lock == None
    ensures var f := Run(s, steps).f;
            && f.puts == Accepted(s, map[], steps)
            && f.gots == Taken(s, steps)
            && Accepted(s, map[], steps) == Taken(s, steps) + f.queue
            && (f.ended <==> EndSeen(s, steps))
  {
    RunBalances(s, map[], steps);
    RunKeepsInv(s, steps);
    hide Possible, Run, Accepted, Taken, EndSeen;
    var f := Run(s, steps).f;
    assert f.puts + [] == f.puts && f.gots + [] == f.gots;
    assert [] + [] + Accepted(s, map[], steps) == Accepted(s, map[], steps);
    assert [] + [] + Taken(s, steps) == Taken(s, steps);
    assert f.puts == f.gots + f.queue;
  }
}
