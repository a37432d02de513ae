/** The event loop: rounds of epoll events dispatched to the handlers, each round a batch that was
    reported before its first handler ran; and what holds over every run of rounds. */
module NetRuns {
  import opened Bytes
  import opened Stream
  import opened Epoll
  import opened NetModel
  import opened NetPools
  import opened NetInvariants
  import opened NetHandlers
  import opened NetLifecycle

  /** One reported descriptor: which events, and how sockets and callbacks will behave. */
  datatype Ready = Ready(fd: Fd, input: bool, output: bool, hup: bool, error: bool,
                         bytes: seq<Byte>, ending: Ending, readCbs: Callbacks,
                         room: nat, writeCbs: Callbacks, closeRs: seq<Request>, accepted: seq<Accepted>)

  datatype Round = Timeout(rs: seq<Request>) | Batch(ready: seq<Ready>)

  /** What epoll may report: input and output only where there is interest in them. A descriptor that
      accept returns is open, so it is no listener's. */
  predicate Reported(n: Net, r: Ready) {
    if r.fd in n.listeners then forall a | a in r.accepted :: a.fd !in n.listeners
    else
      && r.fd in n.clients && r.fd in n.events
      && (r.input ==> In in n.events[r.fd])
      && (r.output ==> Out in n.events[r.fd])
  }

  /** The handlers called for one descriptor, in the loop's order. */
  ghost function Dispatch(n: Net, r: Ready): Net
    requires Valid(n) && Reported(n, r)
  {
    if r.fd in n.listeners then OnAccept(n, r.fd, r.accepted)
    else if r.error then OnClose(n, r.fd, r.closeRs)
    else
      var n2 := AfterOutput(AfterInput(n, r), r);
      if r.hup then OnClose(n2, r.fd, r.closeRs) else n2
  }

  ghost function AfterInput(n: Net, r: Ready): (n': Net)
    requires Valid(n) && Reported(n, r) && r.fd !in n.listeners
    ensures Valid(n') && SameBooks(n, n') && OthersKeepInterest(n, n', r.fd)
    ensures Reported(n', r.(input := false))
  {
    if r.input then
      OnReadKeeps(n, r.fd, r.bytes, r.ending, r.readCbs);
      OnRead(n, r.fd, r.bytes, r.ending, r.readCbs)
    else n
  }

  ghost function AfterOutput(n: Net, r: Ready): (n': Net)
    requires Valid(n) && Reported(n, r.(input := false)) && r.fd !in n.listeners
    ensures Valid(n') && SameBooks(n, n') && OthersKeepInterest(n, n', r.fd)
  {
    if r.output then
      OnWriteKeeps(n, r.fd, r.room, r.writeCbs);
      OnWrite(n, r.fd, r.room, r.writeCbs)
    else n
  }

  /** What input and output leave alone for everybody else. */
  predicate SparesOthers(n: Net, n': Net, fd: Fd) {
    && Limits(n') == Limits(n)
    && n.clients.Keys - {fd} <= n'.clients.Keys
    && OthersKeepInterest(n, n', fd)
  }

  lemma TransferKeepsOthers(n: Net, r: Ready)
    requires Valid(n) && Reported(n, r) && r.fd !in n.listeners
    ensures SparesOthers(n, AfterOutput(AfterInput(n, r), r), r.fd)
  {
    hide Valid, AfterInput, AfterOutput, Reported;
    var n1, n2 := AfterInput(n, r), AfterOutput(AfterInput(n, r), r);
    assert n2.listeners == n1.listeners == n.listeners;
  }

  lemma SparingAdds(n: Net, n1: Net, n2: Net, fd: Fd)
    requires SparesOthers(n, n1, fd) && SparesOthers(n1, n2, fd)
    ensures SparesOthers(n, n2, fd)
  {
    forall f | f in n.events && f != fd && f in n.clients
      ensures f in n2.events && n.events[f] <= n2.events[f]
    {
      assert f in n.clients.Keys - {fd};
    }
    forall f | f in n.clients.Keys - {fd} ensures f in n2.clients.Keys {
      assert f in n1.clients.Keys - {fd};
    }
  }

  /** Handling a descriptor keeps every invariant and every limit, closes no other connection, and takes
      no interest from one. */
  lemma DispatchKeepsOthers(n: Net, r: Ready)
    requires Valid(n) && Reported(n, r)
    ensures var n' := Dispatch(n, r);
            Valid(n') && SparesOthers(n, n', r.fd)
  {
    if r.fd in n.listeners {
      OnAcceptKeeps(n, r.fd, r.accepted);
    } else if r.error {
      OnCloseKeeps(n, r.fd, r.closeRs);
    } else {
      TransferKeepsOthers(n, r);
      if r.hup {
        var n2 := AfterOutput(AfterInput(n, r), r);
        OnCloseKeeps(n2, r.fd, r.closeRs);
        SparingAdds(n, n2, OnClose(n2, r.fd, r.closeRs), r.fd);
      }
    }
    hide Valid, OnAccept, OnClose, AfterInput, AfterOutput, Limits;
  }

  /** A report made before `n` became `n'` is still good. */
  lemma StillReported(n: Net, n': Net, fd: Fd, r: Ready)
    requires Reported(n, r) && Valid(n) && Valid(n') && r.fd != fd && SparesOthers(n, n', fd)
    ensures Reported(n', r)
  {
    SameLimits(n, n');
    assert r.fd in n.clients ==> r.fd in n.clients.Keys - {fd};
  }

  /** So the reports on all others stay good. */
  lemma DispatchKeeps(n: Net, r: Ready, others: seq<Ready>)
    requires Valid(n) && Reported(n, r)
    requires forall o | o in others :: Reported(n, o) && o.fd != r.fd
    ensures Valid(Dispatch(n, r)) && Limits(Dispatch(n, r)) == Limits(n)
    ensures forall o | o in others :: Reported(Dispatch(n, r), o)
  {
    DispatchKeepsOthers(n, r);
    hide Valid, Dispatch, Reported;
    forall o | o in others
      ensures Reported(Dispatch(n, r), o)
    {
      StillReported(n, Dispatch(n, r), r.fd, o);
    }
  }

  /** So no handler ever steps back from the end of an empty chain. */
  lemma HandlersHaveWork(n: Net, r: Ready)
    requires Valid(n) && Reported(n, r) && r.fd !in n.listeners
    ensures r.input ==> n.clients[r.fd].rb != []
    ensures r.output ==> AfterInput(n, r).clients[r.fd].wb != []
  {
  }

  // ---------- rounds ----------

  predicate DistinctFds(ready: seq<Ready>) {
    forall i, j | 0 <= i < j < |ready| :: ready[i].fd != ready[j].fd
  }

  /** A batch as epoll_wait returns it: each descriptor once, each report good at that moment. */
  predicate BatchOk(n: Net, ready: seq<Ready>) {
    DistinctFds(ready) && forall r | r in ready :: Reported(n, r)
  }

  lemma FirstKeepsBatch(n: Net, ready: seq<Ready>)
    requires Valid(n) && BatchOk(n, ready) && ready != []
    ensures Reported(n, ready[0]) && Valid(Dispatch(n, ready[0])) && BatchOk(Dispatch(n, ready[0]), ready[1..])
    ensures Limits(Dispatch(n, ready[0])) == Limits(n)
  {
    hide Valid, Dispatch, Reported, Limits;
    forall o | o in ready[1..]
      ensures Reported(n, o) && o.fd != ready[0].fd
    {
      var j :| 0 <= j < |ready[1..]| && ready[1..][j] == o;
      assert ready[j + 1] == o;
    }
    DispatchKeeps(n, ready[0], ready[1..]);
  }

  ghost function RunBatch(n: Net, ready: seq<Ready>): (n': Net)
    requires Valid(n) && BatchOk(n, ready)
    ensures Valid(n') && Limits(n') == Limits(n)
    decreases |ready|
  {
    if ready == [] then n else
      FirstKeepsBatch(n, ready);
      RunBatch(Dispatch(n, ready[0]), ready[1..])
  }

  lemma TimeoutKeeps(n: Net, rs: seq<Request>)
    requires Valid(n)
    ensures Valid(Serve(n, rs)) && Limits(Serve(n, rs)) == Limits(n)
  {
    hide ConnsOk, PoolsOk, CountsOk, AdmissionOk;
    ServeKeeps(n, AtRest, rs);
    ShapeKeepsBooks(n, Serve(n, rs));
    SameBooksKeepCounts(n, Serve(n, rs));
  }

  predicate RoundOk(n: Net, round: Round) {
    round.Batch? ==> BatchOk(n, round.ready)
  }

  ghost function RunRound(n: Net, round: Round): (n': Net)
    requires Valid(n) && RoundOk(n, round)
    ensures Valid(n') && Limits(n') == Limits(n)
  {
    match round
    case Timeout(rs) => (TimeoutKeeps(n, rs); Serve(n, rs))
    case Batch(ready) => RunBatch(n, ready)
  }

  ghost predicate Possible(n: Net, rounds: seq<Round>)
    requires Valid(n)
    decreases |rounds|
  {
    rounds == [] || (RoundOk(n, rounds[0]) && Possible(RunRound(n, rounds[0]), rounds[1..]))
  }

  /** The event loop: everything the invariant says holds after every round of every run, and no listener's
      limit is ever another than at the start. */
  ghost function RunLoop(n: Net, rounds: seq<Round>): (n': Net)
    requires Valid(n) && Possible(n, rounds)
    ensures Valid(n') && Limits(n') == Limits(n)
    decreases |rounds|
  {
    if rounds == [] then n else RunLoop(RunRound(n, rounds[0]), rounds[1..])
  }

  ghost predicate Initial(n: Net) {
    && n.clients == map[] && n.traffic == map[]
    && (forall l | l in n.listeners :: n.listeners[l].currentconns == 0)
    && n.events == (map l | l in n.listeners :: {RdHup, In})
    && n.rpool == Pool(seq(n.rpool.made, i => i), n.rpool.made)
    && n.wpool == Pool(seq(n.wpool.made, i => i), n.wpool.made)
  }

  lemma {:induction false} FreshPool(k: nat)
    ensures multiset(seq(k, i => i)) == Upto(k)
  {
    if k > 0 {
      FreshPool(k - 1);
      assert seq(k, i => i) == seq(k - 1, i => i) + [k - 1];
    }
  }

  lemma InitialIsValid(n: Net)
    requires Initial(n)
    ensures Valid(n)
  {
    FreshPool(n.rpool.made);
    FreshPool(n.wpool.made);
    assert ReadChains(n) == map[] && WriteChains(n) == map[];
    assert forall l :: Members(n, l) == {};
  }

  // ---------- what the invariant means ----------

  lemma {:induction false} PartOfFlat(parts: seq<seq<Byte>>, i: nat)
    requires i < |parts|
    ensures Sum(Lengths(parts)[..i]) + |parts[i]| <= |Flat(parts)|
    ensures parts[i] == Flat(parts)[Sum(Lengths(parts)[..i])..][..|parts[i]|]
  {
    var ls := Lengths(parts);
    if i == 0 {
      assert ls[..0] == [];
    } else {
      PartOfFlat(parts[1..], i - 1);
      assert Lengths(parts[1..]) == ls[1..];
      assert ls[..i][1..] == ls[1..][..i - 1] && ls[..i][0] == |parts[0]|;
      assert Flat(parts)[Sum(ls[..i])..] == Flat(parts[1..])[Sum(ls[1..][..i - 1])..];
    }
  }

  /** Stream reassembly: the i-th buffer handed to OnReadComplete has the i-th size asked for, and is
      that stretch of the received stream that follows the sizes before it. */
  lemma DeliveredIsCutStream(n: Net, fd: Fd, i: nat)
    requires Valid(n) && fd in n.clients && i < |n.traffic[fd].delivered|
    ensures var t := n.traffic[fd];
            && i < |t.asked| && |t.delivered[i]| == t.asked[i]
            && Sum(t.asked[..i]) + t.asked[i] <= |t.received|
            && t.delivered[i] == t.received[Sum(t.asked[..i])..][..t.asked[i]]
  {
    var t := n.traffic[fd];
    hide ConnsOk, PoolsOk, CountsOk, AdmissionOk, Flat;
    RestFacts(n, fd);
    PartOfFlat(t.delivered, i);
    assert Lengths(t.delivered)[..i] == t.asked[..i];
    var from := Sum(t.asked[..i]);
    assert Flat(t.delivered)[from..][..t.asked[i]] == t.received[from..][..t.asked[i]];
  }

  /** What is not delivered yet sits in the front buffer of the chain, which is still short of its size. */
  lemma UndeliveredIsInFront(n: Net, fd: Fd)
    requires Valid(n) && fd in n.clients
    ensures ChainOk(n.clients[fd].rb)
    ensures n.traffic[fd].received == Flat(n.traffic[fd].delivered) + Partial(n.clients[fd].rb)
    ensures n.clients[fd].rb != [] ==> |Partial(n.clients[fd].rb)| < n.clients[fd].rb[0].total
    ensures n.clients[fd].rb == [] <==> |n.traffic[fd].delivered| == |n.traffic[fd].asked|
  {
    assert ConnOk(n, AtRest, fd) && n.traffic[fd].delivered + [] == n.traffic[fd].delivered;
  }

  lemma {:induction false} SumNext(ns: seq<nat>, k: nat)
    requires k < |ns|
    ensures Sum(ns[..k + 1]) == Sum(ns[..k]) + ns[k]
  {
    if k == 0 {
      assert ns[..1][1..] == ns[..0];
    } else {
      SumNext(ns[1..], k - 1);
      assert ns[..k + 1][1..] == ns[1..][..k] && ns[..k][1..] == ns[1..][..k - 1];
    }
  }

  lemma {:induction false} SumGrows(ns: seq<nat>, j: nat, k: nat)
    requires j <= k <= |ns|
    ensures Sum(ns[..j]) <= Sum(ns[..k])
    decreases k - j
  {
    if j < k {
      SumNext(ns, j);
      SumGrows(ns, j + 1, k);
    }
  }

  lemma {:induction false} FlatLength(parts: seq<seq<Byte>>)
    ensures |Flat(parts)| == Sum(Lengths(parts))
  {
    if parts != [] {
      FlatLength(parts[1..]);
      assert Lengths(parts)[1..] == Lengths(parts[1..]);
    }
  }

  /** And nothing is held back: the first k requests have been answered exactly when as many bytes as
      they ask for have been received. */
  lemma DeliveredAsSoonAsReceived(n: Net, fd: Fd, k: nat)
    requires Valid(n) && fd in n.clients && k <= |n.traffic[fd].asked|
    ensures var t := n.traffic[fd];
            k <= |t.delivered| <==> Sum(t.asked[..k]) <= |t.received|
  {
    var c, t := n.clients[fd], n.traffic[fd];
    assert ConnOk(n, AtRest, fd) && t.delivered + [] == t.delivered;
    var d := |t.delivered|;
    FlatLength(t.delivered);
    assert t.asked[..d] == Lengths(t.delivered);
    if k <= d {
      SumGrows(t.asked, k, d);
    } else {
      assert t.asked[d] == c.rb[0].total;
      SumNext(t.asked, d);
      SumGrows(t.asked, d + 1, k);
    }
  }

  // How far `sent` reaches into `payloads`, when `done` of them are sent and `part` of the next.
  lemma SentReaches(payloads: seq<seq<Byte>>, done: nat, part: seq<Byte>)
    requires done <= |payloads|
    requires if done < |payloads| then part <= payloads[done] && part != payloads[done] else part == []
    ensures Flat(payloads[..done]) + part <= Flat(payloads)
    ensures done < |payloads| ==> |Flat(payloads[..done]) + part| < |Flat(payloads[..done + 1])|
  {
    FlatConcat(payloads[..done], payloads[done..]);
    assert payloads == payloads[..done] + payloads[done..];
    if done < |payloads| {
      FlatAppend(payloads[..done], payloads[done]);
      assert payloads[..done + 1] == payloads[..done] + [payloads[done]];
      assert part <= Flat(payloads[done..]);
    }
  }

  /** The bytes send accepted are a prefix of the payloads in the order of the calls, and
      OnWriteComplete has been called once for every payload wholly in that prefix. */
  lemma SentIsPayloadPrefix(n: Net, fd: Fd)
    requires Valid(n) && fd in n.clients
    ensures var t := n.traffic[fd];
            && t.sent <= Flat(t.payloads)
            && t.notified <= |t.payloads|
            && Flat(t.payloads[..t.notified]) <= t.sent
            && (t.notified < |t.payloads| ==> |t.sent| < |Flat(t.payloads[..t.notified + 1])|)
  {
    assert ConnOk(n, AtRest, fd);
    var c, t := n.clients[fd], n.traffic[fd];
    assert t.notified < |t.payloads| ==> t.payloads[t.notified] == Bufs(c.wb)[0];
    hide Flat, Valid;
    SentReaches(t.payloads, t.notified, Partial(c.wb));
  }
}
