/** Stream reassembly from end to end: whatever the readiness events, short reads, callbacks, closes and
    accepts, what OnReadComplete is given is the peer's stream cut at the sizes asked for. */
module NetStreams {
  import opened Bytes
  import opened Stream
  import opened Epoll
  import opened NetModel
  import opened NetInvariants
  import opened NetHandlers
  import opened NetLifecycle
  import opened NetRuns

  /** For each live connection all the bytes its peer will ever send. */
  type Peers = map<Fd, seq<Byte>>

  function Received(n: Net): map<Fd, seq<Byte>> {
    map f | f in n.traffic :: n.traffic[f].received
  }

  predicate Prefixes(received: map<Fd, seq<Byte>>, peers: Peers) {
    received.Keys == peers.Keys && forall f | f in peers :: received[f] <= peers[f]
  }

  /** Every connection has received a prefix of its peer's stream. */
  predicate Behind(n: Net, peers: Peers) {
    Prefixes(Received(n), peers)
  }

  // ---------- what handlers do to the received bytes ----------

  lemma {:induction false} ServeReceives(n: Net, rs: seq<Request>)
    requires n.traffic.Keys == n.clients.Keys
    ensures Received(Serve(n, rs)) == Received(n)
    decreases |rs|
  {
    if rs != [] {
      Serve1KeepsShape(n, rs[0]);
      assert Received(Serve1(n, rs[0])) == Received(n);
      hide Serve1, Received;
      ServeReceives(Serve1(n, rs[0]), rs[1..]);
    }
  }

  lemma Deliver1Receives(n: Net, fd: Fd, b: Buffer, rs: seq<Request>)
    requires n.traffic.Keys == n.clients.Keys && fd in n.clients
    ensures Received(Deliver1(n, fd, b, rs)) == Received(n)
  {
    hide Serve;
    var t := n.traffic[fd];
    var n0 := n.(traffic := n.traffic[fd := t.(delivered := t.delivered + [b.buf])]);
    assert Received(n0) == Received(n);
    ServeReceives(n0, rs);
    assert Received(Deliver1(n, fd, b, rs)) == Received(Serve(n0, rs));
  }

  lemma {:induction false} DeliverReceives(n: Net, fd: Fd, complete: seq<Buffer>, cbs: Callbacks)
    requires n.traffic.Keys == n.clients.Keys && fd in n.clients
    ensures Received(Deliver(n, fd, complete, cbs)) == Received(n)
    decreases |complete|
  {
    if complete != [] {
      Deliver1Receives(n, fd, complete[0], First(cbs));
      hide Deliver1, Received;
      DeliverReceives(Deliver1(n, fd, complete[0], First(cbs)), fd, complete[1..], Rest(cbs));
    }
  }

  lemma Notify1Receives(n: Net, fd: Fd, b: Buffer, rs: seq<Request>)
    requires n.traffic.Keys == n.clients.Keys && fd in n.clients
    ensures Received(Notify1(n, fd, b, rs)) == Received(n)
  {
    hide Serve;
    assert Received(Told(n, fd)) == Received(n);
    ServeReceives(Told(n, fd), rs);
    assert Received(Notify1(n, fd, b, rs)) == Received(Serve(Told(n, fd), rs));
  }

  lemma {:induction false} NotifyReceives(n: Net, fd: Fd, complete: seq<Buffer>, cbs: Callbacks)
    requires n.traffic.Keys == n.clients.Keys && fd in n.clients
    ensures Received(Notify(n, fd, complete, cbs)) == Received(n)
    decreases |complete|
  {
    if complete != [] {
      Notify1Receives(n, fd, complete[0], First(cbs));
      hide Notify1, Received;
      NotifyReceives(Notify1(n, fd, complete[0], First(cbs)), fd, complete[1..], Rest(cbs));
    }
  }

  /** OnRead takes from the socket exactly what its chain had room for, and all of it is kept. */
  lemma OnReadReceives(n: Net, fd: Fd, bytes: seq<Byte>, ending: Ending, cbs: Callbacks)
    requires n.traffic.Keys == n.clients.Keys && fd in n.clients && ChainOk(n.clients[fd].rb)
    ensures Received(OnRead(n, fd, bytes, ending, cbs))
         == Received(n)[fd := n.traffic[fd].received + bytes[..ReadChain(n.clients[fd].rb, bytes).2]]
  {
    hide Deliver, ReadChain;
    DeliverReceives(AfterReading(n, fd, bytes, ending), fd, ReadChain(n.clients[fd].rb, bytes).0, cbs);
  }

  lemma OnWriteReceives(n: Net, fd: Fd, room: nat, cbs: Callbacks)
    requires n.traffic.Keys == n.clients.Keys && fd in n.clients && ChainOk(n.clients[fd].wb)
    ensures Received(OnWrite(n, fd, room, cbs)) == Received(n)
  {
    hide Notify, WriteChain;
    NotifyReceives(AfterWriting(n, fd, room), fd, WriteChain(n.clients[fd].wb, room).0, cbs);
  }

  lemma KeysAgree(n: Net)
    requires Valid(n)
    ensures n.traffic.Keys == n.clients.Keys
  {
  }

  lemma BeforeClearingReceives(n: Net, fd: Fd, rs: seq<Request>)
    requires n.traffic.Keys == n.clients.Keys
    ensures Received(BeforeClearing(n, fd, rs)) == Received(n)
  {
    hide Serve;
    ServeReceives(n.(events := WithoutConn(n.events, fd)), rs);
  }

  lemma ClearSessionReceives(n: Net, fd: Fd)
    requires fd in n.clients && n.clients[fd].listenfd in n.listeners
    requires n.listeners[n.clients[fd].listenfd].currentconns > 0
    ensures Received(ClearSession(n, fd)) == Received(n) - {fd}
  {
  }

  lemma OnCloseReceives(n: Net, fd: Fd, rs: seq<Request>)
    requires Valid(n) && fd in n.clients
    ensures Received(OnClose(n, fd, rs)) == Received(n) - {fd}
  {
    KeysAgree(n);
    hide Valid, OnClose, BeforeClearing, ClearSession, Received;
    OnCloseInSteps(n, fd, rs);
    BeforeClearingReceives(n, fd, rs);
    ClearSessionReceives(BeforeClearing(n, fd, rs), fd);
  }

  lemma AddNewConnReceives(n: Net, fd: Fd, listenfd: Fd, rs: seq<Request>)
    requires n.traffic.Keys == n.clients.Keys && listenfd in n.listeners
    ensures Received(AddNewConn(n, fd, listenfd, rs)) == Received(n)[fd := []]
  {
    ServeListeners(Entered(n, fd, listenfd), rs);
    ServeReceives(Entered(n, fd, listenfd), rs);
    hide Serve;
    assert Received(Entered(n, fd, listenfd)) == Received(n)[fd := []];
  }

  /** The connections that are new bring their peers' streams. */
  function PeersAccepting(peers: Peers, accepted: seq<Accepted>): (peers': Peers)
    ensures peers.Keys <= peers'.Keys && forall f | f in peers :: peers'[f] == peers[f]
    decreases |accepted|
  {
    if accepted == [] then peers else
      var a := accepted[0];
      PeersAccepting(if a.fd in peers then peers else peers[a.fd := a.stream], accepted[1..])
  }

  lemma {:induction false} AcceptAllReceives(n: Net, peers: Peers, listenfd: Fd, accepted: seq<Accepted>)
    requires n.traffic.Keys == n.clients.Keys && listenfd in n.listeners && Behind(n, peers)
    ensures var n' := AcceptAll(n, listenfd, accepted);
            Behind(n', PeersAccepting(peers, accepted)) && Extends(Received(n'), Received(n))
    decreases |accepted|
  {
    if accepted != [] {
      var a := accepted[0];
      assert a.fd in peers <==> a.fd in n.clients;
      if a.fd in n.clients {
        AcceptAllReceives(n, peers, listenfd, accepted[1..]);
      } else {
        AddNewConnReceives(n, a.fd, listenfd, a.rs);
        NewPeer(Received(n), peers, a.fd, a.stream);
        hide AddNewConn, Received, Prefixes;
        AcceptAllReceives(AddNewConn(n, a.fd, listenfd, a.rs), peers[a.fd := a.stream], listenfd, accepted[1..]);
      }
    }
  }

  predicate Extends(received': map<Fd, seq<Byte>>, received: map<Fd, seq<Byte>>) {
    forall f | f in received :: f in received' && received'[f] == received[f]
  }

  lemma NewPeer(received: map<Fd, seq<Byte>>, peers: Peers, fd: Fd, stream: seq<Byte>)
    requires Prefixes(received, peers) && fd !in peers
    ensures Prefixes(received[fd := []], peers[fd := stream]) && Extends(received[fd := []], received)
  {
  }

  // ---------- one descriptor ----------

  /** A connection's socket has bytes only that come next in the peer's stream. */
  predicate Offers(received: map<Fd, seq<Byte>>, peers: Peers, listeners: set<Fd>, r: Ready) {
    r.fd !in listeners && r.input ==>
      r.fd in received && r.fd in peers && received[r.fd] + r.bytes <= peers[r.fd]
  }

  function PeersAfter(peers: Peers, listeners: set<Fd>, r: Ready): Peers {
    if r.fd in listeners then PeersAccepting(peers, r.accepted)
    else if r.error || r.hup then peers - {r.fd}
    else peers
  }

  lemma PeerSends(received: map<Fd, seq<Byte>>, peers: Peers, fd: Fd, bytes: seq<Byte>, used: nat)
    requires Prefixes(received, peers) && fd in received && received[fd] + bytes <= peers[fd] && used <= |bytes|
    ensures Prefixes(received[fd := received[fd] + bytes[..used]], peers)
    ensures Extends(received[fd := received[fd] + bytes[..used]] - {fd}, received - {fd})
  {
  }

  lemma AfterInputReceives(n: Net, peers: Peers, r: Ready)
    requires Valid(n) && Reported(n, r) && r.fd !in n.listeners
    requires Behind(n, peers) && Offers(Received(n), peers, n.listeners.Keys, r)
    ensures Behind(AfterInput(n, r), peers)
    ensures Extends(Received(AfterInput(n, r)) - {r.fd}, Received(n) - {r.fd})
  {
    KeysAgree(n);
    if r.input {
      hide Valid, OnRead, ReadChain, Prefixes, Extends;
      OnReadKeeps(n, r.fd, r.bytes, r.ending, r.readCbs);
      OnReadReceives(n, r.fd, r.bytes, r.ending, r.readCbs);
      PeerSends(Received(n), peers, r.fd, r.bytes, ReadChain(n.clients[r.fd].rb, r.bytes).2);
    }
  }

  lemma OnAcceptReceives(n: Net, peers: Peers, listenfd: Fd, accepted: seq<Accepted>)
    requires Valid(n) && listenfd in n.listeners && Behind(n, peers)
    ensures n.traffic.Keys == n.clients.Keys
    ensures Behind(OnAccept(n, listenfd, accepted), PeersAccepting(peers, accepted))
    ensures Extends(Received(OnAccept(n, listenfd, accepted)), Received(n))
  {
    KeysAgree(n);
    AcceptAllReceives(n, peers, listenfd, accepted);
    hide AcceptAll, Prefixes, Valid, Extends;
    assert OnAccept(n, listenfd, accepted).traffic == AcceptAll(n, listenfd, accepted).traffic;
  }

  lemma AfterOutputReceives(n: Net, r: Ready)
    requires Valid(n) && Reported(n, r.(input := false)) && r.fd !in n.listeners
    ensures Received(AfterOutput(n, r)) == Received(n)
  {
    KeysAgree(n);
    if r.output {
      hide Valid, OnWrite, Received;
      OnWriteKeeps(n, r.fd, r.room, r.writeCbs);
      OnWriteReceives(n, r.fd, r.room, r.writeCbs);
    }
  }

  lemma PeerLeaves(received: map<Fd, seq<Byte>>, peers: Peers, fd: Fd)
    requires Prefixes(received, peers)
    ensures Prefixes(received - {fd}, peers - {fd})
    ensures received - {fd} - {fd} == received - {fd}
  {
  }

  lemma CloseReceives(n: Net, peers: Peers, fd: Fd, rs: seq<Request>)
    requires Valid(n) && fd in n.clients && Behind(n, peers)
    ensures Behind(OnClose(n, fd, rs), peers - {fd})
    ensures Extends(Received(OnClose(n, fd, rs)) - {fd}, Received(n) - {fd})
  {
    hide Valid, OnClose, Received;
    OnCloseReceives(n, fd, rs);
    PeerLeaves(Received(n), peers, fd);
  }

  lemma TransferReceives(n: Net, peers: Peers, r: Ready)
    requires Valid(n) && Reported(n, r) && r.fd !in n.listeners
    requires Behind(n, peers) && Offers(Received(n), peers, n.listeners.Keys, r)
    ensures var n2 := AfterOutput(AfterInput(n, r), r);
            Behind(n2, peers) && Extends(Received(n2) - {r.fd}, Received(n) - {r.fd})
  {
    hide Valid, Reported, Received, Prefixes, Offers, AfterInput, AfterOutput, Extends;
    AfterInputReceives(n, peers, r);
    AfterOutputReceives(AfterInput(n, r), r);
  }

  lemma ExtendsChain(a: map<Fd, seq<Byte>>, b: map<Fd, seq<Byte>>, c: map<Fd, seq<Byte>>, fd: Fd)
    requires Extends(a - {fd}, b - {fd}) && Extends(b - {fd}, c - {fd})
    ensures Extends(a - {fd}, c - {fd})
  {
  }

  lemma ExtendsLess(a: map<Fd, seq<Byte>>, b: map<Fd, seq<Byte>>, fd: Fd)
    requires Extends(a, b)
    ensures Extends(a - {fd}, b - {fd})
  {
  }

  /** Handling one descriptor keeps every connection behind its peer, and moves no other connection's
      stream. */
  lemma DispatchReceives(n: Net, peers: Peers, r: Ready)
    requires Valid(n) && Reported(n, r)
    requires Behind(n, peers) && Offers(Received(n), peers, n.listeners.Keys, r)
    ensures Behind(Dispatch(n, r), PeersAfter(peers, n.listeners.Keys, r))
    ensures Extends(Received(Dispatch(n, r)) - {r.fd}, Received(n) - {r.fd})
  {
    hide Valid, OnClose, OnAccept, Received, Behind, Offers, AfterInput, AfterOutput, Extends, PeersAccepting;
    if r.fd in n.listeners {
      OnAcceptReceives(n, peers, r.fd, r.accepted);
      ExtendsLess(Received(OnAccept(n, r.fd, r.accepted)), Received(n), r.fd);
    } else if r.error {
      CloseReceives(n, peers, r.fd, r.closeRs);
    } else {
      TransferReceives(n, peers, r);
      if r.hup {
        var n2 := AfterOutput(AfterInput(n, r), r);
        CloseReceives(n2, peers, r.fd, r.closeRs);
        ExtendsChain(Received(OnClose(n2, r.fd, r.closeRs)), Received(n2), Received(n), r.fd);
      }
    }
  }

  // ---------- runs ----------

  /** Every report of a batch offers what comes next. */
  predicate BatchOffers(received: map<Fd, seq<Byte>>, peers: Peers, listeners: set<Fd>, ready: seq<Ready>) {
    forall r | r in ready :: Offers(received, peers, listeners, r)
  }

  // Nobody but the descriptor just handled has its stream moved, so the other reports stay good.
  lemma RestOffers(received: map<Fd, seq<Byte>>, peers: Peers, received': map<Fd, seq<Byte>>, peers': Peers,
                   listeners: set<Fd>, ready: seq<Ready>)
    requires BatchOffers(received, peers, listeners, ready) && ready != [] && DistinctFds(ready)
    requires Extends(received' - {ready[0].fd}, received - {ready[0].fd})
    requires Extends(peers' - {ready[0].fd}, peers - {ready[0].fd})
    ensures BatchOffers(received', peers', listeners, ready[1..])
  {
    forall r | r in ready[1..]
      ensures Offers(received', peers', listeners, r)
    {
      var j :| 0 <= j < |ready[1..]| && ready[1..][j] == r;
      assert ready[j + 1] == r && Offers(received, peers, listeners, r);
      if r.fd !in listeners && r.input {
        assert r.fd in received - {ready[0].fd} && r.fd in peers - {ready[0].fd};
      }
    }
  }

  ghost function PeersAfterBatch(n: Net, peers: Peers, ready: seq<Ready>): Peers
    requires Valid(n) && BatchOk(n, ready)
    decreases |ready|
  {
    if ready == [] then peers else
      FirstKeepsBatch(n, ready);
      PeersAfterBatch(Dispatch(n, ready[0]), PeersAfter(peers, n.listeners.Keys, ready[0]), ready[1..])
  }

  lemma PeersAfterExtends(peers: Peers, listeners: set<Fd>, r: Ready)
    ensures Extends(PeersAfter(peers, listeners, r) - {r.fd}, peers - {r.fd})
  {
  }

  lemma FirstKeepsOffers(n: Net, peers: Peers, ready: seq<Ready>)
    requires Valid(n) && BatchOk(n, ready) && ready != []
    requires Behind(n, peers) && BatchOffers(Received(n), peers, n.listeners.Keys, ready)
    ensures Reported(n, ready[0]) && Valid(Dispatch(n, ready[0])) && BatchOk(Dispatch(n, ready[0]), ready[1..])
    ensures var (n', peers') := (Dispatch(n, ready[0]), PeersAfter(peers, n.listeners.Keys, ready[0]));
            Behind(n', peers') && BatchOffers(Received(n'), peers', n'.listeners.Keys, ready[1..])
  {
    hide Dispatch, Valid, Received, Behind, PeersAfter, Extends, Offers, Reported;
    FirstKeepsBatch(n, ready);
    assert Offers(Received(n), peers, n.listeners.Keys, ready[0]);
    DispatchReceives(n, peers, ready[0]);
    PeersAfterExtends(peers, n.listeners.Keys, ready[0]);
    SameLimits(n, Dispatch(n, ready[0]));
    RestOffers(Received(n), peers, Received(Dispatch(n, ready[0])), PeersAfter(peers, n.listeners.Keys, ready[0]),
               n.listeners.Keys, ready);
  }

  lemma {:induction false} BatchReceives(n: Net, peers: Peers, ready: seq<Ready>)
    requires Valid(n) && BatchOk(n, ready)
    requires Behind(n, peers) && BatchOffers(Received(n), peers, n.listeners.Keys, ready)
    ensures Behind(RunBatch(n, ready), PeersAfterBatch(n, peers, ready))
    decreases |ready|
  {
    hide Dispatch, Valid, BatchOk, Received, Prefixes, Behind, PeersAfter, BatchOffers;
    if ready != [] {
      FirstKeepsOffers(n, peers, ready);
      BatchReceives(Dispatch(n, ready[0]), PeersAfter(peers, n.listeners.Keys, ready[0]), ready[1..]);
    }
  }

  /** The sockets of a round offer what comes next in their peers' streams, however much of it there is. */
  predicate RoundOffers(n: Net, peers: Peers, round: Round) {
    round.Batch? ==> BatchOffers(Received(n), peers, n.listeners.Keys, round.ready)
  }

  ghost function PeersAfterRound(n: Net, peers: Peers, round: Round): Peers
    requires Valid(n) && RoundOk(n, round)
  {
    if round.Batch? then PeersAfterBatch(n, peers, round.ready) else peers
  }

  lemma RoundReceives(n: Net, peers: Peers, round: Round)
    requires Valid(n) && RoundOk(n, round) && Behind(n, peers) && RoundOffers(n, peers, round)
    ensures Behind(RunRound(n, round), PeersAfterRound(n, peers, round))
  {
    KeysAgree(n);
    hide Valid, Received, BatchOk, BatchOffers, Prefixes, RunBatch;
    match round
    case Timeout(rs) => ServeReceives(n, rs);
    case Batch(ready) => BatchReceives(n, peers, ready);
  }

  ghost predicate Offered(n: Net, peers: Peers, rounds: seq<Round>)
    requires Valid(n) && Possible(n, rounds)
    decreases |rounds|
  {
    rounds == [] ||
    (RoundOffers(n, peers, rounds[0]) && Offered(RunRound(n, rounds[0]), PeersAfterRound(n, peers, rounds[0]), rounds[1..]))
  }

  ghost function PeersAfterRun(n: Net, peers: Peers, rounds: seq<Round>): Peers
    requires Valid(n) && Possible(n, rounds)
    decreases |rounds|
  {
    if rounds == [] then peers
    else PeersAfterRun(RunRound(n, rounds[0]), PeersAfterRound(n, peers, rounds[0]), rounds[1..])
  }

  lemma {:induction false} RunReceives(n: Net, peers: Peers, rounds: seq<Round>)
    requires Valid(n) && Possible(n, rounds) && Behind(n, peers) && Offered(n, peers, rounds)
    ensures Behind(RunLoop(n, rounds), PeersAfterRun(n, peers, rounds))
    decreases |rounds|
  {
    hide Valid, RunRound, RoundOk, Behind, RoundOffers, PeersAfterRound;
    if rounds != [] {
      RoundReceives(n, peers, rounds[0]);
      RunReceives(RunRound(n, rounds[0]), PeersAfterRound(n, peers, rounds[0]), rounds[1..]);
    }
  }

  /** Stream reassembly over every run of the event loop from its start: for each connection still open,
      the i-th buffer handed to OnReadComplete is the part of the peer's stream that begins where the
      sizes asked for before end, and is as long as the i-th size. How the socket cut its bytes and when
      it became ready make no difference. */
  lemma DeliveredIsPeersStream(n: Net, rounds: seq<Round>, fd: Fd, i: nat)
    requires Initial(n) && Valid(n) && Possible(n, rounds) && Offered(n, map[], rounds)
    requires fd in RunLoop(n, rounds).clients && fd in RunLoop(n, rounds).traffic
    requires i < |RunLoop(n, rounds).traffic[fd].delivered|
    ensures fd in PeersAfterRun(n, map[], rounds)
    ensures var t, stream := RunLoop(n, rounds).traffic[fd], PeersAfterRun(n, map[], rounds)[fd];
            && i < |t.asked| && Sum(t.asked[..i]) + t.asked[i] <= |stream|
            && t.delivered[i] == stream[Sum(t.asked[..i])..][..t.asked[i]]
  {
    var n' := RunLoop(n, rounds);
    assert Behind(n, map[]);
    RunReceives(n, map[], rounds);
    DeliveredIsCutStream(n', fd, i);
    hide Valid, Possible, Offered, RunLoop, PeersAfterRun, Initial;
    var t, stream := n'.traffic[fd], PeersAfterRun(n, map[], rounds)[fd];
    assert Received(n')[fd] == t.received <= stream;
    PartOfPrefix(t.received, stream, Sum(t.asked[..i]), t.asked[i]);
  }

  lemma PartOfPrefix(received: seq<Byte>, stream: seq<Byte>, from: nat, len: nat)
    requires received <= stream && from + len <= |received|
    ensures received[from..][..len] == stream[from..][..len]
  {
  }
}
