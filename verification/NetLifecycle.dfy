/** Connections come and go: closing and accepting keep the invariants and the listeners' counts. */
module NetLifecycle {
  import opened Bytes
  import opened Stream
  import opened Epoll
  import opened NetModel
  import opened NetPools
  import opened NetInvariants
  import opened NetHandlers

  // ---------- closing ----------

  function Closing(fd: Fd): Midway {
    Midway(fd, [], 0, [], [], {fd})
  }

  lemma DeregisterConn(n: Net, fd: Fd)
    requires ConnsOk(n, AtRest) && fd in n.clients
    ensures ConnOk(n.(events := WithoutConn(n.events, fd)), Closing(fd), fd)
  {
  }

  lemma DeregisterOthers(n: Net, fd: Fd)
    requires ConnsOk(n, AtRest) && fd in n.clients
    requires ConnOk(n.(events := WithoutConn(n.events, fd)), Closing(fd), fd)
    ensures ConnsOk(n.(events := WithoutConn(n.events, fd)), Closing(fd))
  {
    hide ConnOk;
    OneConnChanges(n, AtRest, n.(events := WithoutConn(n.events, fd)), Closing(fd), fd);
  }

  lemma DeregisterKeeps(n: Net, fd: Fd)
    requires ConnsOk(n, AtRest) && PoolsOk(n, AtRest) && fd in n.clients
    ensures var n' := n.(events := WithoutConn(n.events, fd));
            ConnsOk(n', Closing(fd)) && PoolsOk(n', Closing(fd))
  {
    var n' := n.(events := WithoutConn(n.events, fd));
    DeregisterConn(n, fd);
    DeregisterOthers(n, fd);
    hide ConnsOk, PoolsOk;
    PoolsFrame(n, AtRest, n', Closing(fd));
  }

  lemma DeregisterBooks(n: Net, fd: Fd)
    requires CountsOk(n) && AdmissionOk(n) && fd in n.clients
    ensures var n' := n.(events := WithoutConn(n.events, fd)); CountsOk(n') && AdmissionOk(n')
  {
  }

  lemma BeforeClearingKeeps(n: Net, fd: Fd, rs: seq<Request>)
    requires Valid(n) && fd in n.clients
    ensures var n' := BeforeClearing(n, fd, rs);
            && ConnsOk(n', Closing(fd)) && PoolsOk(n', Closing(fd)) && CountsOk(n') && AdmissionOk(n')
            && fd in n'.clients && n'.clients.Keys == n.clients.Keys && n'.listeners == n.listeners
            && OthersKeepInterest(n, n', fd)
  {
    var n1 := n.(events := WithoutConn(n.events, fd));
    DeregisterKeeps(n, fd);
    DeregisterBooks(n, fd);
    hide ConnsOk, PoolsOk, CountsOk, AdmissionOk;
    ServeKeeps(n1, Closing(fd), rs);
    ShapeKeepsBooks(n1, Serve(n1, rs));
    SameBooksKeepCounts(n1, Serve(n1, rs));
  }

  /** The count of a live connection's listener never underflows. */
  lemma CountIsPositive(n: Net, fd: Fd)
    requires CountsOk(n) && fd in n.clients
    ensures n.clients[fd].listenfd in n.listeners
    ensures n.listeners[n.clients[fd].listenfd].currentconns > 0
  {
    assert fd in Members(n, n.clients[fd].listenfd);
  }

  lemma ClearSessionConns(n: Net, fd: Fd)
    requires ConnsOk(n, Closing(fd)) && CountsOk(n) && fd in n.clients
    requires n.clients[fd].listenfd in n.listeners && n.listeners[n.clients[fd].listenfd].currentconns > 0
    ensures ConnsOk(ClearSession(n, fd), AtRest)
  {
    var n' := ClearSession(n, fd);
    forall f | f in n'.clients
      ensures ConnOk(n', AtRest, f)
    {
      assert ConnOk(n, Closing(fd), f);
      hide ConnOk;
      SameConnOk(n, Closing(fd), n', AtRest, f);
    }
  }

  lemma ClearSessionPools(n: Net, fd: Fd)
    requires PoolsOk(n, Closing(fd)) && fd in n.clients
    requires n.clients[fd].listenfd in n.listeners && n.listeners[n.clients[fd].listenfd].currentconns > 0
    ensures PoolsOk(ClearSession(n, fd), AtRest)
  {
    hide PoolOk;
    ClearKeepsPool(n.rpool, ReadChains(n), fd);
    ClearKeepsPool(n.wpool, WriteChains(n), fd);
    assert ReadChains(ClearSession(n, fd)) == ReadChains(n) - {fd};
    assert WriteChains(ClearSession(n, fd)) == WriteChains(n) - {fd};
  }

  lemma ClearSessionBooks(n: Net, fd: Fd)
    requires CountsOk(n) && AdmissionOk(n) && fd in n.clients && fd !in n.events
    requires n.clients[fd].listenfd in n.listeners && n.listeners[n.clients[fd].listenfd].currentconns > 0
    ensures CountsOk(ClearSession(n, fd)) && AdmissionOk(ClearSession(n, fd))
  {
    var n' := ClearSession(n, fd);
    forall l ensures |Members(n, l)| == |Members(n', l)| + (if l == n.clients[fd].listenfd then 1 else 0) {
      ClearedMembers(n, fd, l);
    }
    hide Members, PutIntoPool, Ids;
  }

  lemma ClearedMembers(n: Net, fd: Fd, l: Fd)
    requires fd in n.clients && n.clients[fd].listenfd in n.listeners
    requires n.listeners[n.clients[fd].listenfd].currentconns > 0
    ensures |Members(n, l)| == |Members(ClearSession(n, fd), l)| + (if l == n.clients[fd].listenfd then 1 else 0)
  {
    hide PutIntoPool, Ids;
    assert Members(n, l) == Members(ClearSession(n, fd), l) + (if l == n.clients[fd].listenfd then {fd} else {});
  }

  lemma ClearSessionInterest(n: Net, fd: Fd)
    requires fd in n.clients
    requires n.clients[fd].listenfd in n.listeners && n.listeners[n.clients[fd].listenfd].currentconns > 0
    ensures OthersKeepInterest(n, ClearSession(n, fd), fd)
    ensures ClearSession(n, fd).clients.Keys == n.clients.Keys - {fd}
    ensures Limits(ClearSession(n, fd)) == Limits(n)
  {
  }

  /** OnClose and OnError, which differ only in the callback they make. */
  ghost function OnClose(n: Net, fd: Fd, rs: seq<Request>): Net
    requires Valid(n) && fd in n.clients
  {
    BeforeClearingKeeps(n, fd, rs);
    CountIsPositive(BeforeClearing(n, fd, rs), fd);
    ClearSession(BeforeClearing(n, fd, rs), fd)
  }

  lemma UnknownIsUnregistered(n: Net, fd: Fd)
    requires Valid(n) && fd !in n.clients && fd !in n.listeners
    ensures n.(events := WithoutConn(n.events, fd)) == n
  {
    assert WithoutConn(n.events, fd) == n.events;
  }

  lemma OnCloseInSteps(n: Net, fd: Fd, rs: seq<Request>)
    requires Valid(n) && fd in n.clients
    ensures var n1 := BeforeClearing(n, fd, rs);
            && fd in n1.clients && n1.clients[fd].listenfd in n1.listeners
            && n1.listeners[n1.clients[fd].listenfd].currentconns > 0
            && OnClose(n, fd, rs) == ClearSession(n1, fd)
  {
    BeforeClearingKeeps(n, fd, rs);
    hide Valid, ConnsOk, PoolsOk, CountsOk, AdmissionOk, BeforeClearing, ClearSession;
    CountIsPositive(BeforeClearing(n, fd, rs), fd);
  }

  lemma OnCloseKeeps(n: Net, fd: Fd, rs: seq<Request>)
    requires Valid(n) && fd in n.clients
    ensures var n' := OnClose(n, fd, rs);
            && Valid(n') && OthersKeepInterest(n, n', fd)
            && n'.clients.Keys == n.clients.Keys - {fd} && Limits(n') == Limits(n)
  {
    var n1 := BeforeClearing(n, fd, rs);
    BeforeClearingKeeps(n, fd, rs);
    CountIsPositive(n1, fd);
    assert fd !in n1.events by { assert ConnOk(n1, Closing(fd), fd); }
    hide ConnsOk, PoolsOk, CountsOk, AdmissionOk, BeforeClearing, ClearSession;
    ClearSessionConns(n1, fd);
    ClearSessionPools(n1, fd);
    ClearSessionBooks(n1, fd);
    ClearSessionInterest(n1, fd);
  }

  // ---------- accepting ----------

  /** The counts while a new connection of `listenfd` is served but not counted yet. */
  ghost predicate CountsOkBut(n: Net, listenfd: Fd) {
    && n.clients.Keys !! n.listeners.Keys
    && n.events.Keys <= n.clients.Keys + n.listeners.Keys
    && (forall f | f in n.clients :: n.clients[f].listenfd in n.listeners)
    && (forall l | l in n.listeners :: |Members(n, l)| == n.listeners[l].currentconns + (if l == listenfd then 1 else 0))
  }

  /** Registration is right but for `listenfd`, which stays registered if it still may accept. */
  ghost predicate AdmissionOkBut(n: Net, listenfd: Fd) {
    && (forall l | l in n.listeners && l != listenfd :: l in n.events <==> Admits(n.listeners[l]))
    && (forall l | l in n.listeners && l in n.events :: n.events[l] == {RdHup, In})
    && (listenfd in n.listeners && Admits(n.listeners[listenfd]) ==> listenfd in n.events)
  }

  lemma EnteredConns(n: Net, fd: Fd, listenfd: Fd)
    requires ConnsOk(n, AtRest) && fd !in n.clients && fd !in n.events
    ensures ConnsOk(Entered(n, fd, listenfd), AtRest)
  {
    var n' := Entered(n, fd, listenfd);
    assert NoTraffic.delivered + [] == [];
    assert Flat([]) == [] && Lengths([]) + Totals([]) == [] && Bufs([]) == [];
    assert NoTraffic.payloads[0..] == [] == NoTraffic.payloads[..0];
    assert ConnOk(n', AtRest, fd);
    forall f | f in n'.clients && f != fd
      ensures ConnOk(n', AtRest, f)
    {
      assert ConnOk(n, AtRest, f);
      hide ConnOk;
      SameConnOk(n, AtRest, n', AtRest, f);
    }
  }

  lemma EnteredPools(n: Net, fd: Fd, listenfd: Fd)
    requires PoolsOk(n, AtRest) && fd !in n.clients
    ensures PoolsOk(Entered(n, fd, listenfd), AtRest)
  {
    hide PoolOk;
    NewChainKeepsPool(n.rpool, ReadChains(n), fd);
    NewChainKeepsPool(n.wpool, WriteChains(n), fd);
    assert ReadChains(Entered(n, fd, listenfd)) == ReadChains(n)[fd := []];
    assert WriteChains(Entered(n, fd, listenfd)) == WriteChains(n)[fd := []];
  }

  lemma EnteredMembers(n: Net, fd: Fd, listenfd: Fd, l: Fd)
    requires fd !in n.clients
    ensures |Members(Entered(n, fd, listenfd), l)| == |Members(n, l)| + (if l == listenfd then 1 else 0)
  {
    assert Members(Entered(n, fd, listenfd), l) == Members(n, l) + (if l == listenfd then {fd} else {});
  }

  lemma EnteredBooks(n: Net, fd: Fd, listenfd: Fd)
    requires CountsOk(n) && AdmissionOkBut(n, listenfd) && fd !in n.clients && fd !in n.listeners && listenfd in n.listeners
    ensures CountsOkBut(Entered(n, fd, listenfd), listenfd) && AdmissionOkBut(Entered(n, fd, listenfd), listenfd)
  {
    hide Members, Admits;
    forall l ensures |Members(Entered(n, fd, listenfd), l)| == |Members(n, l)| + (if l == listenfd then 1 else 0) {
      EnteredMembers(n, fd, listenfd, l);
    }
  }

  lemma SameBooksKeepCountsBut(n: Net, n': Net, listenfd: Fd)
    requires SameBooks(n, n') && CountsOkBut(n, listenfd) && AdmissionOkBut(n, listenfd)
    ensures CountsOkBut(n', listenfd) && AdmissionOkBut(n', listenfd)
  {
    forall l | l in n.listeners
      ensures Members(n', l) == Members(n, l)
    {
      assert forall f :: f in Members(n', l) <==> f in Members(n, l);
    }
  }

  lemma CountedBooks(n: Net, listenfd: Fd)
    requires CountsOkBut(n, listenfd) && AdmissionOkBut(n, listenfd) && listenfd in n.listeners
    ensures CountsOk(Counted(n, listenfd)) && AdmissionOkBut(Counted(n, listenfd), listenfd)
  {
  }

  /** What is kept from one accepted connection to the next. */
  ghost predicate Accepting(n: Net, listenfd: Fd) {
    && n.traffic.Keys == n.clients.Keys && listenfd in n.listeners
    && ConnsOk(n, AtRest) && PoolsOk(n, AtRest) && CountsOk(n) && AdmissionOkBut(n, listenfd)
  }

  lemma EnterAndServe(n: Net, fd: Fd, listenfd: Fd, rs: seq<Request>)
    requires Accepting(n, listenfd) && fd !in n.clients && fd !in n.listeners
    ensures var n' := Serve(Entered(n, fd, listenfd), rs);
            && ConnsOk(n', AtRest) && PoolsOk(n', AtRest) && CountsOkBut(n', listenfd) && AdmissionOkBut(n', listenfd)
            && n'.clients.Keys == n.clients.Keys + {fd} && n'.listeners == n.listeners && AllKeepInterest(n, n')
  {
    var n1 := Entered(n, fd, listenfd);
    assert fd !in n.events && AllKeepInterest(n, n1) && n1.clients.Keys == n.clients.Keys + {fd} && n1.listeners == n.listeners;
    hide ConnsOk, PoolsOk, Entered, CountsOkBut, AdmissionOkBut;
    EnteredConns(n, fd, listenfd);
    EnteredPools(n, fd, listenfd);
    EnteredBooks(n, fd, listenfd);
    ServeKeeps(n1, AtRest, rs);
    ShapeKeepsBooks(n1, Serve(n1, rs));
    SameBooksKeepCountsBut(n1, Serve(n1, rs), listenfd);
  }

  lemma CountedSpares(n: Net, listenfd: Fd)
    requires listenfd in n.listeners
    ensures var n' := Counted(n, listenfd);
            && AllKeepInterest(n, n') && Limits(n') == Limits(n)
            && n'.clients == n.clients && n'.traffic == n.traffic && n'.events == n.events
            && n'.rpool == n.rpool && n'.wpool == n.wpool
  {
  }

  lemma CountedKeeps(n: Net, listenfd: Fd)
    requires ConnsOk(n, AtRest) && PoolsOk(n, AtRest) && CountsOkBut(n, listenfd) && AdmissionOkBut(n, listenfd)
    requires listenfd in n.listeners
    ensures Accepting(Counted(n, listenfd), listenfd) && AllKeepInterest(n, Counted(n, listenfd))
    ensures Limits(Counted(n, listenfd)) == Limits(n) && Counted(n, listenfd).clients == n.clients
  {
    hide PoolsOk, CountsOk, CountsOkBut, AdmissionOkBut, ConnOk;
    CountedBooks(n, listenfd);
    CountedSpares(n, listenfd);
    ConnsFrame(n, AtRest, Counted(n, listenfd), AtRest);
    PoolsFrame(n, AtRest, Counted(n, listenfd), AtRest);
  }

  lemma AddNewConnKeeps(n: Net, fd: Fd, listenfd: Fd, rs: seq<Request>)
    requires Accepting(n, listenfd) && fd !in n.clients && fd !in n.listeners
    ensures var n' := AddNewConn(n, fd, listenfd, rs);
            && Accepting(n', listenfd) && Limits(n') == Limits(n)
            && n'.clients.Keys == n.clients.Keys + {fd} && AllKeepInterest(n, n')
  {
    var n2 := Serve(Entered(n, fd, listenfd), rs);
    EnterAndServe(n, fd, listenfd, rs);
    hide ConnsOk, PoolsOk, CountsOk, CountsOkBut, AdmissionOkBut, Serve, Entered, Accepting, Counted;
    CountedKeeps(n2, listenfd);
  }

  lemma {:induction false} AcceptAllKeeps(n: Net, listenfd: Fd, accepted: seq<Accepted>)
    requires Accepting(n, listenfd)
    requires forall a | a in accepted :: a.fd !in n.listeners
    ensures var n' := AcceptAll(n, listenfd, accepted);
            && Accepting(n', listenfd) && Limits(n') == Limits(n)
            && n.clients.Keys <= n'.clients.Keys && AllKeepInterest(n, n')
    decreases |accepted|
  {
    hide ConnsOk, PoolsOk, CountsOk, AdmissionOkBut, AddNewConn;
    if accepted != [] {
      var a := accepted[0];
      if a.fd !in n.clients {
        AddNewConnKeeps(n, a.fd, listenfd, a.rs);
        AcceptAllKeeps(AddNewConn(n, a.fd, listenfd, a.rs), listenfd, accepted[1..]);
      } else {
        AcceptAllKeeps(n, listenfd, accepted[1..]);
      }
    }
  }

  lemma OnAcceptKeeps(n: Net, listenfd: Fd, accepted: seq<Accepted>)
    requires Valid(n) && listenfd in n.listeners
    requires forall a | a in accepted :: a.fd !in n.listeners
    ensures var n' := OnAccept(n, listenfd, accepted);
            && Valid(n') && Limits(n') == Limits(n)
            && n.clients.Keys <= n'.clients.Keys && AllKeepInterest(n, n')
  {
    if accepted != [] {
      var n1, n' := AcceptAll(n, listenfd, accepted), OnAccept(n, listenfd, accepted);
      hide ConnsOk, PoolsOk;
      AcceptAllKeeps(n, listenfd, accepted);
      OffIfFull(n1, listenfd);
    }
  }

  lemma OffIfFull(n: Net, listenfd: Fd)
    requires Accepting(n, listenfd)
    ensures var li := n.listeners[listenfd];
            var n' := n.(events := if li.maxconns > 0 && li.currentconns >= li.maxconns then WithoutConn(n.events, listenfd)
                                   else n.events);
            Valid(n') && AllKeepInterest(n, n')
  {
    hide ConnOk, Members, PoolOk;
    var n' := n.(events := WithoutConn(n.events, listenfd));
    assert listenfd !in n.clients;
    forall f | f in n.clients
      ensures ConnOk(n', AtRest, f)
    {
      SameConnOk(n, AtRest, n', AtRest, f);
    }
    OffMembers(n, listenfd);
    PoolsFrame(n, AtRest, n', AtRest);
  }

  lemma OffMembers(n: Net, listenfd: Fd)
    ensures forall l :: Members(n.(events := WithoutConn(n.events, listenfd)), l) == Members(n, l)
  {
  }
}
