/** The event handler as the network server runs it: maps and chains updated in place, loops over
    chains and completed buffers, calls into epoll and the buffer pools. Every method is proved to do
    what the functions of `NetModel` say. */
module EventHandler {
  import opened Bytes
  import opened Stream
  import opened Epoll
  import opened NetModel
  import opened Network
  import opened ChainLoops
  import opened NetInvariants
  import opened NetHandlers
  import opened NetLifecycle
  import opened NetRuns
  import opened NetRequests
  import NetLedger

  const SIZE_POOLSIZE_DEFAULT: nat := 512

  /** The free list of a buffer pool, and how many buffers it has ever made. */
  class BufferPool {
    var free: seq<nat>
    var maxAllocCnt: nat

    ghost function State(): Pool
      reads this
    {
      Pool(free, maxAllocCnt)
    }

    // The source refuses a size below 1.
    constructor (poolsize: nat)
      requires 0 < poolsize
      ensures State() == Pool(seq(poolsize, i => i), poolsize)
    {
      free, maxAllocCnt := [], 0;
      new;
      for i := 0 to poolsize
        invariant State() == Pool(seq(i, j => j), i)
      {
        free := free + [i];
        maxAllocCnt := maxAllocCnt + 1;
      }
    }

    method GetFromPool() returns (id: nat)
      modifies this
      ensures (id, State()) == NetModel.GetFromPool(old(State()))
      ensures old(free) != [] ==> old(free) == [id] + free && maxAllocCnt == old(maxAllocCnt)
      ensures old(free) == [] ==> id == old(maxAllocCnt) && free == [] && maxAllocCnt == old(maxAllocCnt) + 1
    {
      if free == [] {
        id := maxAllocCnt;
        maxAllocCnt := maxAllocCnt + 1;
      } else {
        id := free[0];
        free := free[1..];
      }
    }

    method PutIntoPool(id: nat)
      modifies this
      ensures State() == NetModel.PutIntoPool(old(State()), [id])
      ensures free == old(free) + [id] && maxAllocCnt == old(maxAllocCnt)
    {
      free := free + [id];
    }
  }

  class EventHandler {
    var clients: map<Fd, Client>
    var listeners: map<Fd, ListenInfo>
    const demux: Epoll
    const rbpool: BufferPool
    const wbpool: BufferPool
    ghost var traffic: map<Fd, Traffic>

    ghost function Snapshot(): Net
      reads this, demux, rbpool, wbpool
    {
      Net(clients, traffic, listeners, demux.mapEvent, rbpool.State(), wbpool.State())
    }

    /** The parts belong together; what they hold is `Valid`'s business. */
    ghost predicate Wired()
      reads this, demux, rbpool, wbpool
    {
      demux.Valid() && rbpool != wbpool && traffic.Keys == clients.Keys
    }

    ghost predicate Valid()
      reads this, demux, rbpool, wbpool
    {
      Wired() && NetInvariants.Valid(Snapshot())
    }

    /** Starts with every listener idle, and registered by the epoll object it is given. */
    constructor Init(maxconns: map<Fd, nat>, d: Epoll)
      requires d.Valid() && d.mapEvent == (map l | l in maxconns :: {RdHup, In})
      ensures Valid() && demux == d && fresh(rbpool) && fresh(wbpool)
      ensures clients == map[] && listeners == map l | l in maxconns :: ListenInfo(maxconns[l], 0)
    {
      clients, traffic := map[], map[];
      listeners := map l | l in maxconns :: ListenInfo(maxconns[l], 0);
      demux := d;
      rbpool := new BufferPool(SIZE_POOLSIZE_DEFAULT);
      wbpool := new BufferPool(SIZE_POOLSIZE_DEFAULT);
      new;
      InitialIsValid(Snapshot());
    }

    // ---------- requests ----------

    method AsyncRead(fd: Fd, size: Size) returns (ok: bool)
      requires Wired()
      modifies this, demux, rbpool
      ensures Wired() && ok == (fd in old(clients))
      ensures Snapshot() == if ok then NetModel.AsyncRead(old(Snapshot()), fd, size) else old(Snapshot())
      ensures AllAsked(old(Snapshot()), Snapshot(), [ReadRequest(fd, size)])
    {
      Serve1Asks(Snapshot(), ReadRequest(fd, size));
      hide AllAsked;
      ok := fd in clients;
      if ok {
        var id := rbpool.GetFromPool();
        var ci, t := clients[fd], traffic[fd];
        clients := clients[fd := ci.(rb := ci.rb + [Buffer(id, seq(size, i => 0), size, 0)])];
        traffic := traffic[fd := t.(asked := t.asked + [size])];
        demux.AddEvent(fd, In);
      }
    }

    method AsyncWrite(fd: Fd, data: Payload) returns (ok: bool)
      requires Wired()
      modifies this, demux, wbpool
      ensures Wired() && ok == (fd in old(clients))
      ensures Snapshot() == if ok then NetModel.AsyncWrite(old(Snapshot()), fd, data) else old(Snapshot())
      ensures AllAsked(old(Snapshot()), Snapshot(), [WriteRequest(fd, data)])
    {
      Serve1Asks(Snapshot(), WriteRequest(fd, data));
      hide AllAsked;
      ok := fd in clients;
      if ok {
        var id := wbpool.GetFromPool();
        var ci, t := clients[fd], traffic[fd];
        clients := clients[fd := ci.(wb := ci.wb + [Buffer(id, data, |data|, 0)])];
        traffic := traffic[fd := t.(payloads := t.payloads + [data])];
        demux.AddEvent(fd, Out);
      }
    }

    /** A user callback, seen as the requests it makes. */
    method Callback(rs: seq<Request>)
      requires Wired()
      modifies this, demux, rbpool, wbpool
      ensures Wired() && Snapshot() == Serve(old(Snapshot()), rs)
      ensures AllAsked(old(Snapshot()), Snapshot(), rs)
    {
      hide AllAsked;
      ServeAsks(Snapshot(), rs);
      for i := 0 to |rs|
        invariant Wired() && Serve(Snapshot(), rs[i..]) == Serve(old(Snapshot()), rs)
      {
        var ok;
        match rs[i] {
          case ReadRequest(fd, size) => ok := AsyncRead(fd, size);
          case WriteRequest(fd, data) => ok := AsyncWrite(fd, data);
        }
        assert rs[i..][1..] == rs[i + 1..];
      }
    }

    // ---------- OnRead ----------

    /** The read loop: fills the chain from the socket, buffer by buffer, and withdraws the interest
        when the chain is done or the peer has closed. */
    method FillChain(fd: Fd, rbChain: seq<Buffer>, socket: Incoming)
      returns (chain: seq<Buffer>, complete: seq<Buffer>, closed: bool, left: Incoming, ghost used: nat)
      requires demux.Valid() && ChainOk(rbChain) && rbChain != []
      modifies demux
      ensures demux.Valid() && |chain| == |rbChain| && |complete| <= |chain| && used <= |socket.Bytes()|
      ensures ReadChain(rbChain, socket.Bytes()) == (complete, chain[|complete|..], used)
      ensures left.Bytes() == socket.Bytes()[used..] && left.ending == socket.ending
      ensures closed == (|complete| < |chain| && socket.ending.PeerClosed?)
      ensures demux.mapEvent == if closed || |complete| == |chain| then WithoutEvent(old(demux.mapEvent), fd, In)
                                else old(demux.mapEvent)
    {
      ghost var bytes := socket.Bytes();
      var i, more, iterEnd := 0, true, |rbChain| - 1;
      chain, complete, closed, left, used := rbChain, [], false, socket, 0;
      FillingStart(rbChain, bytes);
      hide Filling, ReadChain, Incoming.Bytes, WithoutEvent, Fill, ChainOk, Buffer.IsComplete, Buffer.GetLeft;
      while i < |chain| && more
        invariant demux.Valid() && |chain| == |rbChain| && i == |complete| <= |chain|
        invariant left.ending == socket.ending && used <= |bytes| && left.Bytes() == bytes[used..]
        invariant Filling(rbChain, bytes, chain, complete, used, more)
        invariant closed == (!more && socket.ending.PeerClosed?)
        invariant demux.mapEvent == if closed || i == |chain| then WithoutEvent(old(demux.mapEvent), fd, In) else old(demux.mapEvent)
        decreases |chain| - i, if more then 1 else 0
      {
        FillingStep(rbChain, bytes, chain, complete, used);
        var rb, peerClosedWhenRead;
        rb, peerClosedWhenRead, left := ReadInto(chain[i], left);
        used := |bytes| - |left.Bytes()|;
        chain := chain[i := rb];
        if peerClosedWhenRead {
          demux.DelEvent(fd, In);
          closed, more := true, false;
        } else {
          if rb.IsComplete() {
            complete := complete + [rb];
          }
          if i == iterEnd && rb.IsComplete() {
            demux.DelEvent(fd, In);
          }
          if !rb.IsComplete() {
            more := false;
          } else {
            i := i + 1;
          }
        }
      }
      FillingEnd(rbChain, bytes, chain, complete, used, more);
    }

    /** The first half of OnRead: the chain is filled and its completed buffers are taken out. */
    method ReadIntoChain(fd: Fd, socket: Incoming) returns (complete: seq<Buffer>, left: Incoming)
      requires Wired() && fd in clients && ChainOk(clients[fd].rb) && clients[fd].rb != []
      modifies this, demux
      ensures Wired() && Snapshot() == AfterReading(old(Snapshot()), fd, socket.Bytes(), socket.ending)
      ensures var r := ReadChain(old(clients[fd].rb), socket.Bytes());
              complete == r.0 && left.Bytes() == socket.Bytes()[r.2..] && left.ending == socket.ending
    {
      var ci, t := clients[fd], traffic[fd];
      var chain, closed;
      ghost var used;
      chain, complete, closed, left, used := FillChain(fd, ci.rb, socket);
      if |complete| == |chain| {
        chain := [];
      } else if complete != [] {
        chain := chain[|complete|..];
      }
      clients := clients[fd := ci.(rb := chain)];
      traffic := traffic[fd := t.(received := t.received + socket.Bytes()[..used], hungUp := t.hungUp || closed)];
    }

    /** One completed buffer goes to the callback and then to the pool. */
    method HandOutOne(fd: Fd, rb: Buffer, rs: seq<Request>)
      requires Wired() && fd in clients
      modifies this, demux, rbpool, wbpool
      ensures Wired() && Snapshot() == Deliver1(old(Snapshot()), fd, rb, rs) && clients.Keys == old(clients.Keys)
    {
      hide Serve;
      traffic := traffic[fd := traffic[fd].(delivered := traffic[fd].delivered + [rb.buf])];
      Callback(rs);
      rbpool.PutIntoPool(rb.id);
    }

    /** The second half of OnRead: the completed buffers in order. */
    method HandOut(fd: Fd, rbComplete: seq<Buffer>, cbs: Callbacks)
      requires Wired() && fd in clients
      modifies this, demux, rbpool, wbpool
      ensures Wired() && Snapshot() == Deliver(old(Snapshot()), fd, rbComplete, cbs)
    {
      var left := cbs;
      hide Deliver1;
      for k := 0 to |rbComplete|
        invariant Wired() && fd in clients
        invariant Deliver(Snapshot(), fd, rbComplete[k..], left) == Deliver(old(Snapshot()), fd, rbComplete, cbs)
      {
        HandOutOne(fd, rbComplete[k], First(left));
        left := Rest(left);
        assert rbComplete[k..][1..] == rbComplete[k + 1..];
      }
    }

    /** Input on a connection, whose chain must not be empty; for an unknown one an exception. `cbs`: what
        each OnReadComplete will ask for; `left`: what the handler leaves in the socket. */
    method OnRead(fd: Fd, socket: Incoming, cbs: Callbacks) returns (ok: bool, left: Incoming)
      requires Valid() && (fd in clients ==> clients[fd].rb != [])
      modifies this, demux, rbpool, wbpool
      ensures Valid() && ok == (fd in old(clients))
      ensures !ok ==> Snapshot() == old(Snapshot()) && left == socket
      ensures ok ==>
                && ChainOk(old(clients[fd].rb))
                && Snapshot() == NetModel.OnRead(old(Snapshot()), fd, socket.Bytes(), socket.ending, cbs)
                && left.Bytes() == socket.Bytes()[ReadChain(old(clients[fd].rb), socket.Bytes()).2..]
                && NetLedger.Book(Snapshot()) == NetLedger.Input(NetLedger.Book(old(Snapshot())), fd, socket.Bytes(), socket.ending, cbs)
    {
      ok, left := fd in clients, socket;
      if ok {
        OnReadKeeps(Snapshot(), fd, socket.Bytes(), socket.ending, cbs);
        NetLedger.OnReadOnBook(Snapshot(), fd, socket.Bytes(), socket.ending, cbs);
        hide NetInvariants.Valid, ReadChain, AfterReading, Deliver;
        var rbComplete;
        rbComplete, left := ReadIntoChain(fd, socket);
        HandOut(fd, rbComplete, cbs);
      }
    }

    // ---------- OnWrite ----------

    /** The write loop: sends from the chain, buffer by buffer, and withdraws the interest when the chain
        is done. */
    method DrainChain(fd: Fd, wbChain: seq<Buffer>, socket: Room)
      returns (chain: seq<Buffer>, complete: seq<Buffer>, sent: seq<Byte>, room: Room)
      requires demux.Valid() && ChainOk(wbChain) && wbChain != []
      modifies demux
      ensures demux.Valid() && |chain| == |wbChain| && |complete| <= |chain|
      ensures WriteChain(wbChain, Sum(socket)) == (complete, chain[|complete|..], sent) && |sent| + Sum(room) == Sum(socket)
      ensures demux.mapEvent == if |complete| == |chain| then WithoutEvent(old(demux.mapEvent), fd, Out) else old(demux.mapEvent)
    {
      var i, more, iterEnd := 0, true, |wbChain| - 1;
      chain, complete, sent, room := wbChain, [], [], socket;
      DrainingStart(wbChain, Sum(socket));
      hide Draining, WriteChain, Sum, WithoutEvent, ChainOk, Buffer.GetLeft;
      while i < |chain| && more
        invariant demux.Valid() && |chain| == |wbChain| && i == |complete| <= |chain|
        invariant Draining(wbChain, Sum(socket), chain, complete, sent, Sum(room), more)
        invariant |sent| + Sum(room) == Sum(socket)
        invariant demux.mapEvent == if i == |chain| then WithoutEvent(old(demux.mapEvent), fd, Out) else old(demux.mapEvent)
        decreases |chain| - i, if more then 1 else 0
      {
        DrainingStep(wbChain, Sum(socket), chain, complete, sent, Sum(room));
        var wb, part;
        wb, part, room := WriteFrom(chain[i], room);
        sent := sent + part;
        chain := chain[i := wb];
        if wb.IsComplete() {
          complete := complete + [wb];
        }
        if i == iterEnd && wb.IsComplete() {
          demux.DelEvent(fd, Out);
        }
        if !wb.IsComplete() {
          more := false;
        } else {
          i := i + 1;
        }
      }
      DrainingEnd(wbChain, Sum(socket), chain, complete, sent, Sum(room), more);
    }

    /** The first half of OnWrite: the chain is sent and its completed buffers are taken out. */
    method WriteFromChain(fd: Fd, socket: Room) returns (complete: seq<Buffer>, room: Room)
      requires Wired() && fd in clients && ChainOk(clients[fd].wb) && clients[fd].wb != []
      modifies this, demux
      ensures Wired() && Snapshot() == AfterWriting(old(Snapshot()), fd, Sum(socket))
      ensures var r := WriteChain(old(clients[fd].wb), Sum(socket));
              complete == r.0 && |r.2| + Sum(room) == Sum(socket)
    {
      var ci, t := clients[fd], traffic[fd];
      hide WriteChain, Sum, ChainOk;
      var chain, sent;
      chain, complete, sent, room := DrainChain(fd, ci.wb, socket);
      if |complete| == |chain| {
        chain := [];
      } else if complete != [] {
        chain := chain[|complete|..];
      }
      clients := clients[fd := ci.(wb := chain)];
      traffic := traffic[fd := t.(sent := t.sent + sent)];
    }

    method NotifyOne(fd: Fd, wb: Buffer, rs: seq<Request>)
      requires Wired() && fd in clients
      modifies this, demux, rbpool, wbpool
      ensures Wired() && Snapshot() == Notify1(old(Snapshot()), fd, wb, rs) && clients.Keys == old(clients.Keys)
    {
      hide Serve;
      traffic := traffic[fd := traffic[fd].(notified := traffic[fd].notified + 1)];
      Callback(rs);
      wbpool.PutIntoPool(wb.id);
    }

    /** The second half of OnWrite. */
    method NotifyAll(fd: Fd, wbComplete: seq<Buffer>, cbs: Callbacks)
      requires Wired() && fd in clients
      modifies this, demux, rbpool, wbpool
      ensures Wired() && Snapshot() == Notify(old(Snapshot()), fd, wbComplete, cbs)
    {
      var left := cbs;
      hide Notify1;
      for k := 0 to |wbComplete|
        invariant Wired() && fd in clients
        invariant Notify(Snapshot(), fd, wbComplete[k..], left) == Notify(old(Snapshot()), fd, wbComplete, cbs)
      {
        NotifyOne(fd, wbComplete[k], First(left));
        left := Rest(left);
        assert wbComplete[k..][1..] == wbComplete[k + 1..];
      }
    }

    /** Room for output on a connection, whose chain must not be empty; for an unknown one an exception.
        `cbs`: what each OnWriteComplete asks for; `room`: what the handler leaves unused. */
    method OnWrite(fd: Fd, socket: Room, cbs: Callbacks) returns (ok: bool, room: Room)
      requires Valid() && (fd in clients ==> clients[fd].wb != [])
      modifies this, demux, rbpool, wbpool
      ensures Valid() && ok == (fd in old(clients))
      ensures !ok ==> Snapshot() == old(Snapshot()) && room == socket
      ensures ok ==>
                && ChainOk(old(clients[fd].wb))
                && Snapshot() == NetModel.OnWrite(old(Snapshot()), fd, Sum(socket), cbs)
                && |WriteChain(old(clients[fd].wb), Sum(socket)).2| + Sum(room) == Sum(socket)
                && NetLedger.Book(Snapshot()) == NetLedger.Output(NetLedger.Book(old(Snapshot())), fd, Sum(socket), cbs)
    {
      ok, room := fd in clients, socket;
      if ok {
        OnWriteKeeps(Snapshot(), fd, Sum(socket), cbs);
        NetLedger.OnWriteOnBook(Snapshot(), fd, Sum(socket), cbs);
        hide NetInvariants.Valid, WriteChain, AfterWriting, Notify;
        var wbComplete;
        wbComplete, room := WriteFromChain(fd, socket);
        NotifyAll(fd, wbComplete, cbs);
      }
    }

    // ---------- OnClose, OnError ----------

    /** Registers or deregisters the listener when its count of connections calls for it. */
    method CheckMaxConnection(listenfd: Fd, newConnCheck: bool)
      requires Wired() && listenfd in listeners
      modifies demux
      ensures Wired()
      ensures var li := listeners[listenfd];
              demux.mapEvent ==
              if newConnCheck && li.maxconns > 0 && li.currentconns >= li.maxconns then WithoutConn(old(demux.mapEvent), listenfd)
              else if !newConnCheck && li.maxconns > 0 && li.currentconns < li.maxconns then WithConn(old(demux.mapEvent), listenfd, {In})
              else old(demux.mapEvent)
    {
      var maxconns, currentconns := listeners[listenfd].maxconns, listeners[listenfd].currentconns;
      if newConnCheck && maxconns > 0 && currentconns >= maxconns {
        demux.DelConn(listenfd);
      }
      if !newConnCheck && maxconns > 0 && currentconns < maxconns {
        demux.AddConn(listenfd, {In});
      }
    }

    method ClearSessionAndBuffer(fd: Fd)
      requires Wired() && fd in clients && clients[fd].listenfd in listeners
      requires listeners[clients[fd].listenfd].currentconns > 0
      modifies this, demux, rbpool, wbpool
      ensures Wired() && Snapshot() == ClearSession(old(Snapshot()), fd)
    {
      var ci := clients[fd];
      clients, traffic := clients - {fd}, traffic - {fd};
      var li := listeners[ci.listenfd];
      listeners := listeners[ci.listenfd := li.(currentconns := li.currentconns - 1)];
      CheckMaxConnection(ci.listenfd, false);
      ReturnAll(rbpool, ci.rb);
      ReturnAll(wbpool, ci.wb);
    }

    /** The first half of OnClose, up to the exception for an unknown descriptor. */
    method DeregisterAndTell(fd: Fd, rs: seq<Request>) returns (ok: bool)
      requires Wired()
      modifies this, demux, rbpool, wbpool
      ensures Wired() && ok == (fd in old(clients))
      ensures ok ==> Snapshot() == BeforeClearing(old(Snapshot()), fd, rs)
      ensures !ok ==> Snapshot() == old(Snapshot()).(events := WithoutConn(old(demux.mapEvent), fd))
    {
      hide Serve;
      demux.DelConn(fd);
      ok := fd in clients;
      if ok {
        Callback(rs);
      }
    }

    /** OnClose, and OnError, which differs only in the callback it makes. */
    method OnClose(fd: Fd, rs: seq<Request>) returns (ok: bool)
      requires Valid() && fd !in listeners
      modifies this, demux, rbpool, wbpool
      ensures Valid() && ok == (fd in old(clients))
      ensures Snapshot() == if ok then NetLifecycle.OnClose(old(Snapshot()), fd, rs) else old(Snapshot())
      ensures ok ==> NetLedger.Book(Snapshot()) == NetLedger.Closed(NetLedger.Book(old(Snapshot())), fd, rs)
    {
      if fd in clients {
        OnCloseKeeps(Snapshot(), fd, rs);
        OnCloseInSteps(Snapshot(), fd, rs);
        NetLedger.OnCloseOnBook(Snapshot(), fd, rs);
      } else {
        UnknownIsUnregistered(Snapshot(), fd);
      }
      hide NetInvariants.Valid, ClearSession, NetLifecycle.OnClose, BeforeClearing;
      ok := DeregisterAndTell(fd, rs);
      if ok {
        ClearSessionAndBuffer(fd);
      }
    }

    // ---------- OnAccept ----------

    method AddNewConn(fd: Fd, listenfd: Fd, rs: seq<Request>)
      requires Wired() && listenfd in listeners
      modifies this, demux, rbpool, wbpool
      ensures Wired() && Snapshot() == NetModel.AddNewConn(old(Snapshot()), fd, listenfd, rs)
    {
      clients := clients[fd := Client(listenfd, [], [])];
      traffic := traffic[fd := NoTraffic];
      demux.AddConn(fd, {});
      ServeListeners(Snapshot(), rs);
      Callback(rs);
      var li := listeners[listenfd];
      listeners := listeners[listenfd := li.(currentconns := li.currentconns + 1)];
    }

    method AddAll(listenfd: Fd, accepted: seq<Accepted>)
      requires Wired() && listenfd in listeners
      modifies this, demux, rbpool, wbpool
      ensures Wired() && Snapshot() == AcceptAll(old(Snapshot()), listenfd, accepted)
    {
      hide NetModel.AddNewConn;
      for k := 0 to |accepted|
        invariant Wired() && listenfd in listeners
        invariant AcceptAll(Snapshot(), listenfd, accepted[k..]) == AcceptAll(old(Snapshot()), listenfd, accepted)
      {
        var a := accepted[k];
        if a.fd !in clients {
          AddNewConn(a.fd, listenfd, a.rs);
        }
        assert accepted[k..][1..] == accepted[k + 1..];
      }
    }

    method AddAllAndCheck(listenfd: Fd, accepted: seq<Accepted>)
      requires Wired() && listenfd in listeners
      modifies this, demux, rbpool, wbpool
      ensures Wired() && Snapshot() == NetModel.OnAccept(old(Snapshot()), listenfd, accepted)
    {
      hide AcceptAll;
      if accepted == [] {
        return;
      }
      AddAll(listenfd, accepted);
      CheckMaxConnection(listenfd, true);
    }

    /** The connections that accept has ready for `listenfd`, possibly none. */
    method OnAccept(listenfd: Fd, accepted: seq<Accepted>)
      requires Valid() && listenfd in listeners
      requires forall a | a in accepted :: a.fd !in listeners
      modifies this, demux, rbpool, wbpool
      ensures Valid() && Snapshot() == NetModel.OnAccept(old(Snapshot()), listenfd, accepted)
      ensures NetLedger.Book(Snapshot()) == NetLedger.AcceptedOn(NetLedger.Book(old(Snapshot())), listenfd, accepted)
    {
      hide NetInvariants.Valid, NetModel.OnAccept, NetLedger.Book, NetLedger.AcceptedOn, Limits, AllKeepInterest;
      OnAcceptKeeps(Snapshot(), listenfd, accepted);
      NetLedger.OnAcceptOnBook(Snapshot(), listenfd, accepted);
      AddAllAndCheck(listenfd, accepted);
    }
  }

  method ReturnAll(pool: BufferPool, chain: seq<Buffer>)
    modifies pool
    ensures pool.State() == PutIntoPool(old(pool.State()), Ids(chain))
  {
    for k := 0 to |chain|
      invariant pool.State() == PutIntoPool(old(pool.State()), Ids(chain)[..k])
    {
      pool.PutIntoPool(chain[k].id);
      assert Ids(chain)[..k + 1] == Ids(chain)[..k] + [chain[k].id];
    }
    assert Ids(chain)[..|chain|] == Ids(chain);
  }
}
