/** The event handler of the network server as functions on its state: what every handler call does
    to connections, buffer chains, buffer pools, epoll interest and listener counts. */
module NetModel {
  import opened Bytes
  import opened Stream
  import opened Epoll

  datatype Client = Client(listenfd: Fd, rb: seq<Buffer>, wb: seq<Buffer>)

  datatype ListenInfo = ListenInfo(maxconns: nat, currentconns: nat)

  /** What a connection has seen. `asked`: sizes given to AsyncRead. `received`: bytes recv returned.
      `delivered`: buffers handed to OnReadComplete. `payloads`: given to AsyncWrite. `sent`: bytes
      send accepted. `notified`: calls of OnWriteComplete. `hungUp`: recv has returned 0. */
  datatype Traffic = Traffic(asked: seq<nat>, received: seq<Byte>, delivered: seq<seq<Byte>>,
                             payloads: seq<seq<Byte>>, sent: seq<Byte>, notified: nat, hungUp: bool)

  const NoTraffic := Traffic([], [], [], [], [], 0, false)

  /** A pool's free buffers, oldest first, and the number ever made. */
  datatype Pool = Pool(free: seq<nat>, made: nat)

  datatype Net = Net(clients: map<Fd, Client>, traffic: map<Fd, Traffic>, listeners: map<Fd, ListenInfo>,
                     events: Interest, rpool: Pool, wpool: Pool)

  // ---------- pools ----------

  function GetFromPool(p: Pool): (nat, Pool) {
    if p.free == [] then (p.made, Pool([], p.made + 1)) else (p.free[0], p.(free := p.free[1..]))
  }

  function PutIntoPool(p: Pool, ids: seq<nat>): Pool {
    p.(free := p.free + ids)
  }

  // ---------- what callbacks ask for ----------

  type Size = n: nat | 0 < n < TWO_TO_THE_32 witness 1

  type Payload = s: seq<Byte> | 0 < |s| < TWO_TO_THE_32 witness [0]

  datatype Request = ReadRequest(fd: Fd, size: Size) | WriteRequest(fd: Fd, data: Payload)

  function AsyncRead(n: Net, fd: Fd, size: Size): Net
    requires fd in n.clients && fd in n.traffic
  {
    var (id, rpool') := GetFromPool(n.rpool);
    var c, t := n.clients[fd], n.traffic[fd];
    n.(clients := n.clients[fd := c.(rb := c.rb + [Buffer(id, seq(size, i => 0), size, 0)])],
       traffic := n.traffic[fd := t.(asked := t.asked + [size])],
       events := WithEvent(n.events, fd, In), rpool := rpool')
  }

  function AsyncWrite(n: Net, fd: Fd, data: Payload): Net
    requires fd in n.clients && fd in n.traffic
  {
    var (id, wpool') := GetFromPool(n.wpool);
    var c, t := n.clients[fd], n.traffic[fd];
    n.(clients := n.clients[fd := c.(wb := c.wb + [Buffer(id, data, |data|, 0)])],
       traffic := n.traffic[fd := t.(payloads := t.payloads + [data])],
       events := WithEvent(n.events, fd, Out), wpool := wpool')
  }

  /** One request; asking for an unknown connection is an exception that changes nothing. */
  function Serve1(n: Net, r: Request): (n': Net)
    requires n.traffic.Keys == n.clients.Keys
    ensures n'.traffic.Keys == n'.clients.Keys == n.clients.Keys
  {
    if r.fd !in n.clients then n
    else match r
      case ReadRequest(fd, size) => AsyncRead(n, fd, size)
      case WriteRequest(fd, data) => AsyncWrite(n, fd, data)
  }

  /** All a callback asks for, in order. */
  function Serve(n: Net, rs: seq<Request>): (n': Net)
    requires n.traffic.Keys == n.clients.Keys
    ensures n'.traffic.Keys == n'.clients.Keys == n.clients.Keys
    decreases |rs|
  {
    if rs == [] then n else Serve(Serve1(n, rs[0]), rs[1..])
  }

  // ---------- handlers ----------

  // The requests the k-th callback of a handler call makes.
  type Callbacks = seq<seq<Request>>

  function First(cbs: Callbacks): seq<Request> {
    if cbs == [] then [] else cbs[0]
  }

  function Rest(cbs: Callbacks): Callbacks {
    if cbs == [] then [] else cbs[1..]
  }

  /** `got` has been read from the socket and `rest` of the chain remains; `closed` when recv said so. */
  function ReadUpdate(n: Net, fd: Fd, rest: seq<Buffer>, got: seq<Byte>, closed: bool): Net
    requires fd in n.clients && fd in n.traffic
  {
    var t := n.traffic[fd];
    n.(clients := n.clients[fd := n.clients[fd].(rb := rest)],
       traffic := n.traffic[fd := t.(received := t.received + got, hungUp := t.hungUp || closed)],
       events := if closed || rest == [] then WithoutEvent(n.events, fd, In) else n.events)
  }

  /** The chain is read, cut and the interest withdrawn; the completed buffers are still to hand out. */
  function AfterReading(n: Net, fd: Fd, bytes: seq<Byte>, ending: Ending): Net
    requires fd in n.clients && fd in n.traffic && ChainOk(n.clients[fd].rb)
  {
    var (_, rest, used) := ReadChain(n.clients[fd].rb, bytes);
    ReadUpdate(n, fd, rest, bytes[..used], rest != [] && ending == PeerClosed)
  }

  /** One completed buffer goes to OnReadComplete, whose requests are served, and back to the pool. */
  function Deliver1(n: Net, fd: Fd, b: Buffer, rs: seq<Request>): (n': Net)
    requires n.traffic.Keys == n.clients.Keys && fd in n.clients
    ensures n'.traffic.Keys == n'.clients.Keys == n.clients.Keys
  {
    var t := n.traffic[fd];
    var n1 := Serve(n.(traffic := n.traffic[fd := t.(delivered := t.delivered + [b.buf])]), rs);
    n1.(rpool := PutIntoPool(n1.rpool, [b.id]))
  }

  function Deliver(n: Net, fd: Fd, complete: seq<Buffer>, cbs: Callbacks): (n': Net)
    requires n.traffic.Keys == n.clients.Keys && fd in n.clients
    ensures n'.traffic.Keys == n'.clients.Keys == n.clients.Keys
    decreases |complete|
  {
    if complete == [] then n
    else Deliver(Deliver1(n, fd, complete[0], First(cbs)), fd, complete[1..], Rest(cbs))
  }

  function OnRead(n: Net, fd: Fd, bytes: seq<Byte>, ending: Ending, cbs: Callbacks): Net
    requires n.traffic.Keys == n.clients.Keys && fd in n.clients && ChainOk(n.clients[fd].rb)
  {
    Deliver(AfterReading(n, fd, bytes, ending), fd, ReadChain(n.clients[fd].rb, bytes).0, cbs)
  }

  function WriteUpdate(n: Net, fd: Fd, rest: seq<Buffer>, sent: seq<Byte>): Net
    requires fd in n.clients && fd in n.traffic
  {
    var t := n.traffic[fd];
    n.(clients := n.clients[fd := n.clients[fd].(wb := rest)],
       traffic := n.traffic[fd := t.(sent := t.sent + sent)],
       events := if rest == [] then WithoutEvent(n.events, fd, Out) else n.events)
  }

  function AfterWriting(n: Net, fd: Fd, room: nat): Net
    requires fd in n.clients && fd in n.traffic && ChainOk(n.clients[fd].wb)
  {
    var (_, rest, sent) := WriteChain(n.clients[fd].wb, room);
    WriteUpdate(n, fd, rest, sent)
  }

  function Notify1(n: Net, fd: Fd, b: Buffer, rs: seq<Request>): (n': Net)
    requires n.traffic.Keys == n.clients.Keys && fd in n.clients
    ensures n'.traffic.Keys == n'.clients.Keys == n.clients.Keys
  {
    var t := n.traffic[fd];
    var n1 := Serve(n.(traffic := n.traffic[fd := t.(notified := t.notified + 1)]), rs);
    n1.(wpool := PutIntoPool(n1.wpool, [b.id]))
  }

  function Notify(n: Net, fd: Fd, complete: seq<Buffer>, cbs: Callbacks): (n': Net)
    requires n.traffic.Keys == n.clients.Keys && fd in n.clients
    ensures n'.traffic.Keys == n'.clients.Keys == n.clients.Keys
    decreases |complete|
  {
    if complete == [] then n
    else Notify(Notify1(n, fd, complete[0], First(cbs)), fd, complete[1..], Rest(cbs))
  }

  function OnWrite(n: Net, fd: Fd, room: nat, cbs: Callbacks): Net
    requires n.traffic.Keys == n.clients.Keys && fd in n.clients && ChainOk(n.clients[fd].wb)
  {
    Notify(AfterWriting(n, fd, room), fd, WriteChain(n.clients[fd].wb, room).0, cbs)
  }

  /** The connection leaves the books: its listener counts one less and may listen again, and its
      buffers go back to the pools. */
  function ClearSession(n: Net, fd: Fd): Net
    requires fd in n.clients && n.clients[fd].listenfd in n.listeners
    requires n.listeners[n.clients[fd].listenfd].currentconns > 0
  {
    var c := n.clients[fd];
    var li := n.listeners[c.listenfd];
    var li' := li.(currentconns := li.currentconns - 1);
    Net(n.clients - {fd}, n.traffic - {fd}, n.listeners[c.listenfd := li'],
        if li'.maxconns > 0 && li'.currentconns < li'.maxconns then WithConn(n.events, c.listenfd, {In}) else n.events,
        PutIntoPool(n.rpool, Ids(c.rb)), PutIntoPool(n.wpool, Ids(c.wb)))
  }

  /** The connection is deregistered and the user told, whose requests are still served. */
  function BeforeClearing(n: Net, fd: Fd, rs: seq<Request>): (n': Net)
    requires n.traffic.Keys == n.clients.Keys
    ensures n'.traffic.Keys == n'.clients.Keys == n.clients.Keys
  {
    Serve(n.(events := WithoutConn(n.events, fd)), rs)
  }

  function Entered(n: Net, fd: Fd, listenfd: Fd): Net {
    n.(clients := n.clients[fd := Client(listenfd, [], [])], traffic := n.traffic[fd := NoTraffic],
       events := WithConn(n.events, fd, {}))
  }

  function Counted(n: Net, listenfd: Fd): Net
    requires listenfd in n.listeners
  {
    var li := n.listeners[listenfd];
    n.(listeners := n.listeners[listenfd := li.(currentconns := li.currentconns + 1)])
  }

  /** A new connection of `listenfd`; OnAcceptComplete's requests are served before it is counted. */
  function AddNewConn(n: Net, fd: Fd, listenfd: Fd, rs: seq<Request>): (n': Net)
    requires n.traffic.Keys == n.clients.Keys && listenfd in n.listeners
    ensures n'.traffic.Keys == n'.clients.Keys == n.clients.Keys + {fd}
    ensures n'.listeners.Keys == n.listeners.Keys
  {
    ServeListeners(Entered(n, fd, listenfd), rs);
    Counted(Serve(Entered(n, fd, listenfd), rs), listenfd)
  }

  lemma ServeListeners(n: Net, rs: seq<Request>)
    requires n.traffic.Keys == n.clients.Keys
    ensures Serve(n, rs).listeners == n.listeners
    decreases |rs|
  {
    if rs != [] {
      ServeListeners(Serve1(n, rs[0]), rs[1..]);
    }
  }

  /** A connection that accept returned: the requests OnAcceptComplete will make, and all the bytes its
      peer will ever send, which nothing here looks at. */
  datatype Accepted = Accepted(fd: Fd, rs: seq<Request>, stream: seq<Byte>)

  /** The connections accept returned, one by one; one already known is only warned about. */
  function AcceptAll(n: Net, listenfd: Fd, accepted: seq<Accepted>): (n': Net)
    requires n.traffic.Keys == n.clients.Keys && listenfd in n.listeners
    ensures n'.traffic.Keys == n'.clients.Keys && n'.listeners.Keys == n.listeners.Keys
    decreases |accepted|
  {
    if accepted == [] then n else
      var a := accepted[0];
      AcceptAll(if a.fd in n.clients then n else AddNewConn(n, a.fd, listenfd, a.rs), listenfd, accepted[1..])
  }

  function OnAccept(n: Net, listenfd: Fd, accepted: seq<Accepted>): Net
    requires n.traffic.Keys == n.clients.Keys && listenfd in n.listeners
  {
    if accepted == [] then n else
      var n1 := AcceptAll(n, listenfd, accepted);
      var li := n1.listeners[listenfd];
      n1.(events := if li.maxconns > 0 && li.currentconns >= li.maxconns then WithoutConn(n1.events, listenfd)
                    else n1.events)
  }
}
