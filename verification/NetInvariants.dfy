/** What every call of an event handler keeps: the streams, the interest bits, the buffers and the
    listener counts; and that serving a callback's requests keeps it, at any point of a call. */
module NetInvariants {
  import opened Bytes
  import opened Stream
  import opened Epoll
  import opened NetModel
  import opened NetPools

  // ---------- one connection ----------

  function Lengths(parts: seq<seq<Byte>>): (s: seq<nat>)
    ensures |s| == |parts|
  {
    seq(|parts|, i requires 0 <= i < |parts| => |parts[i]|)
  }

  /** Reading: `cut` are the buffers completed so far. They and the chain together have the sizes
      asked for, in order; they and the chain's partial front buffer are the bytes received. */
  ghost predicate ReadOk(c: Client, t: Traffic, cut: seq<seq<Byte>>) {
    && ChainOk(c.rb)
    && t.asked == Lengths(cut) + Totals(c.rb)
    && t.received == Flat(cut) + Partial(c.rb)
  }

  /** Writing: the first `done` payloads are sent, the others wait in the chain, and what was sent is
      those payloads and the part of the next one that the chain's front buffer has done. */
  ghost predicate WriteOk(c: Client, t: Traffic, done: nat) {
    && ChainOk(c.wb)
    && done <= |t.payloads|
    && t.payloads[done..] == Bufs(c.wb)
    && t.sent == Flat(t.payloads[..done]) + Partial(c.wb)
  }

  /** Interest bits match pending work. */
  predicate InterestOk(c: Client, t: Traffic, ev: set<Flag>) {
    && RdHup in ev
    && (Out in ev <==> c.wb != [])
    && (In in ev ==> c.rb != [])
    && (c.rb != [] ==> In in ev || t.hungUp)
  }

  // ---------- the whole handler ----------

  function ReadChains(n: Net): Chains {
    map f | f in n.clients :: n.clients[f].rb
  }

  function WriteChains(n: Net): Chains {
    map f | f in n.clients :: n.clients[f].wb
  }

  /** What a handler call in progress has taken from connection `fd` and not handed out yet: read
      buffers `cut`, `done` written payloads, and the buffers `rids`, `wids` they are in. A connection
      in `closing` is no longer registered. */
  datatype Midway = Midway(fd: Fd, cut: seq<seq<Byte>>, done: nat, rids: seq<nat>, wids: seq<nat>, closing: set<Fd>)

  const AtRest := Midway(0, [], 0, [], [], {})

  function CutOf(m: Midway, f: Fd): seq<seq<Byte>> {
    if f == m.fd then m.cut else []
  }

  function DoneOf(m: Midway, f: Fd): nat {
    if f == m.fd then m.done else 0
  }

  ghost predicate ConnOk(n: Net, m: Midway, f: Fd)
    requires f in n.clients && f in n.traffic
  {
    && ReadOk(n.clients[f], n.traffic[f], n.traffic[f].delivered + CutOf(m, f))
    && WriteOk(n.clients[f], n.traffic[f], n.traffic[f].notified + DoneOf(m, f))
    && (f !in m.closing ==> f in n.events && InterestOk(n.clients[f], n.traffic[f], n.events[f]))
    && (f in m.closing ==> f !in n.events)
  }

  ghost predicate ConnsOk(n: Net, m: Midway) {
    && n.traffic.Keys == n.clients.Keys
    && forall f | f in n.clients :: ConnOk(n, m, f)
  }

  ghost predicate PoolsOk(n: Net, m: Midway) {
    && PoolOk(n.rpool, ReadChains(n), m.rids)
    && PoolOk(n.wpool, WriteChains(n), m.wids)
  }

  function Members(n: Net, l: Fd): set<Fd> {
    set f | f in n.clients && n.clients[f].listenfd == l
  }

  predicate Admits(li: ListenInfo) {
    li.maxconns == 0 || li.currentconns < li.maxconns
  }

  /** Descriptors are a connection's or a listener's; each listener's count is right. */
  ghost predicate CountsOk(n: Net) {
    && n.clients.Keys !! n.listeners.Keys
    && n.events.Keys <= n.clients.Keys + n.listeners.Keys
    && (forall f | f in n.clients :: n.clients[f].listenfd in n.listeners)
    && (forall l | l in n.listeners :: n.listeners[l].currentconns == |Members(n, l)|)
  }

  /** A listener is registered exactly while it may accept, and then for input. */
  ghost predicate AdmissionOk(n: Net) {
    forall l | l in n.listeners ::
      && (l in n.events <==> Admits(n.listeners[l]))
      && (l in n.events ==> n.events[l] == {RdHup, In})
  }

  /** How many connections each listener may have at a time. */
  function Limits(n: Net): map<Fd, nat> {
    map l | l in n.listeners :: n.listeners[l].maxconns
  }

  lemma SameLimits(n: Net, n': Net)
    requires Limits(n') == Limits(n)
    ensures n'.listeners.Keys == n.listeners.Keys
  {
    assert Limits(n').Keys == n'.listeners.Keys && Limits(n).Keys == n.listeners.Keys;
  }

  ghost predicate Valid(n: Net) {
    ConnsOk(n, AtRest) && PoolsOk(n, AtRest) && CountsOk(n) && AdmissionOk(n)
  }

  // ---------- one connection's steps ----------

  lemma ReadFrame(c: Client, t: Traffic, c': Client, t': Traffic, cut: seq<seq<Byte>>)
    requires ReadOk(c, t, cut) && c'.rb == c.rb && t'.asked == t.asked && t'.received == t.received
    ensures ReadOk(c', t', cut)
  {
  }

  lemma WriteFrame(c: Client, t: Traffic, c': Client, t': Traffic, done: nat)
    requires WriteOk(c, t, done) && c'.wb == c.wb && t'.payloads == t.payloads && t'.sent == t.sent
    ensures WriteOk(c', t', done)
  {
  }

  lemma AskRead(c: Client, t: Traffic, cut: seq<seq<Byte>>, b: Buffer)
    requires ReadOk(c, t, cut) && b.Open() && b.already == 0
    ensures ReadOk(c.(rb := c.rb + [b]), t.(asked := t.asked + [b.total]), cut)
  {
  }

  lemma AskWrite(c: Client, t: Traffic, done: nat, b: Buffer)
    requires WriteOk(c, t, done) && b.Open() && b.already == 0
    ensures WriteOk(c.(wb := c.wb + [b]), t.(payloads := t.payloads + [b.buf]), done)
  {
    assert Bufs(c.wb + [b]) == Bufs(c.wb) + [b.buf];
    assert (t.payloads + [b.buf])[done..] == t.payloads[done..] + [b.buf];
    assert (t.payloads + [b.buf])[..done] == t.payloads[..done];
    assert Partial(c.wb + [b]) == Partial(c.wb);
  }

  // `c` then `p` is extended by `u`, and `p` then `u` is `f` then `q`.
  lemma Regroup<T>(r: seq<T>, c: seq<T>, p: seq<T>, u: seq<T>, f: seq<T>, q: seq<T>)
    requires r == c + p && p + u == f + q
    ensures r + u == (c + f) + q
  {
    assert (c + p) + u == c + (p + u);
    assert c + (f + q) == (c + f) + q;
  }

  lemma CutSizes(asked: seq<nat>, cut: seq<seq<Byte>>, chain: seq<Buffer>, complete: seq<Buffer>, rest: seq<Buffer>)
    requires asked == Lengths(cut) + Totals(chain) && Totals(complete) + Totals(rest) == Totals(chain)
    requires forall i | 0 <= i < |complete| :: |complete[i].buf| == complete[i].total
    ensures asked == Lengths(cut + Bufs(complete)) + Totals(rest)
  {
  }

  /** Reading moves buffers from the chain to the cut and bytes from the socket to the stream. */
  lemma CutRead(c: Client, t: Traffic, cut: seq<seq<Byte>>, bytes: seq<Byte>)
    requires ReadOk(c, t, cut)
    ensures var (complete, rest, used) := ReadChain(c.rb, bytes);
            ReadOk(c.(rb := rest), t.(received := t.received + bytes[..used]), cut + Bufs(complete))
  {
    var (complete, rest, used) := ReadChain(c.rb, bytes);
    ReadChainKeepsBuffers(c.rb, bytes);
    ReadChainCutsStream(c.rb, bytes);
    hide ReadChain, Flat, Partial, Bufs, Totals, Lengths, ChainOk;
    CutSizes(t.asked, cut, c.rb, complete, rest);
    FlatConcat(cut, Bufs(complete));
    Regroup(t.received, Flat(cut), Partial(c.rb), bytes[..used], Flat(Bufs(complete)), Partial(rest));
  }

  lemma CutPayloads(payloads: seq<seq<Byte>>, done: nat, chain: seq<seq<Byte>>, complete: seq<seq<Byte>>, rest: seq<seq<Byte>>)
    requires done <= |payloads| && payloads[done..] == chain && complete + rest == chain
    ensures done + |complete| <= |payloads|
    ensures payloads[done + |complete|..] == rest
    ensures payloads[..done + |complete|] == payloads[..done] + complete
  {
  }

  /** Writing moves buffers out of the chain and their bytes to the socket. */
  lemma CutWrite(c: Client, t: Traffic, done: nat, room: nat)
    requires WriteOk(c, t, done)
    ensures var (complete, rest, sent) := WriteChain(c.wb, room);
            WriteOk(c.(wb := rest), t.(sent := t.sent + sent), done + |complete|)
  {
    var (complete, rest, sent) := WriteChain(c.wb, room);
    WriteChainKeepsBuffers(c.wb, room);
    WriteChainSendsPrefix(c.wb, room);
    hide WriteChain, Flat, Partial, ChainOk;
    CutPayloads(t.payloads, done, Bufs(c.wb), Bufs(complete), Bufs(rest));
    hide Bufs;
    FlatConcat(t.payloads[..done], Bufs(complete));
    Regroup(t.sent, Flat(t.payloads[..done]), Partial(c.wb), sent, Flat(Bufs(complete)), Partial(rest));
  }

  // ---------- from one connection to all ----------

  /** Nothing of connection `f` differs, nor what is under way for it. */
  predicate SameConn(n: Net, m: Midway, n': Net, m': Midway, f: Fd)
    requires f in n.clients && f in n.traffic
  {
    && f in n'.clients && n'.clients[f] == n.clients[f]
    && f in n'.traffic && n'.traffic[f] == n.traffic[f]
    && (f in n'.events <==> f in n.events)
    && (f in n.events ==> n'.events[f] == n.events[f])
    && CutOf(m', f) == CutOf(m, f) && DoneOf(m', f) == DoneOf(m, f)
    && (f in m'.closing <==> f in m.closing)
  }

  lemma SameConnOk(n: Net, m: Midway, n': Net, m': Midway, f: Fd)
    requires f in n.clients && f in n.traffic && ConnOk(n, m, f) && SameConn(n, m, n', m', f)
    ensures ConnOk(n', m', f)
  {
  }

  lemma OneConnChanges(n: Net, m: Midway, n': Net, m': Midway, fd: Fd)
    requires ConnsOk(n, m) && n'.traffic.Keys == n'.clients.Keys == n.clients.Keys
    requires fd in n'.clients && ConnOk(n', m', fd)
    requires forall f | f in n.clients && f != fd :: SameConn(n, m, n', m', f)
    ensures ConnsOk(n', m')
  {
    hide ConnOk;
    forall f | f in n'.clients
      ensures ConnOk(n', m', f)
    {
      if f != fd {
        assert SameConn(n, m, n', m', f);
        SameConnOk(n, m, n', m', f);
      }
    }
  }

  /** Requests are added; no byte moves. */
  predicate OnlyAsks(t: Traffic, t': Traffic) {
    && t'.received == t.received && t'.delivered == t.delivered && t'.hungUp == t.hungUp
    && t'.sent == t.sent && t'.notified == t.notified
    && t.asked <= t'.asked && t.payloads <= t'.payloads
  }

  /** Serving requests changes no connection but in what it waits for: nobody comes or goes, no
      listener changes, and interest is only added. */
  predicate SameShape(n: Net, n': Net) {
    && n'.clients.Keys == n.clients.Keys && n'.traffic.Keys == n.traffic.Keys
    && n'.listeners == n.listeners && n'.events.Keys == n.events.Keys
    && (forall f | f in n.clients :: n'.clients[f].listenfd == n.clients[f].listenfd)
    && (forall f | f in n.events :: n.events[f] <= n'.events[f])
    && (forall f | f in n.listeners && f !in n.clients && f in n.events :: n'.events[f] == n.events[f])
    && (forall f | f in n.traffic :: OnlyAsks(n.traffic[f], n'.traffic[f]))
  }

  lemma AsyncReadConn(n: Net, m: Midway, fd: Fd, size: Size)
    requires n.traffic.Keys == n.clients.Keys && fd in n.clients && ConnOk(n, m, fd)
    ensures ConnOk(AsyncRead(n, fd, size), m, fd)
  {
    var c, t, n' := n.clients[fd], n.traffic[fd], AsyncRead(n, fd, size);
    var b := Buffer(GetFromPool(n.rpool).0, seq(size, i => 0), size, 0);
    hide ReadOk, WriteOk, GetFromPool;
    AskRead(c, t, t.delivered + CutOf(m, fd), b);
    ReadFrame(c.(rb := c.rb + [b]), t.(asked := t.asked + [size]), n'.clients[fd], n'.traffic[fd], t.delivered + CutOf(m, fd));
    WriteFrame(c, t, n'.clients[fd], n'.traffic[fd], t.notified + DoneOf(m, fd));
  }

  lemma AsyncWriteConn(n: Net, m: Midway, fd: Fd, data: Payload)
    requires n.traffic.Keys == n.clients.Keys && fd in n.clients && ConnOk(n, m, fd)
    ensures ConnOk(AsyncWrite(n, fd, data), m, fd)
  {
    var c, t, n' := n.clients[fd], n.traffic[fd], AsyncWrite(n, fd, data);
    var b := Buffer(GetFromPool(n.wpool).0, data, |data|, 0);
    hide ReadOk, WriteOk, GetFromPool;
    AskWrite(c, t, t.notified + DoneOf(m, fd), b);
    WriteFrame(c.(wb := c.wb + [b]), t.(payloads := t.payloads + [data]), n'.clients[fd], n'.traffic[fd], t.notified + DoneOf(m, fd));
    ReadFrame(c, t, n'.clients[fd], n'.traffic[fd], t.delivered + CutOf(m, fd));
  }

  lemma AsyncReadKeepsConns(n: Net, m: Midway, fd: Fd, size: Size)
    requires ConnsOk(n, m) && fd in n.clients
    ensures ConnsOk(AsyncRead(n, fd, size), m)
  {
    assert ConnOk(n, m, fd);
    AsyncReadConn(n, m, fd, size);
    hide ConnOk, GetFromPool;
    OneConnChanges(n, m, AsyncRead(n, fd, size), m, fd);
  }

  lemma AsyncWriteKeepsConns(n: Net, m: Midway, fd: Fd, data: Payload)
    requires ConnsOk(n, m) && fd in n.clients
    ensures ConnsOk(AsyncWrite(n, fd, data), m)
  {
    assert ConnOk(n, m, fd);
    AsyncWriteConn(n, m, fd, data);
    hide ConnOk, GetFromPool;
    OneConnChanges(n, m, AsyncWrite(n, fd, data), m, fd);
  }

  lemma Serve1KeepsConns(n: Net, m: Midway, r: Request)
    requires ConnsOk(n, m)
    ensures ConnsOk(Serve1(n, r), m)
  {
    if r.fd in n.clients {
      hide ConnOk, AsyncRead, AsyncWrite;
      match r
      case ReadRequest(fd, size) => AsyncReadKeepsConns(n, m, fd, size);
      case WriteRequest(fd, data) => AsyncWriteKeepsConns(n, m, fd, data);
    }
  }

  lemma OneClientsChains(n: Net, n': Net, fd: Fd, c: Client)
    requires fd in n.clients && n'.clients == n.clients[fd := c]
    ensures ReadChains(n') == if c.rb == n.clients[fd].rb then ReadChains(n) else ReadChains(n)[fd := c.rb]
    ensures WriteChains(n') == if c.wb == n.clients[fd].wb then WriteChains(n) else WriteChains(n)[fd := c.wb]
    ensures ReadChains(n)[fd := n.clients[fd].rb] == ReadChains(n)
    ensures WriteChains(n)[fd := n.clients[fd].wb] == WriteChains(n)
  {
  }

  lemma AsyncReadPools(n: Net, m: Midway, fd: Fd, size: Size)
    requires n.traffic.Keys == n.clients.Keys && fd in n.clients && PoolsOk(n, m)
    ensures PoolsOk(AsyncRead(n, fd, size), m)
  {
    hide PoolOk, GetFromPool;
    var n', b := AsyncRead(n, fd, size), Buffer(GetFromPool(n.rpool).0, seq(size, i => 0), size, 0);
    GetKeepsPool(n.rpool, ReadChains(n), m.rids, fd, b);
    OneClientsChains(n, n', fd, n'.clients[fd]);
  }

  lemma AsyncWritePools(n: Net, m: Midway, fd: Fd, data: Payload)
    requires n.traffic.Keys == n.clients.Keys && fd in n.clients && PoolsOk(n, m)
    ensures PoolsOk(AsyncWrite(n, fd, data), m)
  {
    hide PoolOk, GetFromPool;
    var n', b := AsyncWrite(n, fd, data), Buffer(GetFromPool(n.wpool).0, data, |data|, 0);
    GetKeepsPool(n.wpool, WriteChains(n), m.wids, fd, b);
    OneClientsChains(n, n', fd, n'.clients[fd]);
  }

  lemma Serve1KeepsPools(n: Net, m: Midway, r: Request)
    requires n.traffic.Keys == n.clients.Keys && PoolsOk(n, m)
    ensures PoolsOk(Serve1(n, r), m)
  {
    if r.fd in n.clients {
      hide PoolsOk, AsyncRead, AsyncWrite;
      match r
      case ReadRequest(fd, size) => AsyncReadPools(n, m, fd, size);
      case WriteRequest(fd, data) => AsyncWritePools(n, m, fd, data);
    }
  }

  lemma AsyncReadKeepsShape(n: Net, fd: Fd, size: Size)
    requires n.traffic.Keys == n.clients.Keys && fd in n.clients
    ensures SameShape(n, AsyncRead(n, fd, size))
  {
    hide GetFromPool;
  }

  lemma AsyncWriteKeepsShape(n: Net, fd: Fd, data: Payload)
    requires n.traffic.Keys == n.clients.Keys && fd in n.clients
    ensures SameShape(n, AsyncWrite(n, fd, data))
  {
    hide GetFromPool;
  }

  lemma Serve1KeepsShape(n: Net, r: Request)
    requires n.traffic.Keys == n.clients.Keys
    ensures SameShape(n, Serve1(n, r))
  {
    if r.fd in n.clients {
      hide AsyncRead, AsyncWrite;
      match r
      case ReadRequest(fd, size) => AsyncReadKeepsShape(n, fd, size);
      case WriteRequest(fd, data) => AsyncWriteKeepsShape(n, fd, data);
    }
  }

  lemma SameShapeAsItself(n: Net)
    ensures SameShape(n, n)
  {
  }

  lemma SameShapeChain(n: Net, n1: Net, n2: Net)
    requires SameShape(n, n1) && SameShape(n1, n2)
    ensures SameShape(n, n2)
  {
  }

  /** Serving any requests keeps everything, at any point of a handler call. */
  lemma {:induction false} ServeKeeps(n: Net, m: Midway, rs: seq<Request>)
    requires ConnsOk(n, m) && PoolsOk(n, m)
    ensures ConnsOk(Serve(n, rs), m) && PoolsOk(Serve(n, rs), m) && SameShape(n, Serve(n, rs))
    decreases |rs|
  {
    assert n.traffic.Keys == n.clients.Keys;
    hide Serve1, PoolsOk, SameShape, ConnsOk;
    if rs == [] {
      SameShapeAsItself(n);
    } else {
      Serve1KeepsConns(n, m, rs[0]);
      Serve1KeepsPools(n, m, rs[0]);
      Serve1KeepsShape(n, rs[0]);
      ServeKeeps(Serve1(n, rs[0]), m, rs[1..]);
      SameShapeChain(n, Serve1(n, rs[0]), Serve(n, rs));
    }
  }
}
