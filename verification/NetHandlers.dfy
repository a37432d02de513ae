/** OnRead and OnWrite keep the invariants: a buffer on its way from chain to callback to pool is
    accounted for at every moment of the call. */
module NetHandlers {
  import opened Bytes
  import opened Stream
  import opened Epoll
  import opened NetModel
  import opened NetPools
  import opened NetInvariants

  // ---------- books: who is connected where ----------

  predicate SameBooks(n: Net, n': Net) {
    && n'.clients.Keys == n.clients.Keys && n'.traffic.Keys == n.traffic.Keys
    && n'.listeners == n.listeners && n'.events.Keys == n.events.Keys
    && (forall f | f in n.clients :: n'.clients[f].listenfd == n.clients[f].listenfd)
    && (forall f | f in n.listeners && f !in n.clients && f in n.events :: n'.events[f] == n.events[f])
  }

  lemma SameBooksKeepCounts(n: Net, n': Net)
    requires SameBooks(n, n') && CountsOk(n)
    ensures CountsOk(n') && (AdmissionOk(n) ==> AdmissionOk(n'))
  {
    forall l | l in n.listeners
      ensures Members(n', l) == Members(n, l)
    {
      assert forall f :: f in Members(n', l) <==> f in Members(n, l);
    }
  }

  /** Everybody but `fd` keeps the interest it has. */
  predicate OthersKeepInterest(n: Net, n': Net, fd: Fd) {
    forall f | f in n.events && f != fd && f in n.clients :: f in n'.events && n.events[f] <= n'.events[f]
  }

  // ---------- OnRead ----------

  function Reading(fd: Fd, complete: seq<Buffer>): Midway {
    Midway(fd, Bufs(complete), 0, Ids(complete), [], {})
  }

  lemma ReadUpdateConn(n: Net, fd: Fd, complete: seq<Buffer>, rest: seq<Buffer>, got: seq<Byte>, closed: bool)
    requires n.traffic.Keys == n.clients.Keys && fd in n.clients && ConnOk(n, AtRest, fd)
    requires var (c, t) := (n.clients[fd], n.traffic[fd]);
             ReadOk(c.(rb := rest), t.(received := t.received + got), t.delivered + Bufs(complete))
    requires n.clients[fd].rb == [] ==> rest == []
    ensures ConnOk(ReadUpdate(n, fd, rest, got, closed), Reading(fd, complete), fd)
  {
  }

  lemma RestFacts(n: Net, fd: Fd)
    requires ConnsOk(n, AtRest) && fd in n.clients
    ensures n.traffic.Keys == n.clients.Keys && ConnOk(n, AtRest, fd)
    ensures ReadOk(n.clients[fd], n.traffic[fd], n.traffic[fd].delivered)
    ensures WriteOk(n.clients[fd], n.traffic[fd], n.traffic[fd].notified)
    ensures ChainOk(n.clients[fd].rb) && ChainOk(n.clients[fd].wb)
  {
    assert ConnOk(n, AtRest, fd) && n.traffic[fd].delivered + [] == n.traffic[fd].delivered;
  }

  lemma ReadUpdateConns(n: Net, fd: Fd, complete: seq<Buffer>, rest: seq<Buffer>, got: seq<Byte>, closed: bool)
    requires ConnsOk(n, AtRest) && fd in n.clients
    requires ConnOk(ReadUpdate(n, fd, rest, got, closed), Reading(fd, complete), fd)
    ensures ConnsOk(ReadUpdate(n, fd, rest, got, closed), Reading(fd, complete))
  {
    hide ConnOk;
    OneConnChanges(n, AtRest, ReadUpdate(n, fd, rest, got, closed), Reading(fd, complete), fd);
  }

  lemma ReadUpdatePools(n: Net, fd: Fd, complete: seq<Buffer>, rest: seq<Buffer>, got: seq<Byte>, closed: bool)
    requires n.traffic.Keys == n.clients.Keys && PoolsOk(n, AtRest) && fd in n.clients
    requires Ids(complete) + Ids(rest) == Ids(n.clients[fd].rb)
    ensures PoolsOk(ReadUpdate(n, fd, rest, got, closed), Reading(fd, complete))
  {
    var n' := ReadUpdate(n, fd, rest, got, closed);
    hide PoolOk, Ids, Bufs;
    CutKeepsPool(n.rpool, ReadChains(n), [], fd, Ids(complete), rest);
    assert Ids(complete) + [] == Ids(complete);
    hide ReadChains, WriteChains;
    OneClientsChains(n, n', fd, n'.clients[fd]);
  }

  lemma AfterReadingKeeps(n: Net, fd: Fd, bytes: seq<Byte>, ending: Ending)
    requires ConnsOk(n, AtRest) && PoolsOk(n, AtRest) && fd in n.clients
    ensures ConnOk(n, AtRest, fd) && ChainOk(n.clients[fd].rb)
    ensures var n', m := AfterReading(n, fd, bytes, ending), Reading(fd, ReadChain(n.clients[fd].rb, bytes).0);
            ConnsOk(n', m) && PoolsOk(n', m)
  {
    assert ConnOk(n, AtRest, fd);
    var c, t := n.clients[fd], n.traffic[fd];
    assert t.delivered + [] == t.delivered;
    CutRead(c, t, t.delivered, bytes);
    ReadChainKeepsBuffers(c.rb, bytes);
    var (complete, rest, used) := ReadChain(c.rb, bytes);
    var closed := rest != [] && ending == PeerClosed;
    hide ConnOk, ReadOk, ConnsOk, PoolsOk, ReadUpdate;
    ReadUpdateConn(n, fd, complete, rest, bytes[..used], closed);
    ReadUpdateConns(n, fd, complete, rest, bytes[..used], closed);
    ReadUpdatePools(n, fd, complete, rest, bytes[..used], closed);
  }

  lemma AfterReadingBooks(n: Net, fd: Fd, rest: seq<Buffer>, got: seq<Byte>, closed: bool)
    requires n.traffic.Keys == n.clients.Keys && fd in n.clients
    ensures var n' := ReadUpdate(n, fd, rest, got, closed); SameBooks(n, n') && OthersKeepInterest(n, n', fd)
    ensures fd in n.events && Out in n.events[fd] ==>
              fd in ReadUpdate(n, fd, rest, got, closed).events && Out in ReadUpdate(n, fd, rest, got, closed).events[fd]
  {
  }

  predicate AllKeepInterest(n: Net, n': Net) {
    forall f | f in n.events && f in n.clients :: f in n'.events && n.events[f] <= n'.events[f]
  }

  lemma ShapeKeepsBooks(n: Net, n': Net)
    requires SameShape(n, n')
    ensures SameBooks(n, n') && AllKeepInterest(n, n')
  {
  }

  lemma ConnsFrame(n: Net, m: Midway, n': Net, m': Midway)
    requires ConnsOk(n, m) && n'.clients == n.clients && n'.traffic == n.traffic && n'.events == n.events
    requires m'.cut == m.cut && m'.done == m.done && m'.closing == m.closing
    requires m'.fd == m.fd || (m.cut == [] && m.done == 0)
    ensures ConnsOk(n', m')
  {
    hide ConnOk;
    forall f | f in n.clients
      ensures ConnOk(n', m', f)
    {
      SameConnOk(n, m, n', m', f);
    }
  }

  lemma PoolsFrame(n: Net, m: Midway, n': Net, m': Midway)
    requires PoolsOk(n, m) && n'.clients == n.clients && n'.rpool == n.rpool && n'.wpool == n.wpool
    requires m'.rids == m.rids && m'.wids == m.wids
    ensures PoolsOk(n', m')
  {
  }

  // Buffers handed out go back to the pool.

  lemma GiveBackRead(n: Net, m: Midway, id: nat, m': Midway)
    requires ConnsOk(n, m) && PoolsOk(n, m) && m.rids == [id] + m'.rids && m' == m.(rids := m'.rids)
    ensures var n' := n.(rpool := PutIntoPool(n.rpool, [id]));
            ConnsOk(n', m') && PoolsOk(n', m') && SameBooks(n, n') && AllKeepInterest(n, n')
  {
    hide ConnsOk, PoolOk;
    var n' := n.(rpool := PutIntoPool(n.rpool, [id]));
    ConnsFrame(n, m, n', m');
    PutKeepsPool(n.rpool, ReadChains(n), [id], m'.rids);
    assert ReadChains(n') == ReadChains(n) && WriteChains(n') == WriteChains(n);
  }

  lemma GiveBackWritten(n: Net, m: Midway, id: nat, m': Midway)
    requires ConnsOk(n, m) && PoolsOk(n, m) && m.wids == [id] + m'.wids && m' == m.(wids := m'.wids)
    ensures var n' := n.(wpool := PutIntoPool(n.wpool, [id]));
            ConnsOk(n', m') && PoolsOk(n', m') && SameBooks(n, n') && AllKeepInterest(n, n')
  {
    hide ConnsOk, PoolOk;
    var n' := n.(wpool := PutIntoPool(n.wpool, [id]));
    ConnsFrame(n, m, n', m');
    PutKeepsPool(n.wpool, WriteChains(n), [id], m'.wids);
    assert ReadChains(n') == ReadChains(n) && WriteChains(n') == WriteChains(n);
  }

  // A change of traffic alone, then the callback's requests.
  lemma CallbackKeeps(n: Net, m: Midway, traffic': map<Fd, Traffic>, m': Midway, rs: seq<Request>)
    requires PoolsOk(n, m) && m'.rids == m.rids && m'.wids == m.wids && traffic'.Keys == n.traffic.Keys
    requires ConnsOk(n.(traffic := traffic'), m')
    ensures var n' := Serve(n.(traffic := traffic'), rs);
            ConnsOk(n', m') && PoolsOk(n', m') && SameBooks(n, n') && AllKeepInterest(n, n')
  {
    hide ConnsOk, PoolsOk;
    PoolsFrame(n, m, n.(traffic := traffic'), m');
    ServeKeeps(n.(traffic := traffic'), m', rs);
    ShapeKeepsBooks(n.(traffic := traffic'), Serve(n.(traffic := traffic'), rs));
  }

  // The callback gets the oldest completed buffer: from then on it counts as delivered.
  lemma HandOutRead(n: Net, fd: Fd, complete: seq<Buffer>)
    requires ConnsOk(n, Reading(fd, complete)) && fd in n.clients && complete != []
    ensures var t := n.traffic[fd];
            ConnsOk(n.(traffic := n.traffic[fd := t.(delivered := t.delivered + [complete[0].buf])]),
                    Reading(fd, complete).(cut := Bufs(complete[1..])))
  {
    var t, m := n.traffic[fd], Reading(fd, complete);
    var n', m' := n.(traffic := n.traffic[fd := t.(delivered := t.delivered + [complete[0].buf])]), m.(cut := Bufs(complete[1..]));
    assert ConnOk(n, m, fd);
    assert (t.delivered + [complete[0].buf]) + Bufs(complete[1..]) == t.delivered + Bufs(complete);
    assert ConnOk(n', m', fd) by {
      hide ReadOk, WriteOk, Bufs;
      ReadFrame(n.clients[fd], t, n.clients[fd], n'.traffic[fd], t.delivered + Bufs(complete));
      WriteFrame(n.clients[fd], t, n.clients[fd], n'.traffic[fd], t.notified);
    }
    hide ConnOk, Bufs, Ids;
    OneConnChanges(n, m, n', m', fd);
  }

  lemma BooksChain(n: Net, n1: Net, n2: Net)
    requires SameBooks(n, n1) && AllKeepInterest(n, n1) && SameBooks(n1, n2) && AllKeepInterest(n1, n2)
    ensures SameBooks(n, n2) && AllKeepInterest(n, n2)
  {
  }

  lemma Deliver1Keeps(n: Net, fd: Fd, complete: seq<Buffer>, rs: seq<Request>)
    requires ConnsOk(n, Reading(fd, complete)) && PoolsOk(n, Reading(fd, complete)) && fd in n.clients && complete != []
    ensures var n' := Deliver1(n, fd, complete[0], rs);
            && ConnsOk(n', Reading(fd, complete[1..])) && PoolsOk(n', Reading(fd, complete[1..]))
            && SameBooks(n, n') && AllKeepInterest(n, n')
  {
    var t := n.traffic[fd];
    var traffic' := n.traffic[fd := t.(delivered := t.delivered + [complete[0].buf])];
    var m1 := Reading(fd, complete).(cut := Bufs(complete[1..]));
    hide Ids, Bufs, ConnsOk, PoolsOk, SameBooks, AllKeepInterest;
    assert ConnsOk(n.(traffic := traffic'), m1) by { HandOutRead(n, fd, complete); }
    assert Ids(complete) == [complete[0].id] + Ids(complete[1..]) by {
      assert complete == [complete[0]] + complete[1..];
      ColumnsCons(complete[0], complete[1..]);
    }
    CallbackKeeps(n, Reading(fd, complete), traffic', m1, rs);
    var n1 := Serve(n.(traffic := traffic'), rs);
    GiveBackRead(n1, m1, complete[0].id, Reading(fd, complete[1..]));
    BooksChain(n, n1, Deliver1(n, fd, complete[0], rs));
  }

  lemma {:induction false} DeliverKeeps(n: Net, fd: Fd, complete: seq<Buffer>, cbs: Callbacks)
    requires ConnsOk(n, Reading(fd, complete)) && PoolsOk(n, Reading(fd, complete)) && fd in n.clients
    ensures var n' := Deliver(n, fd, complete, cbs);
            ConnsOk(n', AtRest) && PoolsOk(n', AtRest) && SameBooks(n, n') && AllKeepInterest(n, n')
    decreases |complete|
  {
    hide Deliver1, ConnOk, PoolOk;
    if complete == [] {
      ConnsFrame(n, Reading(fd, complete), n, AtRest);
      PoolsFrame(n, Reading(fd, complete), n, AtRest);
    } else {
      var n1 := Deliver1(n, fd, complete[0], First(cbs));
      Deliver1Keeps(n, fd, complete, First(cbs));
      DeliverKeeps(n1, fd, complete[1..], Rest(cbs));
    }
  }

  // ---------- OnWrite ----------

  function Writing(fd: Fd, complete: seq<Buffer>): Midway {
    Midway(fd, [], |complete|, [], Ids(complete), {})
  }

  lemma WriteUpdateConn(n: Net, fd: Fd, complete: seq<Buffer>, rest: seq<Buffer>, sent: seq<Byte>)
    requires n.traffic.Keys == n.clients.Keys && fd in n.clients && ConnOk(n, AtRest, fd)
    requires var (c, t) := (n.clients[fd], n.traffic[fd]);
             WriteOk(c.(wb := rest), t.(sent := t.sent + sent), t.notified + |complete|)
    requires n.clients[fd].wb == [] ==> rest == []
    ensures ConnOk(WriteUpdate(n, fd, rest, sent), Writing(fd, complete), fd)
  {
    var c, t, n' := n.clients[fd], n.traffic[fd], WriteUpdate(n, fd, rest, sent);
    hide ReadOk, WriteOk, Bufs, Ids;
    WriteFrame(c.(wb := rest), t.(sent := t.sent + sent), n'.clients[fd], n'.traffic[fd], t.notified + |complete|);
    ReadFrame(c, t, n'.clients[fd], n'.traffic[fd], t.delivered + []);
  }

  lemma EmptyStaysEmpty(room: nat)
    ensures WriteChain([], room).1 == []
  {
  }

  lemma WriteUpdateConns(n: Net, fd: Fd, complete: seq<Buffer>, rest: seq<Buffer>, sent: seq<Byte>)
    requires ConnsOk(n, AtRest) && fd in n.clients
    requires ConnOk(WriteUpdate(n, fd, rest, sent), Writing(fd, complete), fd)
    ensures ConnsOk(WriteUpdate(n, fd, rest, sent), Writing(fd, complete))
  {
    hide ConnOk;
    OneConnChanges(n, AtRest, WriteUpdate(n, fd, rest, sent), Writing(fd, complete), fd);
  }

  lemma WriteUpdatePools(n: Net, fd: Fd, complete: seq<Buffer>, rest: seq<Buffer>, sent: seq<Byte>)
    requires n.traffic.Keys == n.clients.Keys && PoolsOk(n, AtRest) && fd in n.clients
    requires Ids(complete) + Ids(rest) == Ids(n.clients[fd].wb)
    ensures PoolsOk(WriteUpdate(n, fd, rest, sent), Writing(fd, complete))
  {
    var n' := WriteUpdate(n, fd, rest, sent);
    hide PoolOk, Ids, Bufs;
    CutKeepsPool(n.wpool, WriteChains(n), [], fd, Ids(complete), rest);
    assert Ids(complete) + [] == Ids(complete);
    hide ReadChains, WriteChains;
    OneClientsChains(n, n', fd, n'.clients[fd]);
  }

  lemma AfterWritingKeeps(n: Net, fd: Fd, room: nat)
    requires ConnsOk(n, AtRest) && PoolsOk(n, AtRest) && fd in n.clients
    ensures ConnOk(n, AtRest, fd) && ChainOk(n.clients[fd].wb)
    ensures var n', m := AfterWriting(n, fd, room), Writing(fd, WriteChain(n.clients[fd].wb, room).0);
            ConnsOk(n', m) && PoolsOk(n', m)
  {
    hide ConnOk, ReadOk, WriteOk, ConnsOk, PoolsOk, WriteUpdate, ChainOk, Bufs;
    RestFacts(n, fd);
    var c, t := n.clients[fd], n.traffic[fd];
    var (complete, rest, sent) := WriteChain(c.wb, room);
    hide WriteChain;
    CutWrite(c, t, t.notified, room);
    WriteChainKeepsBuffers(c.wb, room);
    assert c.wb == [] ==> rest == [] by { EmptyStaysEmpty(room); }
    WriteUpdateConn(n, fd, complete, rest, sent);
    WriteUpdateConns(n, fd, complete, rest, sent);
    WriteUpdatePools(n, fd, complete, rest, sent);
  }

  lemma AfterWritingBooks(n: Net, fd: Fd, rest: seq<Buffer>, sent: seq<Byte>)
    requires n.traffic.Keys == n.clients.Keys && fd in n.clients
    ensures var n' := WriteUpdate(n, fd, rest, sent); SameBooks(n, n') && OthersKeepInterest(n, n', fd)
  {
  }

  // The callback is told of the oldest payload sent: from then on it counts as notified.
  function Told(n: Net, fd: Fd): (n': Net)
    requires fd in n.traffic
    ensures n'.clients == n.clients && n'.traffic.Keys == n.traffic.Keys
  {
    var t := n.traffic[fd];
    n.(traffic := n.traffic[fd := t.(notified := t.notified + 1)])
  }

  lemma HandOutWritten(n: Net, fd: Fd, complete: seq<Buffer>)
    requires ConnsOk(n, Writing(fd, complete)) && fd in n.clients && complete != []
    ensures ConnsOk(Told(n, fd), Writing(fd, complete[1..]).(wids := Ids(complete)))
  {
    var t, m := n.traffic[fd], Writing(fd, complete);
    var n', m' := Told(n, fd), Writing(fd, complete[1..]).(wids := Ids(complete));
    assert ConnOk(n, m, fd);
    assert ConnOk(n', m', fd) by {
      hide ReadOk, WriteOk, Bufs;
      WriteFrame(n.clients[fd], t, n.clients[fd], n'.traffic[fd], t.notified + |complete|);
      ReadFrame(n.clients[fd], t, n.clients[fd], n'.traffic[fd], t.delivered + []);
    }
    hide ConnOk, Bufs, Ids;
    OneConnChanges(n, m, n', m', fd);
  }

  lemma NotifyCallback(n: Net, fd: Fd, complete: seq<Buffer>, rs: seq<Request>)
    requires n.traffic.Keys == n.clients.Keys
    requires ConnsOk(n, Writing(fd, complete)) && PoolsOk(n, Writing(fd, complete)) && fd in n.clients && complete != []
    ensures var n', m := Serve(Told(n, fd), rs), Writing(fd, complete[1..]).(wids := Ids(complete));
            ConnsOk(n', m) && PoolsOk(n', m) && SameBooks(n, n') && AllKeepInterest(n, n')
  {
    hide Ids, Serve, ConnsOk, PoolsOk, SameBooks, AllKeepInterest;
    HandOutWritten(n, fd, complete);
    CallbackKeeps(n, Writing(fd, complete), Told(n, fd).traffic, Writing(fd, complete[1..]).(wids := Ids(complete)), rs);
  }

  lemma Notify1Keeps(n: Net, fd: Fd, complete: seq<Buffer>, rs: seq<Request>)
    requires n.traffic.Keys == n.clients.Keys
    requires ConnsOk(n, Writing(fd, complete)) && PoolsOk(n, Writing(fd, complete)) && fd in n.clients && complete != []
    ensures var n' := Notify1(n, fd, complete[0], rs);
            && ConnsOk(n', Writing(fd, complete[1..])) && PoolsOk(n', Writing(fd, complete[1..]))
            && SameBooks(n, n') && AllKeepInterest(n, n')
  {
    hide Ids, Serve, ConnsOk, PoolsOk, SameBooks, AllKeepInterest;
    var n1 := Serve(Told(n, fd), rs);
    NotifyCallback(n, fd, complete, rs);
    assert complete == [complete[0]] + complete[1..];
    ColumnsCons(complete[0], complete[1..]);
    GiveBackWritten(n1, Writing(fd, complete[1..]).(wids := Ids(complete)), complete[0].id, Writing(fd, complete[1..]));
    BooksChain(n, n1, Notify1(n, fd, complete[0], rs));
  }

  lemma {:induction false} NotifyKeeps(n: Net, fd: Fd, complete: seq<Buffer>, cbs: Callbacks)
    requires ConnsOk(n, Writing(fd, complete)) && PoolsOk(n, Writing(fd, complete)) && fd in n.clients
    ensures var n' := Notify(n, fd, complete, cbs);
            ConnsOk(n', AtRest) && PoolsOk(n', AtRest) && SameBooks(n, n') && AllKeepInterest(n, n')
    decreases |complete|
  {
    hide Notify1, ConnOk, PoolOk;
    if complete == [] {
      ConnsFrame(n, Writing(fd, complete), n, AtRest);
      PoolsFrame(n, Writing(fd, complete), n, AtRest);
    } else {
      var n1 := Notify1(n, fd, complete[0], First(cbs));
      Notify1Keeps(n, fd, complete, First(cbs));
      NotifyKeeps(n1, fd, complete[1..], Rest(cbs));
    }
  }

  // ---------- handlers keep the whole invariant ----------

  lemma InterestChain(n: Net, n1: Net, n2: Net, fd: Fd)
    requires fd in n.clients && SameBooks(n, n1) && OthersKeepInterest(n, n1, fd) && SameBooks(n1, n2) && AllKeepInterest(n1, n2)
    ensures SameBooks(n, n2) && OthersKeepInterest(n, n2, fd)
    ensures fd in n1.events && Out in n1.events[fd] ==> fd in n2.events && Out in n2.events[fd]
  {
  }

  lemma OnReadKeeps(n: Net, fd: Fd, bytes: seq<Byte>, ending: Ending, cbs: Callbacks)
    requires Valid(n) && fd in n.clients
    ensures ChainOk(n.clients[fd].rb)
    ensures var n' := OnRead(n, fd, bytes, ending, cbs);
            && Valid(n') && SameBooks(n, n') && OthersKeepInterest(n, n', fd)
            && (fd in n.events && Out in n.events[fd] ==> fd in n'.events && Out in n'.events[fd])
  {
    AfterReadingKeeps(n, fd, bytes, ending);
    var n1, n' := AfterReading(n, fd, bytes, ending), OnRead(n, fd, bytes, ending, cbs);
    var (complete, rest, used) := ReadChain(n.clients[fd].rb, bytes);
    AfterReadingBooks(n, fd, rest, bytes[..used], rest != [] && ending == PeerClosed);
    hide ConnsOk, PoolsOk, CountsOk, AdmissionOk, SameBooks, OthersKeepInterest, AllKeepInterest;
    DeliverKeeps(n1, fd, complete, cbs);
    InterestChain(n, n1, n', fd);
    SameBooksKeepCounts(n, n1);
    SameBooksKeepCounts(n1, n');
  }

  lemma OnWriteKeeps(n: Net, fd: Fd, room: nat, cbs: Callbacks)
    requires Valid(n) && fd in n.clients
    ensures ChainOk(n.clients[fd].wb)
    ensures var n' := OnWrite(n, fd, room, cbs);
            Valid(n') && SameBooks(n, n') && OthersKeepInterest(n, n', fd)
  {
    AfterWritingKeeps(n, fd, room);
    var n1, n' := AfterWriting(n, fd, room), OnWrite(n, fd, room, cbs);
    var (complete, rest, sent) := WriteChain(n.clients[fd].wb, room);
    AfterWritingBooks(n, fd, rest, sent);
    hide ConnsOk, PoolsOk, CountsOk, AdmissionOk, SameBooks, OthersKeepInterest, AllKeepInterest;
    NotifyKeeps(n1, fd, complete, cbs);
    InterestChain(n, n1, n', fd);
    SameBooksKeepCounts(n, n1);
    SameBooksKeepCounts(n1, n');
  }
}
