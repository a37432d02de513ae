/** What requests do: every AsyncRead queues one buffer of the size it names, every AsyncWrite one payload,
    on the connection it names and on no other, and both register the interest. */
module NetRequests {
  import opened Bytes
  import opened Stream
  import opened Epoll
  import opened NetModel

  function Size1(r: Request, fd: Fd): seq<nat> {
    if r.ReadRequest? && r.fd == fd then [r.size] else []
  }

  function Data1(r: Request, fd: Fd): seq<seq<Byte>> {
    if r.WriteRequest? && r.fd == fd then [r.data] else []
  }

  /** The sizes that `rs` asks `fd` to read, in order. */
  function Sizes(rs: seq<Request>, fd: Fd): seq<nat> {
    if rs == [] then [] else Size1(rs[0], fd) + Sizes(rs[1..], fd)
  }

  /** The payloads that `rs` asks `fd` to write, in order. */
  function Datas(rs: seq<Request>, fd: Fd): seq<seq<Byte>> {
    if rs == [] then [] else Data1(rs[0], fd) + Datas(rs[1..], fd)
  }

  lemma {:induction false} SizesAppend(a: seq<Request>, b: seq<Request>, fd: Fd)
    ensures Sizes(a + b, fd) == Sizes(a, fd) + Sizes(b, fd)
  {
    hide Size1;
    if a == [] {
      assert a + b == b;
    } else {
      SizesAppend(a[1..], b, fd);
      assert (a + b)[1..] == a[1..] + b && (a + b)[0] == a[0];
    }
  }

  lemma {:induction false} DatasAppend(a: seq<Request>, b: seq<Request>, fd: Fd)
    ensures Datas(a + b, fd) == Datas(a, fd) + Datas(b, fd)
  {
    hide Data1;
    if a == [] {
      assert a + b == b;
    } else {
      DatasAppend(a[1..], b, fd);
      assert (a + b)[1..] == a[1..] + b && (a + b)[0] == a[0];
    }
  }

  /** Connection `f` has been asked to read `sizes` more and to write `datas` more, and nothing else. */
  predicate ConnAsked(n: Net, n': Net, f: Fd, sizes: seq<nat>, datas: seq<seq<Byte>>)
    requires f in n.clients && f in n.traffic
  {
    && f in n'.clients && f in n'.traffic
    && (var (c, c', t) := (n.clients[f], n'.clients[f], n.traffic[f]);
        && n'.traffic[f] == t.(asked := t.asked + sizes, payloads := t.payloads + datas)
        && c'.listenfd == c.listenfd
        && c.rb <= c'.rb && Totals(c'.rb) == Totals(c.rb) + sizes
        && c.wb <= c'.wb && Bufs(c'.wb) == Bufs(c.wb) + datas)
    && (f in n'.events <==> f in n.events)
    && (f in n.events ==>
          n'.events[f] == n.events[f] + (if sizes != [] then {In} else {}) + (if datas != [] then {Out} else {}))
  }

  ghost predicate AllAsked(n: Net, n': Net, rs: seq<Request>)
    requires n.traffic.Keys == n.clients.Keys
  {
    && n'.clients.Keys == n.clients.Keys == n'.traffic.Keys
    && n'.listeners == n.listeners && n'.events.Keys == n.events.Keys
    && (forall f | f in n.clients :: ConnAsked(n, n', f, Sizes(rs, f), Datas(rs, f)))
    && (forall f | f in n.events && f !in n.clients :: n'.events[f] == n.events[f])
  }

  lemma AskNothing(n: Net, f: Fd)
    requires f in n.clients && f in n.traffic
    ensures ConnAsked(n, n, f, [], [])
  {
    var t := n.traffic[f];
    assert t.asked + [] == t.asked && t.payloads + [] == t.payloads;
  }

  lemma AsyncReadAsks(n: Net, fd: Fd, size: Size)
    requires n.traffic.Keys == n.clients.Keys && fd in n.clients
    ensures AllAsked(n, AsyncRead(n, fd, size), [ReadRequest(fd, size)])
  {
    hide GetFromPool;
    var rs, n' := [ReadRequest(fd, size)], AsyncRead(n, fd, size);
    assert rs[1..] == [];
    forall f | f in n.clients
      ensures ConnAsked(n, n', f, Sizes(rs, f), Datas(rs, f))
    {
      AskNothing(n, f);
      if f == fd {
        var b := n'.clients[fd].rb[|n.clients[fd].rb|];
        assert Totals(n.clients[fd].rb + [b]) == Totals(n.clients[fd].rb) + [b.total];
        assert Sizes(rs, f) == [size as nat] && Datas(rs, f) == [];
      }
    }
  }

  lemma AsyncWriteAsks(n: Net, fd: Fd, data: Payload)
    requires n.traffic.Keys == n.clients.Keys && fd in n.clients
    ensures AllAsked(n, AsyncWrite(n, fd, data), [WriteRequest(fd, data)])
  {
    hide GetFromPool;
    var rs, n' := [WriteRequest(fd, data)], AsyncWrite(n, fd, data);
    assert rs[1..] == [];
    forall f | f in n.clients
      ensures ConnAsked(n, n', f, Sizes(rs, f), Datas(rs, f))
    {
      AskNothing(n, f);
      if f == fd {
        var b := n'.clients[fd].wb[|n.clients[fd].wb|];
        assert Bufs(n.clients[fd].wb + [b]) == Bufs(n.clients[fd].wb) + [b.buf];
        assert Sizes(rs, f) == [] && Datas(rs, f) == [data];
      }
    }
  }

  lemma Serve1Asks(n: Net, r: Request)
    requires n.traffic.Keys == n.clients.Keys
    ensures AllAsked(n, Serve1(n, r), [r])
  {
    hide AsyncRead, AsyncWrite, ConnAsked;
    if r.fd in n.clients {
      match r
      case ReadRequest(fd, size) => AsyncReadAsks(n, fd, size);
      case WriteRequest(fd, data) => AsyncWriteAsks(n, fd, data);
    } else {
      assert [r][1..] == [];
      forall f | f in n.clients
        ensures ConnAsked(n, n, f, Sizes([r], f), Datas([r], f))
      {
        AskNothing(n, f);
      }
    }
  }

  lemma ConnAskedTwice(n: Net, n1: Net, n2: Net, f: Fd, s1: seq<nat>, d1: seq<seq<Byte>>, s2: seq<nat>, d2: seq<seq<Byte>>)
    requires f in n.clients && f in n.traffic && ConnAsked(n, n1, f, s1, d1) && ConnAsked(n1, n2, f, s2, d2)
    ensures ConnAsked(n, n2, f, s1 + s2, d1 + d2)
  {
    var t := n.traffic[f];
    assert (t.asked + s1) + s2 == t.asked + (s1 + s2);
    assert (t.payloads + d1) + d2 == t.payloads + (d1 + d2);
    hide Totals, Bufs;
    assert Totals(n.clients[f].rb) + s1 + s2 == Totals(n.clients[f].rb) + (s1 + s2);
    assert Bufs(n.clients[f].wb) + d1 + d2 == Bufs(n.clients[f].wb) + (d1 + d2);
  }

  lemma AllAskedTwice(n: Net, n1: Net, n2: Net, a: seq<Request>, b: seq<Request>)
    requires n.traffic.Keys == n.clients.Keys && n1.traffic.Keys == n1.clients.Keys
    requires AllAsked(n, n1, a) && AllAsked(n1, n2, b)
    ensures AllAsked(n, n2, a + b)
  {
    hide ConnAsked;
    forall f | f in n.clients
      ensures ConnAsked(n, n2, f, Sizes(a + b, f), Datas(a + b, f))
    {
      SizesAppend(a, b, f);
      DatasAppend(a, b, f);
      assert ConnAsked(n, n1, f, Sizes(a, f), Datas(a, f)) && ConnAsked(n1, n2, f, Sizes(b, f), Datas(b, f));
      ConnAskedTwice(n, n1, n2, f, Sizes(a, f), Datas(a, f), Sizes(b, f), Datas(b, f));
    }
  }

  /** All the requests of a callback: each connection's requests to read grow by exactly the sizes given for
      it, its payloads by the data given for it, in order; its chains grow likewise; its interest grows by
      exactly what that takes; and nothing else of any connection or listener changes. */
  lemma {:induction false} ServeAsks(n: Net, rs: seq<Request>)
    requires n.traffic.Keys == n.clients.Keys
    ensures AllAsked(n, Serve(n, rs), rs)
    decreases |rs|
  {
    hide ConnAsked, Serve1;
    if rs == [] {
      forall f | f in n.clients
        ensures ConnAsked(n, n, f, [], [])
      {
        AskNothing(n, f);
      }
    } else {
      Serve1Asks(n, rs[0]);
      ServeAsks(Serve1(n, rs[0]), rs[1..]);
      AllAskedTwice(n, Serve1(n, rs[0]), Serve(n, rs), [rs[0]], rs[1..]);
      assert [rs[0]] + rs[1..] == rs;
    }
  }
}
