/** The event handler as a ledger: for each connection only what was asked for, received, given to send and
    sent. No chains, no buffers, no pools, no interest map. The module proves that handlers, batches and whole
    runs of the event loop do to the connections exactly what the ledger says, so that nothing is read, sent,
    called back or left registered but what the ledger's arithmetic calls for. */
module NetLedger {
  import opened Bytes
  import opened Stream
  import opened Epoll
  import opened NetModel
  import opened NetInvariants
  import opened NetHandlers
  import opened NetLifecycle
  import opened NetRuns
  import opened NetRequests

  // ---------- the ledger ----------

  /** How many of `sizes`, from the first on, are whole within `got`. */
  function Whole(sizes: seq<nat>, got: nat): nat {
    if sizes == [] || got < sizes[0] then 0 else 1 + Whole(sizes[1..], got - sizes[0])
  }

  /** `reading`: input is of interest. */
  datatype Line = Line(listenfd: Fd, asked: seq<nat>, received: seq<Byte>, payloads: seq<seq<Byte>>, sent: seq<Byte>,
                       hungUp: bool, reading: bool)
  {
    /** Bytes asked for and not received yet. */
    function Wanted(): nat {
      if |received| <= Sum(asked) then Sum(asked) - |received| else 0
    }

    /** Bytes given to AsyncWrite and not sent yet. */
    function Unsent(): seq<Byte> {
      if |sent| <= |Flat(payloads)| then Flat(payloads)[|sent|..] else []
    }

    function Answered(): nat {
      Whole(asked, |received|)
    }

    function Notified(): nat {
      Whole(Lengths(payloads), |sent|)
    }

    function Asked(sizes: seq<nat>, datas: seq<seq<Byte>>): Line {
      this.(asked := asked + sizes, payloads := payloads + datas, reading := reading || sizes != [])
    }

    /** The socket has `bytes` and then ends so: as much is received as is wanted. */
    function Reads(bytes: seq<Byte>, ending: Ending): Line {
      this.(received := received + bytes[..Min(|bytes|, Wanted())],
            hungUp := hungUp || (ending.PeerClosed? && |bytes| < Wanted()),
            reading := reading && ending.WouldBlock? && |bytes| < Wanted())
    }

    function Writes(room: nat): Line {
      this.(sent := sent + Unsent()[..Min(room, |Unsent()|)])
    }
  }

  type Ledger = map<Fd, Line>

  function Ask(book: Ledger, rs: seq<Request>): Ledger {
    map f | f in book :: book[f].Asked(Sizes(rs, f), Datas(rs, f))
  }

  /** The requests of the first `k` callbacks. */
  function Served(cbs: Callbacks, k: int): seq<Request>
    decreases k
  {
    if k <= 0 then [] else First(cbs) + Served(Rest(cbs), k - 1)
  }

  /** A read, then one callback for every request that it answers. */
  function Input(book: Ledger, fd: Fd, bytes: seq<Byte>, ending: Ending, cbs: Callbacks): Ledger {
    if fd !in book then book else
      var l := book[fd].Reads(bytes, ending);
      Ask(book[fd := l], Served(cbs, l.Answered() - book[fd].Answered()))
  }

  function Output(book: Ledger, fd: Fd, room: nat, cbs: Callbacks): Ledger {
    if fd !in book then book else
      var l := book[fd].Writes(room);
      Ask(book[fd := l], Served(cbs, l.Notified() - book[fd].Notified()))
  }

  function Closed(book: Ledger, fd: Fd, rs: seq<Request>): Ledger {
    Ask(book - {fd}, rs)
  }

  function AcceptedOn(book: Ledger, listenfd: Fd, accepted: seq<Accepted>): Ledger
    decreases |accepted|
  {
    if accepted == [] then book else
      var a := accepted[0];
      AcceptedOn(if a.fd in book then book else Ask(book[a.fd := Line(listenfd, [], [], [], [], false, false)], a.rs),
                 listenfd, accepted[1..])
  }

  // ---------- the ledger of a handler ----------

  function LineOf(n: Net, f: Fd): Line
    requires f in n.clients && f in n.traffic
  {
    var t := n.traffic[f];
    Line(n.clients[f].listenfd, t.asked, t.received, t.payloads, t.sent, t.hungUp, f in n.events && In in n.events[f])
  }

  function Book(n: Net): Ledger {
    map f | f in n.clients && f in n.traffic :: LineOf(n, f)
  }

  // ---------- arithmetic of whole requests ----------

  lemma {:induction false} WholeSkips(a: seq<nat>, b: seq<nat>, x: nat)
    ensures Whole(a + b, Sum(a) + x) == |a| + Whole(b, x)
  {
    if a == [] {
      assert a + b == b;
    } else {
      assert (a + b)[1..] == a[1..] + b;
      WholeSkips(a[1..], b, x);
    }
  }

  lemma {:induction false} SumAppend(a: seq<nat>, b: seq<nat>)
    ensures Sum(a + b) == Sum(a) + Sum(b)
  {
    if a == [] {
      assert a + b == b;
    } else {
      assert (a + b)[1..] == a[1..] + b;
      SumAppend(a[1..], b);
    }
  }

  /** What a chain still needs. */
  function Need(chain: seq<Buffer>): int
    requires ChainOk(chain)
  {
    Sum(Totals(chain)) - |Partial(chain)|
  }

  lemma NeedFront(chain: seq<Buffer>)
    requires ChainOk(chain) && chain != []
    ensures Need(chain) == chain[0].GetLeft() + Need(chain[1..]) && |Partial(chain[1..])| == 0
    ensures Totals(chain) == [chain[0].total] + Totals(chain[1..])
  {
    assert Totals(chain)[1..] == Totals(chain[1..]);
  }

  /** A chain takes what it needs and no more, and completes as many buffers as that fills. */
  lemma {:induction false} ReadChainTakes(chain: seq<Buffer>, bytes: seq<Byte>)
    requires ChainOk(chain)
    ensures Need(chain) >= 0
    ensures var (complete, rest, used) := ReadChain(chain, bytes);
            && used == Min(|bytes|, Need(chain))
            && (rest == [] <==> Need(chain) <= |bytes|)
            && |complete| == Whole(Totals(chain), |Partial(chain)| + used)
    decreases |chain|
  {
    hide Totals;
    if chain == [] {
      assert Totals(chain) == [];
    } else {
      NeedFront(chain);
      var need := chain[0].GetLeft();
      ReadChainTakes(chain[1..], if |bytes| < need then bytes else bytes[need..]);
      hide Need;
    }
  }

  lemma {:induction false} WriteChainGives(chain: seq<Buffer>, room: nat)
    requires ChainOk(chain)
    ensures Need(chain) >= 0
    ensures var (complete, rest, sent) := WriteChain(chain, room);
            && |sent| == Min(room, Need(chain))
            && (rest == [] <==> Need(chain) <= room)
            && |complete| == Whole(Totals(chain), |Partial(chain)| + |sent|)
    decreases |chain|
  {
    hide Totals;
    if chain == [] {
      assert Totals(chain) == [];
    } else {
      NeedFront(chain);
      var need := chain[0].GetLeft();
      WriteChainGives(chain[1..], if room < need then room else room - need);
      hide Need;
    }
  }

  // ---------- what the ledger tells ----------

  lemma ReadFacts(c: Client, t: Traffic, more: nat)
    requires ReadOk(c, t, t.delivered)
    ensures ChainOk(c.rb) && |t.received| <= Sum(t.asked) && Sum(t.asked) - |t.received| == Need(c.rb)
    ensures Whole(t.asked, |t.received| + more) == |t.delivered| + Whole(Totals(c.rb), |Partial(c.rb)| + more)
    ensures Whole(Totals(c.rb), |Partial(c.rb)|) == 0
  {
    var sizes := Lengths(t.delivered);
    FlatLength(t.delivered);
    SumAppend(sizes, Totals(c.rb));
    ReadChainTakes(c.rb, []);
    hide Flat, Totals, Lengths, Partial, ChainOk;
    WholeSkips(sizes, Totals(c.rb), |Partial(c.rb)| + more);
  }

  lemma LengthsSplit(payloads: seq<seq<Byte>>, done: nat, chain: seq<Buffer>)
    requires ChainOk(chain) && done <= |payloads| && payloads[done..] == Bufs(chain)
    ensures Lengths(payloads) == Lengths(payloads[..done]) + Totals(chain)
    ensures |Flat(payloads)| == Sum(Lengths(payloads[..done])) + Sum(Totals(chain))
  {
    var whole, split := Lengths(payloads), Lengths(payloads[..done]) + Totals(chain);
    forall i | 0 <= i < |payloads|
      ensures whole[i] == split[i]
    {
      if i >= done {
        assert payloads[i] == payloads[done..][i - done] == chain[i - done].buf;
      }
    }
    FlatLength(payloads);
    SumAppend(Lengths(payloads[..done]), Totals(chain));
  }

  lemma WriteFacts(c: Client, t: Traffic, more: nat)
    requires WriteOk(c, t, t.notified)
    ensures ChainOk(c.wb) && |t.sent| <= |Flat(t.payloads)| && |Flat(t.payloads)| - |t.sent| == Need(c.wb)
    ensures Whole(Lengths(t.payloads), |t.sent| + more) == t.notified + Whole(Totals(c.wb), |Partial(c.wb)| + more)
    ensures Whole(Totals(c.wb), |Partial(c.wb)|) == 0
  {
    LengthsSplit(t.payloads, t.notified, c.wb);
    FlatLength(t.payloads[..t.notified]);
    WriteChainGives(c.wb, 0);
    hide Flat, Totals, Lengths, Partial, ChainOk, Bufs;
    WholeSkips(Lengths(t.payloads[..t.notified]), Totals(c.wb), |Partial(c.wb)| + more);
  }

  /** Reading a connection's chain is reading what its line wants. */
  lemma ReadingIsLine(c: Client, t: Traffic, bytes: seq<Byte>)
    requires ReadOk(c, t, t.delivered)
    ensures |t.received| <= Sum(t.asked)
    ensures ReadChain(c.rb, bytes).2 == Min(|bytes|, Sum(t.asked) - |t.received|)
    ensures ReadChain(c.rb, bytes).1 == [] <==> Sum(t.asked) - |t.received| <= |bytes|
  {
    hide ReadOk, ReadChain, Need, Totals, Partial, Whole, Sum, ChainOk;
    ReadFacts(c, t, 0);
    ReadChainTakes(c.rb, bytes);
  }

  /** And it completes the requests that this answers. */
  lemma ReadingCompletes(c: Client, t: Traffic, bytes: seq<Byte>)
    requires ReadOk(c, t, t.delivered)
    ensures var r := ReadChain(c.rb, bytes);
            |r.0| == Whole(t.asked, |t.received| + r.2) - Whole(t.asked, |t.received|)
  {
    hide ReadOk, ReadChain, Need, Totals, Partial, Whole, Sum, ChainOk;
    ReadFacts(c, t, 0);
    ReadChainTakes(c.rb, bytes);
    ReadFacts(c, t, ReadChain(c.rb, bytes).2);
  }

  lemma WritingIsLine(c: Client, t: Traffic, room: nat)
    requires WriteOk(c, t, t.notified)
    ensures |t.sent| <= |Flat(t.payloads)|
    ensures var unsent := Flat(t.payloads)[|t.sent|..]; WriteChain(c.wb, room).2 == unsent[..Min(room, |unsent|)]
    ensures WriteChain(c.wb, room).1 == [] <==> |Flat(t.payloads)| - |t.sent| <= room
  {
    hide WriteChain, WriteOk, Need, Totals, Partial, Flat, Lengths, Whole, ChainOk;
    WriteFacts(c, t, 0);
    WriteChainGives(c.wb, room);
    SentContinues(c, t, room);
  }

  lemma WritingCompletes(c: Client, t: Traffic, room: nat)
    requires WriteOk(c, t, t.notified)
    ensures var r := WriteChain(c.wb, room);
            |r.0| == Whole(Lengths(t.payloads), |t.sent| + |r.2|) - Whole(Lengths(t.payloads), |t.sent|)
  {
    hide WriteChain, WriteOk, Need, Totals, Partial, Flat, Lengths, Whole, ChainOk;
    WriteFacts(c, t, 0);
    WriteChainGives(c.wb, room);
    WriteFacts(c, t, |WriteChain(c.wb, room).2|);
  }

  // What is sent next is what comes next in the payloads.
  lemma SentContinues(c: Client, t: Traffic, room: nat)
    requires WriteOk(c, t, t.notified)
    ensures t.sent + WriteChain(c.wb, room).2 <= Flat(t.payloads)
  {
    var (complete, rest, sent) := WriteChain(c.wb, room);
    CutWrite(c, t, t.notified, room);
    var c', t', done := c.(wb := rest), t.(sent := t.sent + sent), t.notified + |complete|;
    assert done < |t.payloads| ==> t.payloads[done] == Bufs(rest)[0];
    hide WriteChain, Flat;
    SentReaches(t.payloads, done, Partial(rest));
  }

  // ---------- serving requests ----------

  predicate Registered(n: Net) {
    n.traffic.Keys == n.clients.Keys && n.clients.Keys <= n.events.Keys
  }

  lemma LineAsked(n: Net, n': Net, f: Fd, sizes: seq<nat>, datas: seq<seq<Byte>>)
    requires f in n.clients && f in n.traffic && f in n.events && ConnAsked(n, n', f, sizes, datas)
    ensures f in n'.clients && f in n'.traffic && LineOf(n', f) == LineOf(n, f).Asked(sizes, datas)
  {
    hide Totals, Bufs;
  }

  lemma AskedOnBook(n: Net, n': Net, rs: seq<Request>)
    requires Registered(n) && AllAsked(n, n', rs)
    ensures Registered(n') && Book(n') == Ask(Book(n), rs)
  {
    hide Sizes, Datas, LineOf, ConnAsked, Line.Asked;
    forall f | f in n.clients
      ensures f in n'.clients && f in n'.traffic && LineOf(n', f) == LineOf(n, f).Asked(Sizes(rs, f), Datas(rs, f))
    {
      LineAsked(n, n', f, Sizes(rs, f), Datas(rs, f));
    }
  }

  lemma ServeOnBook(n: Net, rs: seq<Request>)
    requires Registered(n)
    ensures Registered(Serve(n, rs)) && Book(Serve(n, rs)) == Ask(Book(n), rs)
  {
    hide Serve, AllAsked;
    ServeAsks(n, rs);
    AskedOnBook(n, Serve(n, rs), rs);
  }

  lemma LineAskedTwice(l: Line, s1: seq<nat>, d1: seq<seq<Byte>>, s2: seq<nat>, d2: seq<seq<Byte>>)
    ensures l.Asked(s1, d1).Asked(s2, d2) == l.Asked(s1 + s2, d1 + d2)
  {
    assert (l.asked + s1) + s2 == l.asked + (s1 + s2);
    assert (l.payloads + d1) + d2 == l.payloads + (d1 + d2);
  }

  lemma AskTwice(book: Ledger, a: seq<Request>, b: seq<Request>)
    ensures Ask(Ask(book, a), b) == Ask(book, a + b)
  {
    hide Sizes, Datas, Line.Asked;
    forall f | f in book
      ensures Ask(Ask(book, a), b)[f] == Ask(book, a + b)[f]
    {
      SizesAppend(a, b, f);
      DatasAppend(a, b, f);
      LineAskedTwice(book[f], Sizes(a, f), Datas(a, f), Sizes(b, f), Datas(b, f));
    }
  }

  lemma AskedNothing(book: Ledger)
    ensures Ask(book, []) == book
  {
    forall f | f in book
      ensures Ask(book, [])[f] == book[f]
    {
      assert book[f].asked + [] == book[f].asked && book[f].payloads + [] == book[f].payloads;
    }
  }

  lemma SameBook(n: Net, n': Net)
    requires n'.clients == n.clients && n'.events == n.events && n'.traffic.Keys == n.traffic.Keys
    requires forall f | f in n.traffic ::
               n'.traffic[f] == n.traffic[f].(delivered := n'.traffic[f].delivered, notified := n'.traffic[f].notified)
    ensures Book(n') == Book(n)
  {
  }

  lemma Deliver1OnBook(n: Net, fd: Fd, b: Buffer, rs: seq<Request>)
    requires Registered(n) && fd in n.clients
    ensures var n' := Deliver1(n, fd, b, rs); Registered(n') && Book(n') == Ask(Book(n), rs)
  {
    var t := n.traffic[fd];
    var n0 := n.(traffic := n.traffic[fd := t.(delivered := t.delivered + [b.buf])]);
    hide Serve, Ask, Book, PutIntoPool;
    SameBook(n, n0);
    ServeOnBook(n0, rs);
    SameBook(Serve(n0, rs), Deliver1(n, fd, b, rs));
  }

  lemma Notify1OnBook(n: Net, fd: Fd, b: Buffer, rs: seq<Request>)
    requires Registered(n) && fd in n.clients
    ensures var n' := Notify1(n, fd, b, rs); Registered(n') && Book(n') == Ask(Book(n), rs)
  {
    hide Serve, Ask, Book, PutIntoPool;
    SameBook(n, Told(n, fd));
    ServeOnBook(Told(n, fd), rs);
    SameBook(Serve(Told(n, fd), rs), Notify1(n, fd, b, rs));
  }

  lemma {:induction false} DeliverOnBook(n: Net, fd: Fd, complete: seq<Buffer>, cbs: Callbacks)
    requires Registered(n) && fd in n.clients
    ensures var n' := Deliver(n, fd, complete, cbs); Registered(n') && Book(n') == Ask(Book(n), Served(cbs, |complete|))
    decreases |complete|
  {
    hide Deliver1, Book, Ask;
    if complete == [] {
      AskedNothing(Book(n));
    } else {
      Deliver1OnBook(n, fd, complete[0], First(cbs));
      DeliverOnBook(Deliver1(n, fd, complete[0], First(cbs)), fd, complete[1..], Rest(cbs));
      AskTwice(Book(n), First(cbs), Served(Rest(cbs), |complete| - 1));
    }
  }

  lemma {:induction false} NotifyOnBook(n: Net, fd: Fd, complete: seq<Buffer>, cbs: Callbacks)
    requires Registered(n) && fd in n.clients
    ensures var n' := Notify(n, fd, complete, cbs); Registered(n') && Book(n') == Ask(Book(n), Served(cbs, |complete|))
    decreases |complete|
  {
    hide Notify1, Book, Ask;
    if complete == [] {
      AskedNothing(Book(n));
    } else {
      Notify1OnBook(n, fd, complete[0], First(cbs));
      NotifyOnBook(Notify1(n, fd, complete[0], First(cbs)), fd, complete[1..], Rest(cbs));
      AskTwice(Book(n), First(cbs), Served(Rest(cbs), |complete| - 1));
    }
  }

  // ---------- the handlers ----------

  lemma RestIsRegistered(n: Net)
    requires Valid(n)
    ensures Registered(n)
  {
    forall f | f in n.clients ensures f in n.events {
      assert ConnOk(n, AtRest, f);
    }
  }

  lemma RestIsRight(n: Net, fd: Fd)
    requires Valid(n) && fd in n.clients
    ensures fd in n.traffic
    ensures ReadOk(n.clients[fd], n.traffic[fd], n.traffic[fd].delivered)
    ensures WriteOk(n.clients[fd], n.traffic[fd], n.traffic[fd].notified)
    ensures ChainOk(n.clients[fd].rb) && ChainOk(n.clients[fd].wb)
  {
    hide ConnsOk, PoolsOk, CountsOk, AdmissionOk, ReadOk, WriteOk;
    RestFacts(n, fd);
  }

  lemma ReadLine(n: Net, fd: Fd, bytes: seq<Byte>, ending: Ending)
    requires Registered(n) && fd in n.clients && ReadOk(n.clients[fd], n.traffic[fd], n.traffic[fd].delivered)
    ensures LineOf(AfterReading(n, fd, bytes, ending), fd) == LineOf(n, fd).Reads(bytes, ending)
    ensures |ReadChain(n.clients[fd].rb, bytes).0| == LineOf(n, fd).Reads(bytes, ending).Answered() - LineOf(n, fd).Answered()
  {
    hide ReadChain, ReadOk, Sum, Whole;
    ReadingIsLine(n.clients[fd], n.traffic[fd], bytes);
    ReadingCompletes(n.clients[fd], n.traffic[fd], bytes);
  }

  lemma WriteLine(n: Net, fd: Fd, room: nat)
    requires Registered(n) && fd in n.clients && WriteOk(n.clients[fd], n.traffic[fd], n.traffic[fd].notified)
    ensures LineOf(AfterWriting(n, fd, room), fd) == LineOf(n, fd).Writes(room)
    ensures |WriteChain(n.clients[fd].wb, room).0| == LineOf(n, fd).Writes(room).Notified() - LineOf(n, fd).Notified()
  {
    hide WriteChain, WriteOk, Flat, Whole, Lengths;
    WritingIsLine(n.clients[fd], n.traffic[fd], room);
    WritingCompletes(n.clients[fd], n.traffic[fd], room);
  }

  // Only connection `fd` has another line.
  lemma OneLine(n: Net, n': Net, fd: Fd)
    requires Registered(n) && fd in n.clients
    requires n'.clients.Keys == n.clients.Keys && n'.traffic.Keys == n.traffic.Keys && n'.events.Keys == n.events.Keys
    requires forall f | f in n.clients && f != fd ::
               n'.clients[f] == n.clients[f] && n'.traffic[f] == n.traffic[f] && n'.events[f] == n.events[f]
    ensures Registered(n') && Book(n') == Book(n)[fd := LineOf(n', fd)]
  {
  }

  lemma AfterReadingOnBook(n: Net, fd: Fd, bytes: seq<Byte>, ending: Ending)
    requires Registered(n) && fd in n.clients && ReadOk(n.clients[fd], n.traffic[fd], n.traffic[fd].delivered)
    ensures var n' := AfterReading(n, fd, bytes, ending);
            Registered(n') && Book(n') == Book(n)[fd := LineOf(n, fd).Reads(bytes, ending)]
  {
    ReadLine(n, fd, bytes, ending);
    hide ReadChain, ReadOk, Line.Reads, LineOf, Book;
    OneLine(n, AfterReading(n, fd, bytes, ending), fd);
  }

  lemma AfterWritingOnBook(n: Net, fd: Fd, room: nat)
    requires Registered(n) && fd in n.clients && WriteOk(n.clients[fd], n.traffic[fd], n.traffic[fd].notified)
    ensures var n' := AfterWriting(n, fd, room);
            Registered(n') && Book(n') == Book(n)[fd := LineOf(n, fd).Writes(room)]
  {
    WriteLine(n, fd, room);
    hide WriteChain, WriteOk, Line.Writes, LineOf, Book;
    OneLine(n, AfterWriting(n, fd, room), fd);
  }

  lemma BookAt(n: Net, fd: Fd)
    requires Registered(n)
    ensures Book(n).Keys == n.clients.Keys
    ensures fd in n.clients ==> Book(n)[fd] == LineOf(n, fd)
  {
  }

  lemma ReadThenDelivered(book: Ledger, n1: Net, fd: Fd, bytes: seq<Byte>, ending: Ending, complete: seq<Buffer>, cbs: Callbacks)
    requires Registered(n1) && fd in n1.clients && fd in book && Book(n1) == book[fd := book[fd].Reads(bytes, ending)]
    requires |complete| == book[fd].Reads(bytes, ending).Answered() - book[fd].Answered()
    ensures Book(Deliver(n1, fd, complete, cbs)) == Input(book, fd, bytes, ending, cbs)
  {
    hide Registered, Deliver, Ask, Served, Line.Answered, Line.Reads, Book;
    DeliverOnBook(n1, fd, complete, cbs);
  }

  lemma WrittenThenNotified(book: Ledger, n1: Net, fd: Fd, room: nat, complete: seq<Buffer>, cbs: Callbacks)
    requires Registered(n1) && fd in n1.clients && fd in book && Book(n1) == book[fd := book[fd].Writes(room)]
    requires |complete| == book[fd].Writes(room).Notified() - book[fd].Notified()
    ensures Book(Notify(n1, fd, complete, cbs)) == Output(book, fd, room, cbs)
  {
    hide Registered, Notify, Ask, Served, Line.Notified, Line.Writes, Book;
    NotifyOnBook(n1, fd, complete, cbs);
  }

  /** OnRead does to the connections what the ledger's input does. */
  lemma OnReadOnBook(n: Net, fd: Fd, bytes: seq<Byte>, ending: Ending, cbs: Callbacks)
    requires Valid(n) && fd in n.clients
    ensures ChainOk(n.clients[fd].rb)
    ensures Book(OnRead(n, fd, bytes, ending, cbs)) == Input(Book(n), fd, bytes, ending, cbs)
  {
    RestIsRight(n, fd);
    RestIsRegistered(n);
    hide Valid, ReadOk, WriteOk, ChainOk, Deliver, ReadChain, AfterReading, Input, Line.Answered, Line.Reads, LineOf, Book;
    BookAt(n, fd);
    AfterReadingOnBook(n, fd, bytes, ending);
    ReadLine(n, fd, bytes, ending);
    ReadThenDelivered(Book(n), AfterReading(n, fd, bytes, ending), fd, bytes, ending, ReadChain(n.clients[fd].rb, bytes).0, cbs);
  }

  lemma OnWriteOnBook(n: Net, fd: Fd, room: nat, cbs: Callbacks)
    requires Valid(n) && fd in n.clients
    ensures ChainOk(n.clients[fd].wb)
    ensures Book(OnWrite(n, fd, room, cbs)) == Output(Book(n), fd, room, cbs)
  {
    RestIsRight(n, fd);
    RestIsRegistered(n);
    hide Valid, ReadOk, WriteOk, ChainOk, Notify, WriteChain, AfterWriting, Output, Line.Notified, Line.Writes, LineOf, Book;
    BookAt(n, fd);
    AfterWritingOnBook(n, fd, room);
    WriteLine(n, fd, room);
    WrittenThenNotified(Book(n), AfterWriting(n, fd, room), fd, room, WriteChain(n.clients[fd].wb, room).0, cbs);
  }

  lemma OthersAsked(n: Net, fd: Fd, rs: seq<Request>)
    requires Registered(n)
    ensures var n1 := BeforeClearing(n, fd, rs);
            forall f | f in n.clients && f != fd ::
              f in n1.clients && f in n1.traffic && LineOf(n1, f) == LineOf(n, f).Asked(Sizes(rs, f), Datas(rs, f))
  {
    var n0 := n.(events := WithoutConn(n.events, fd));
    ServeAsks(n0, rs);
    hide Serve, Sizes, Datas, ConnAsked, Line.Asked;
    forall f | f in n.clients && f != fd
      ensures f in Serve(n0, rs).clients && LineOf(Serve(n0, rs), f) == LineOf(n, f).Asked(Sizes(rs, f), Datas(rs, f))
    {
      LineAsked(n0, Serve(n0, rs), f, Sizes(rs, f), Datas(rs, f));
      assert LineOf(n0, f) == LineOf(n, f);
    }
  }

  lemma ClearedLines(n: Net, fd: Fd)
    requires n.traffic.Keys == n.clients.Keys && n.clients.Keys !! n.listeners.Keys
    requires fd in n.clients && n.clients[fd].listenfd in n.listeners && n.listeners[n.clients[fd].listenfd].currentconns > 0
    ensures Book(ClearSession(n, fd)) == Book(n) - {fd}
  {
    hide Ids;
  }

  lemma ClosedLines(n: Net, n1: Net, fd: Fd, rs: seq<Request>)
    requires n.traffic.Keys == n.clients.Keys == n1.clients.Keys == n1.traffic.Keys
    requires forall f | f in n.clients && f != fd :: LineOf(n1, f) == LineOf(n, f).Asked(Sizes(rs, f), Datas(rs, f))
    ensures Book(n1) - {fd} == Closed(Book(n), fd, rs)
  {
    hide Sizes, Datas, LineOf, Line.Asked;
  }

  /** OnClose and OnError take the connection off the ledger; the requests their callback makes are entered
      for the others. */
  lemma OnCloseOnBook(n: Net, fd: Fd, rs: seq<Request>)
    requires Valid(n) && fd in n.clients
    ensures Book(OnClose(n, fd, rs)) == Closed(Book(n), fd, rs)
  {
    RestIsRegistered(n);
    OnCloseInSteps(n, fd, rs);
    BeforeClearingKeeps(n, fd, rs);
    OthersAsked(n, fd, rs);
    var n1 := BeforeClearing(n, fd, rs);
    assert n1.clients.Keys !! n1.listeners.Keys;
    hide Valid, ConnsOk, PoolsOk, CountsOk, AdmissionOk, BeforeClearing, ClearSession, OnClose, Book, Closed, LineOf;
    ClearedLines(n1, fd);
    ClosedLines(n, n1, fd, rs);
  }

  lemma EnteredOnBook(n: Net, fd: Fd, listenfd: Fd)
    requires Registered(n) && fd !in n.clients && fd !in n.events
    ensures var n' := Entered(n, fd, listenfd);
            Registered(n') && Book(n') == Book(n)[fd := Line(listenfd, [], [], [], [], false, false)]
  {
  }

  lemma AddNewConnOnBook(n: Net, fd: Fd, listenfd: Fd, rs: seq<Request>)
    requires Registered(n) && fd !in n.clients && fd !in n.events && listenfd in n.listeners
    ensures var n' := AddNewConn(n, fd, listenfd, rs);
            Registered(n') && Book(n') == Ask(Book(n)[fd := Line(listenfd, [], [], [], [], false, false)], rs)
  {
    EnteredOnBook(n, fd, listenfd);
    hide Entered, Serve, Book, Ask;
    ServeOnBook(Entered(n, fd, listenfd), rs);
    ServeListeners(Entered(n, fd, listenfd), rs);
    var n1 := Serve(Entered(n, fd, listenfd), rs);
    SameBook(n1, AddNewConn(n, fd, listenfd, rs));
  }

  lemma {:induction false} AcceptAllOnBook(n: Net, listenfd: Fd, accepted: seq<Accepted>)
    requires Accepting(n, listenfd) && Registered(n)
    requires forall a | a in accepted :: a.fd !in n.listeners
    ensures Book(AcceptAll(n, listenfd, accepted)) == AcceptedOn(Book(n), listenfd, accepted)
    decreases |accepted|
  {
    if accepted != [] {
      var a := accepted[0];
      BookAt(n, a.fd);
      assert a.fd !in n.clients ==> a.fd !in n.events;
      hide Accepting, AddNewConn, Book, Ask, Limits;
      if a.fd in n.clients {
        AcceptAllOnBook(n, listenfd, accepted[1..]);
      } else {
        var n1 := AddNewConn(n, a.fd, listenfd, a.rs);
        AddNewConnKeeps(n, a.fd, listenfd, a.rs);
        SameLimits(n, n1);
        AddNewConnOnBook(n, a.fd, listenfd, a.rs);
        AcceptAllOnBook(n1, listenfd, accepted[1..]);
      }
    }
  }

  lemma OnAcceptOnBook(n: Net, listenfd: Fd, accepted: seq<Accepted>)
    requires Valid(n) && listenfd in n.listeners
    requires forall a | a in accepted :: a.fd !in n.listeners
    ensures Book(OnAccept(n, listenfd, accepted)) == AcceptedOn(Book(n), listenfd, accepted)
  {
    hide Valid, Accepting, AcceptAll, AcceptedOn, Limits, Book, AllKeepInterest;
    RestIsRegistered(n);
    ValidIsAccepting(n, listenfd);
    AcceptNothing(n, listenfd);
    AcceptAllOnBook(n, listenfd, accepted);
    AcceptAllKeeps(n, listenfd, accepted);
    var n1 := AcceptAll(n, listenfd, accepted);
    SameLimits(n, n1);
    ListenerOff(n1, listenfd);
  }

  lemma AcceptNothing(n: Net, listenfd: Fd)
    requires n.traffic.Keys == n.clients.Keys && listenfd in n.listeners
    ensures AcceptAll(n, listenfd, []) == n
  {
  }

  lemma ValidIsAccepting(n: Net, listenfd: Fd)
    requires Valid(n) && listenfd in n.listeners
    ensures Accepting(n, listenfd)
  {
  }

  lemma ListenerOff(n: Net, listenfd: Fd)
    requires Accepting(n, listenfd)
    ensures Book(n.(events := WithoutConn(n.events, listenfd))) == Book(n)
  {
    hide ConnsOk, PoolsOk, AdmissionOkBut;
    assert listenfd !in n.clients;
  }

  // ---------- runs ----------

  /** The ledger's entries for one reported descriptor. */
  function Handled(book: Ledger, listeners: set<Fd>, r: Ready): Ledger {
    if r.fd in listeners then AcceptedOn(book, r.fd, r.accepted)
    else if r.error then Closed(book, r.fd, r.closeRs)
    else
      var book1 := if r.input then Input(book, r.fd, r.bytes, r.ending, r.readCbs) else book;
      var book2 := if r.output then Output(book1, r.fd, r.room, r.writeCbs) else book1;
      if r.hup then Closed(book2, r.fd, r.closeRs) else book2
  }

  function HandledAll(book: Ledger, listeners: set<Fd>, ready: seq<Ready>): Ledger
    decreases |ready|
  {
    if ready == [] then book else HandledAll(Handled(book, listeners, ready[0]), listeners, ready[1..])
  }

  function RoundOn(book: Ledger, listeners: set<Fd>, round: Round): Ledger {
    match round
    case Timeout(rs) => Ask(book, rs)
    case Batch(ready) => HandledAll(book, listeners, ready)
  }

  function RunOn(book: Ledger, listeners: set<Fd>, rounds: seq<Round>): Ledger
    decreases |rounds|
  {
    if rounds == [] then book else RunOn(RoundOn(book, listeners, rounds[0]), listeners, rounds[1..])
  }

  lemma InputOnBook(n: Net, r: Ready)
    requires Valid(n) && Reported(n, r) && r.fd !in n.listeners
    ensures Book(AfterInput(n, r)) == if r.input then Input(Book(n), r.fd, r.bytes, r.ending, r.readCbs) else Book(n)
  {
    if r.input {
      OnReadOnBook(n, r.fd, r.bytes, r.ending, r.readCbs);
    }
    hide Valid, OnRead, Input, Book;
  }

  lemma OutputOnBook(n: Net, r: Ready)
    requires Valid(n) && Reported(n, r.(input := false)) && r.fd !in n.listeners
    ensures Book(AfterOutput(n, r)) == if r.output then Output(Book(n), r.fd, r.room, r.writeCbs) else Book(n)
  {
    if r.output {
      OnWriteOnBook(n, r.fd, r.room, r.writeCbs);
    }
    hide Valid, OnWrite, Output, Book;
  }

  /** One reported descriptor is handled as the ledger says: a reported input is read, a reported output is
      written, each as far as bytes, room and requests go, whatever buffers and chains it takes. */
  lemma DispatchOnBook(n: Net, r: Ready)
    requires Valid(n) && Reported(n, r)
    ensures Book(Dispatch(n, r)) == Handled(Book(n), n.listeners.Keys, r)
  {
    hide Valid, Book, AfterInput, AfterOutput, Input, Output, Closed, AcceptedOn, OnAccept, OnClose;
    if r.fd in n.listeners {
      OnAcceptOnBook(n, r.fd, r.accepted);
    } else if r.error {
      OnCloseOnBook(n, r.fd, r.closeRs);
    } else {
      InputOnBook(n, r);
      OutputOnBook(AfterInput(n, r), r);
      if r.hup {
        OnCloseOnBook(AfterOutput(AfterInput(n, r), r), r.fd, r.closeRs);
      }
    }
  }

  lemma {:induction false} BatchOnBook(n: Net, ready: seq<Ready>)
    requires Valid(n) && BatchOk(n, ready)
    ensures Book(RunBatch(n, ready)) == HandledAll(Book(n), n.listeners.Keys, ready)
    decreases |ready|
  {
    hide Valid, Book, BatchOk, Dispatch, Handled, Limits;
    if ready != [] {
      FirstKeepsBatch(n, ready);
      SameLimits(n, Dispatch(n, ready[0]));
      DispatchOnBook(n, ready[0]);
      BatchOnBook(Dispatch(n, ready[0]), ready[1..]);
    }
  }

  lemma RoundOnBook(n: Net, round: Round)
    requires Valid(n) && RoundOk(n, round)
    ensures Book(RunRound(n, round)) == RoundOn(Book(n), n.listeners.Keys, round)
  {
    RestIsRegistered(n);
    hide Valid, Book, BatchOk, Ask, HandledAll, RunBatch, Serve, Registered;
    match round
    case Timeout(rs) => ServeOnBook(n, rs);
    case Batch(ready) => BatchOnBook(n, ready);
  }

  /** Over every run of the event loop the connections are what the ledger says. */
  lemma {:induction false} RunOnBook(n: Net, rounds: seq<Round>)
    requires Valid(n) && Possible(n, rounds)
    ensures Book(RunLoop(n, rounds)) == RunOn(Book(n), n.listeners.Keys, rounds)
    decreases |rounds|
  {
    hide Valid, Book, RoundOk, RunRound, RoundOn, Limits;
    if rounds != [] {
      SameLimits(n, RunRound(n, rounds[0]));
      RoundOnBook(n, rounds[0]);
      RunOnBook(RunRound(n, rounds[0]), rounds[1..]);
    }
  }
}
