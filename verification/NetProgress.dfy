/** What the handlers get done, told without the handlers: a reported input is received as far as there are
    bytes and requests, a reported output sent as far as there are room and payloads; every answered request
    is called back; interest and hang-ups are what the sockets made them; and nothing moves unreported. */
module NetProgress {
  import opened Bytes
  import opened Stream
  import opened Epoll
  import opened NetModel
  import opened NetInvariants
  import opened NetHandlers
  import opened NetLifecycle
  import opened NetRuns
  import opened NetRequests
  import opened NetLedger

  // ---------- the ledger tells everything a caller sees ----------

  lemma CountsTell(c: Client, t: Traffic)
    requires ReadOk(c, t, t.delivered) && WriteOk(c, t, t.notified)
    ensures |t.received| <= Sum(t.asked) && |t.sent| <= |Flat(t.payloads)|
    ensures |t.delivered| == Whole(t.asked, |t.received|) && t.notified == Whole(Lengths(t.payloads), |t.sent|)
    ensures c.wb == [] <==> |t.sent| == |Flat(t.payloads)|
  {
    hide ReadOk, WriteOk, Whole, Flat, ChainOk, Need, Totals, Partial, Lengths;
    ReadFacts(c, t, 0);
    WriteFacts(c, t, 0);
    NeedIsOpen(c.wb);
  }

  lemma RestInterest(n: Net, fd: Fd)
    requires Valid(n) && fd in n.clients
    ensures fd in n.traffic && fd in n.events && InterestOk(n.clients[fd], n.traffic[fd], n.events[fd])
  {
    assert ConnOk(n, AtRest, fd);
  }

  lemma LineTells(n: Net, fd: Fd)
    requires fd in n.clients && fd in n.traffic && fd in n.events && InterestOk(n.clients[fd], n.traffic[fd], n.events[fd])
    requires ReadOk(n.clients[fd], n.traffic[fd], n.traffic[fd].delivered)
    requires WriteOk(n.clients[fd], n.traffic[fd], n.traffic[fd].notified)
    ensures var (l, t) := (LineOf(n, fd), n.traffic[fd]);
            && |t.received| <= Sum(t.asked) && |t.sent| <= |Flat(t.payloads)|
            && |t.delivered| == l.Answered() && t.notified == l.Notified()
            && (In in n.events[fd] <==> l.reading)
            && (Out in n.events[fd] <==> l.Unsent() != [])
  {
    hide ReadOk, WriteOk, Whole, Flat, Lengths, ChainOk;
    CountsTell(n.clients[fd], n.traffic[fd]);
  }

  /** Between handler calls: how many buffers have been delivered, how many payloads notified, and what
      epoll is asked to report, all follow from the ledger. */
  lemma LedgerTells(n: Net, fd: Fd)
    requires Valid(n) && fd in n.clients
    ensures fd in n.traffic && fd in n.events && fd in Book(n) && Book(n)[fd] == LineOf(n, fd)
    ensures var (l, t) := (Book(n)[fd], n.traffic[fd]);
            && |t.received| <= Sum(t.asked) && |t.sent| <= |Flat(t.payloads)|
            && |t.delivered| == l.Answered() && t.notified == l.Notified()
            && (In in n.events[fd] <==> l.reading)
            && (Out in n.events[fd] <==> l.Unsent() != [])
  {
    hide Valid, ReadOk, WriteOk, InterestOk, Line.Answered, Line.Notified, Line.Unsent, Book;
    RestInterest(n, fd);
    RestIsRight(n, fd);
    RestIsRegistered(n);
    BookAt(n, fd);
    LineTells(n, fd);
  }

  lemma NeedIsOpen(chain: seq<Buffer>)
    requires ChainOk(chain)
    ensures Need(chain) == 0 <==> chain == []
  {
    if chain != [] {
      NeedFront(chain);
      ReadChainTakes(chain[1..], []);
    }
  }

  lemma {:induction false} WholeUpTo(a: seq<nat>, b: seq<nat>, x: nat)
    requires x <= Sum(a) && forall k | 0 <= k < |b| :: b[k] > 0
    ensures Whole(a + b, x) == Whole(a, x)
  {
    if a == [] {
      assert a + b == b;
    } else {
      assert (a + b)[1..] == a[1..] + b;
      if x >= a[0] {
        WholeUpTo(a[1..], b, x - a[0]);
      }
    }
  }

  lemma {:induction false} SizesArePositive(rs: seq<Request>, fd: Fd)
    ensures forall k | 0 <= k < |Sizes(rs, fd)| :: Sizes(rs, fd)[k] > 0
  {
    if rs != [] {
      SizesArePositive(rs[1..], fd);
    }
  }

  // ---------- one line ----------

  lemma ReadsUpToWanted(l: Line, bytes: seq<Byte>, ending: Ending)
    requires |l.received| <= Sum(l.asked)
    ensures |l.Reads(bytes, ending).received| <= Sum(l.asked)
  {
  }

  /** After a read and the callbacks' requests, the requests answered are those the read answered. */
  lemma AnsweredByRead(l: Line, bytes: seq<Byte>, ending: Ending, rs: seq<Request>, fd: Fd)
    requires |l.received| <= Sum(l.asked)
    ensures var l1 := l.Reads(bytes, ending); l1.Asked(Sizes(rs, fd), Datas(rs, fd)).Answered() == l1.Answered()
  {
    SizesArePositive(rs, fd);
    WholeUpTo(l.asked, Sizes(rs, fd), |l.Reads(bytes, ending).received|);
    hide Sizes, Datas, Whole;
  }

  lemma AskAt(book: Ledger, fd: Fd, l: Line, rs: seq<Request>)
    ensures fd in Ask(book[fd := l], rs) && Ask(book[fd := l], rs)[fd] == l.Asked(Sizes(rs, fd), Datas(rs, fd))
  {
    hide Sizes, Datas, Line.Asked;
  }

  lemma InputAt(book: Ledger, fd: Fd, bytes: seq<Byte>, ending: Ending, cbs: Callbacks)
    requires fd in book && |book[fd].received| <= Sum(book[fd].asked)
    ensures var (l, book') := (book[fd], Input(book, fd, bytes, ending, cbs));
            && fd in book'
            && book'[fd].Answered() == l.Reads(bytes, ending).Answered()
            && var rs := Served(cbs, book'[fd].Answered() - l.Answered());
               book'[fd] == l.Reads(bytes, ending).Asked(Sizes(rs, fd), Datas(rs, fd))
  {
    hide Served, Line.Reads, Line.Asked, Line.Answered, Sizes, Datas, Ask, Sum;
    var l1 := book[fd].Reads(bytes, ending);
    var rs := Served(cbs, l1.Answered() - book[fd].Answered());
    AnsweredByRead(book[fd], bytes, ending, rs, fd);
    AskAt(book, fd, l1, rs);
  }

  /** OnRead: exactly the bytes that are there and asked for are received; exactly the requests that this
      answers are called back, and what the callbacks ask is all that is asked; the connection counts as
      hung up exactly if it was or if the peer closed before everything asked for was there; and input
      stays of interest exactly if a callback asks for more, or if it was and the socket merely had
      nothing more yet. */
  lemma OnReadMoves(n: Net, fd: Fd, bytes: seq<Byte>, ending: Ending, cbs: Callbacks)
    requires Valid(n) && fd in n.clients && fd in n.traffic && fd in n.events
    ensures ChainOk(n.clients[fd].rb) && |n.traffic[fd].received| <= Sum(n.traffic[fd].asked)
    ensures var n' := OnRead(n, fd, bytes, ending, cbs);
            && fd in n'.traffic && fd in n'.events
            && var (t, t') := (n.traffic[fd], n'.traffic[fd]);
               var want := Sum(t.asked) - |t.received|;
               var more := Sizes(Served(cbs, |t'.delivered| - |t.delivered|), fd);
               && t'.received == t.received + bytes[..Min(|bytes|, want)]
               && t'.asked == t.asked + more
               && t'.sent == t.sent
               && (t'.hungUp <==> t.hungUp || (ending.PeerClosed? && |bytes| < want))
               && (In in n'.events[fd] <==> more != [] || (In in n.events[fd] && ending.WouldBlock? && |bytes| < want))
  {
    hide Valid, OnRead, Input, Sizes, Datas, Served, Book, ChainOk, SameBooks, OthersKeepInterest;
    hide Line.Answered, Line.Notified, Line.Unsent, Sum, Flat;
    OnReadOnBook(n, fd, bytes, ending, cbs);
    BookKeys(n);
    OnReadKeeps(n, fd, bytes, ending, cbs);
    LedgerTells(n, fd);
    var n' := OnRead(n, fd, bytes, ending, cbs);
    InputAt(Book(n), fd, bytes, ending, cbs);
    BookKeys(n');
    LedgerTells(n', fd);
  }

  lemma BookKeys(n: Net)
    requires Valid(n)
    ensures Book(n).Keys == n.clients.Keys == n.traffic.Keys
  {
    hide Valid;
    RestIsRegistered(n);
  }

  lemma {:induction false} DatasAreNotEmpty(rs: seq<Request>, fd: Fd)
    ensures forall k | 0 <= k < |Datas(rs, fd)| :: |Datas(rs, fd)[k]| > 0
  {
    if rs != [] {
      DatasAreNotEmpty(rs[1..], fd);
    }
  }

  lemma NotifiedByWrite(l: Line, room: nat, rs: seq<Request>, fd: Fd)
    requires |l.sent| <= |Flat(l.payloads)|
    ensures var l1 := l.Writes(room); l1.Asked(Sizes(rs, fd), Datas(rs, fd)).Notified() == l1.Notified()
  {
    hide Sizes, Datas, Whole, Flat;
    DatasAreNotEmpty(rs, fd);
    WritesUpToGiven(l, room);
    NotifiedUpTo(l.payloads, Datas(rs, fd), |l.Writes(room).sent|);
  }

  lemma WritesUpToGiven(l: Line, room: nat)
    requires |l.sent| <= |Flat(l.payloads)|
    ensures |l.Writes(room).sent| <= |Flat(l.payloads)|
  {
  }

  lemma NotifiedUpTo(payloads: seq<seq<Byte>>, datas: seq<seq<Byte>>, x: nat)
    requires x <= |Flat(payloads)| && forall k | 0 <= k < |datas| :: |datas[k]| > 0
    ensures Whole(Lengths(payloads + datas), x) == Whole(Lengths(payloads), x)
  {
    FlatLength(payloads);
    assert Lengths(payloads + datas) == Lengths(payloads) + Lengths(datas);
    WholeUpTo(Lengths(payloads), Lengths(datas), x);
  }

  lemma WrittenAt(book: Ledger, fd: Fd, room: nat, cbs: Callbacks)
    requires fd in book && |book[fd].sent| <= |Flat(book[fd].payloads)|
    ensures var (l, book') := (book[fd], Output(book, fd, room, cbs));
            && fd in book'
            && var rs := Served(cbs, book'[fd].Notified() - l.Notified());
               book'[fd] == l.Writes(room).Asked(Sizes(rs, fd), Datas(rs, fd))
  {
    hide Served, Line.Writes, Line.Asked, Line.Notified, Sizes, Datas, Flat, Ask;
    var l1 := book[fd].Writes(room);
    var rs := Served(cbs, l1.Notified() - book[fd].Notified());
    NotifiedByWrite(book[fd], room, rs, fd);
    AskAt(book, fd, l1, rs);
  }

  /** OnWrite: exactly the bytes that come next in the payloads are sent, up to the room there is; exactly
      the payloads this completes are notified, and what those callbacks give is all that is given; and
      output stays of interest exactly while payload bytes are unsent. */
  lemma OnWriteMoves(n: Net, fd: Fd, room: nat, cbs: Callbacks)
    requires Valid(n) && fd in n.clients && fd in n.traffic
    ensures ChainOk(n.clients[fd].wb) && |n.traffic[fd].sent| <= |Flat(n.traffic[fd].payloads)|
    ensures var n' := OnWrite(n, fd, room, cbs);
            && fd in n'.traffic && fd in n'.events
            && var (t, t') := (n.traffic[fd], n'.traffic[fd]);
               var unsent := Flat(t.payloads)[|t.sent|..];
               && t'.sent == t.sent + unsent[..Min(room, |unsent|)]
               && t'.payloads == t.payloads + Datas(Served(cbs, t'.notified - t.notified), fd)
               && t'.received == t.received && t'.hungUp == t.hungUp
               && (Out in n'.events[fd] <==> |t'.sent| < |Flat(t'.payloads)|)
  {
    hide Valid, OnWrite, Output, Sizes, Datas, Served, Book, ChainOk, SameBooks, OthersKeepInterest;
    hide Line.Answered, Line.Notified, Sum, Flat;
    OnWriteOnBook(n, fd, room, cbs);
    BookKeys(n);
    OnWriteKeeps(n, fd, room, cbs);
    LedgerTells(n, fd);
    var n' := OnWrite(n, fd, room, cbs);
    WrittenAt(Book(n), fd, room, cbs);
    BookKeys(n');
    LedgerTells(n', fd);
  }

  // ---------- one descriptor ----------

  lemma AskedKeeps(l: Line, rs: seq<Request>, fd: Fd)
    requires |l.received| <= Sum(l.asked)
    ensures l.Asked(Sizes(rs, fd), Datas(rs, fd)).Answered() == l.Answered()
    ensures |l.received| <= Sum(l.Asked(Sizes(rs, fd), Datas(rs, fd)).asked)
  {
    SizesArePositive(rs, fd);
    WholeUpTo(l.asked, Sizes(rs, fd), |l.received|);
    SumAppend(l.asked, Sizes(rs, fd));
    hide Sizes, Datas, Whole;
  }

  lemma OutputAt(book: Ledger, fd: Fd, room: nat, cbs: Callbacks)
    requires fd in book && |book[fd].received| <= Sum(book[fd].asked)
    ensures var (l, book') := (book[fd], Output(book, fd, room, cbs));
            && fd in book'
            && book'[fd].Answered() == l.Answered()
            && book'[fd].received == l.received && book'[fd].hungUp == l.hungUp
            && book'[fd].sent == l.Writes(room).sent
  {
    var l1 := book[fd].Writes(room);
    hide Served, Line.Answered, Sizes, Datas, Line.Unsent, Line.Notified;
    AskedKeeps(l1, Served(cbs, l1.Notified() - book[fd].Notified()), fd);
    assert l1.Answered() == book[fd].Answered() by { SameAnswers(book[fd], room); }
  }

  lemma SameAnswers(l: Line, room: nat)
    ensures l.Writes(room).Answered() == l.Answered()
  {
  }

  /** What a report does to its own connection's line, when it does not close it. */
  predicate Moved(l: Line, l': Line, r: Ready) {
    var asking := Served(r.readCbs, l'.Answered() - l.Answered());
    var unsent := l.(payloads := l.payloads + Datas(asking, r.fd)).Unsent();
    && l'.received == l.received + (if r.input then r.bytes[..Min(|r.bytes|, l.Wanted())] else [])
    && l'.sent == l.sent + (if r.output then unsent[..Min(r.room, |unsent|)] else [])
    && (l'.hungUp <==> l.hungUp || (r.input && r.ending.PeerClosed? && |r.bytes| < l.Wanted()))
  }

  lemma NothingServed(cbs: Callbacks, fd: Fd)
    ensures Datas(Served(cbs, 0), fd) == []
  {
  }

  lemma InputMoves(book: Ledger, r: Ready)
    requires r.fd in book && |book[r.fd].received| <= Sum(book[r.fd].asked)
    ensures var book1 := if r.input then Input(book, r.fd, r.bytes, r.ending, r.readCbs) else book;
            && r.fd in book1
            && var (l, l1) := (book[r.fd], book1[r.fd]);
               && |l1.received| <= Sum(l1.asked)
               && l1.received == l.received + (if r.input then r.bytes[..Min(|r.bytes|, l.Wanted())] else [])
               && (l1.hungUp <==> l.hungUp || (r.input && r.ending.PeerClosed? && |r.bytes| < l.Wanted()))
               && l1.sent == l.sent
               && l1.payloads == l.payloads + Datas(Served(r.readCbs, l1.Answered() - l.Answered()), r.fd)
  {
    hide Input, Served, Sizes, Datas, Line.Answered, Sum;
    var l := book[r.fd];
    if r.input {
      InputAt(book, r.fd, r.bytes, r.ending, r.readCbs);
      var l1 := l.Reads(r.bytes, r.ending);
      ReadsUpToWanted(l, r.bytes, r.ending);
      AskedKeeps(l1, Served(r.readCbs, Input(book, r.fd, r.bytes, r.ending, r.readCbs)[r.fd].Answered() - l.Answered()), r.fd);
    } else {
      NothingServed(r.readCbs, r.fd);
      assert l.payloads + [] == l.payloads;
    }
  }

  lemma HandledAt(book: Ledger, listeners: set<Fd>, r: Ready)
    requires r.fd in book && |book[r.fd].received| <= Sum(book[r.fd].asked)
    requires r.fd !in listeners && !r.error && !r.hup
    ensures r.fd in Handled(book, listeners, r) && Moved(book[r.fd], Handled(book, listeners, r)[r.fd], r)
  {
    hide Input, Output, Served, Sizes, Datas, Line.Answered, Line.Wanted;
    InputMoves(book, r);
    var book1 := if r.input then Input(book, r.fd, r.bytes, r.ending, r.readCbs) else book;
    OutputAt(book1, r.fd, r.room, r.writeCbs);
  }

  /** What a report does to its own connection, when it does not close it. If input was reported, the first
      so many bytes are received as were asked for and not received at that moment; if output, the first so
      many bytes are sent as there was room for, of the payloads given by then, the callbacks' for this input
      among them. */
  predicate TrafficMoved(t: Traffic, t': Traffic, r: Ready) {
    && |t.received| <= Sum(t.asked)
    && |t.delivered| <= |t'.delivered|
    && var want := Sum(t.asked) - |t.received|;
       var payloads := t.payloads + Datas(Served(r.readCbs, |t'.delivered| - |t.delivered|), r.fd);
       && |t.sent| <= |Flat(payloads)|
       && var unsent := Flat(payloads)[|t.sent|..];
          && t'.received == t.received + (if r.input then r.bytes[..Min(|r.bytes|, want)] else [])
          && t'.sent == t.sent + (if r.output then unsent[..Min(r.room, |unsent|)] else [])
          && (t'.hungUp <==> t.hungUp || (r.input && r.ending.PeerClosed? && |r.bytes| < want))
  }

  lemma {:induction false} WholeGrows(sizes: seq<nat>, x: nat, y: nat)
    requires x <= y
    ensures Whole(sizes, x) <= Whole(sizes, y)
  {
    if sizes != [] && x >= sizes[0] {
      WholeGrows(sizes[1..], x - sizes[0], y - sizes[0]);
    }
  }

  lemma MovedTraffic(n: Net, n': Net, r: Ready)
    requires Valid(n) && Valid(n') && r.fd in n.clients && r.fd in n'.clients
    requires r.fd in Book(n) && r.fd in Book(n') && Moved(Book(n)[r.fd], Book(n')[r.fd], r)
    requires Book(n)[r.fd].Answered() <= Book(n')[r.fd].Answered()
    ensures r.fd in n.traffic && r.fd in n'.traffic && TrafficMoved(n.traffic[r.fd], n'.traffic[r.fd], r)
  {
    hide Valid, Book, Served, Datas, Line.Answered, Line.Notified, Whole, Flat;
    LedgerTells(n, r.fd);
    LedgerTells(n', r.fd);
    var t, t' := n.traffic[r.fd], n'.traffic[r.fd];
    FlatConcat(t.payloads, Datas(Served(r.readCbs, |t'.delivered| - |t.delivered|), r.fd));
  }

  lemma HandledAnswers(book: Ledger, listeners: set<Fd>, r: Ready)
    requires r.fd in book && |book[r.fd].received| <= Sum(book[r.fd].asked)
    requires r.fd !in listeners && !r.error && !r.hup
    ensures r.fd in Handled(book, listeners, r) && book[r.fd].Answered() <= Handled(book, listeners, r)[r.fd].Answered()
  {
    hide Input, Output, Served, Sizes, Datas, Whole, Line.Wanted;
    InputMoves(book, r);
    InputAt(book, r.fd, r.bytes, r.ending, r.readCbs);
    var book1 := if r.input then Input(book, r.fd, r.bytes, r.ending, r.readCbs) else book;
    OutputAt(book1, r.fd, r.room, r.writeCbs);
    WholeGrows(book[r.fd].asked, |book[r.fd].received|, |book[r.fd].Reads(r.bytes, r.ending).received|);
  }

  /** A reported input is received and a reported output sent: one dispatch. */
  lemma DispatchMoves(n: Net, r: Ready)
    requires Valid(n) && Reported(n, r) && r.fd !in n.listeners && !r.error && !r.hup
    ensures r.fd in n.traffic && r.fd in Dispatch(n, r).traffic && r.fd in Dispatch(n, r).clients
    ensures TrafficMoved(n.traffic[r.fd], Dispatch(n, r).traffic[r.fd], r)
  {
    hide Valid, Book, Handled, Dispatch, Moved, TrafficMoved, SparesOthers, Line.Answered;
    var n' := Dispatch(n, r);
    DispatchKeepsOthers(n, r);
    DispatchOnBook(n, r);
    LedgerTells(n, r.fd);
    BookKeys(n');
    HandledAt(Book(n), n.listeners.Keys, r);
    HandledAnswers(Book(n), n.listeners.Keys, r);
    MovedTraffic(n, n', r);
  }

  // ---------- the others, and whole rounds ----------

  /** A connection no report is about: it may be asked for more, and that is all. */
  predicate Still(l: Line, l': Line) {
    && l'.received == l.received && l'.sent == l.sent && l'.hungUp == l.hungUp
    && l.asked <= l'.asked && l.payloads <= l'.payloads
  }

  predicate StillAt(book: Ledger, book': Ledger, f: Fd)
    requires f in book
  {
    f in book' && Still(book[f], book'[f])
  }

  lemma {:induction false} AcceptedSpares(book: Ledger, listenfd: Fd, accepted: seq<Accepted>, f: Fd)
    requires f in book
    ensures StillAt(book, AcceptedOn(book, listenfd, accepted), f)
    decreases |accepted|
  {
    hide Sizes, Datas;
    if accepted != [] {
      var a := accepted[0];
      var book1 := if a.fd in book then book else Ask(book[a.fd := Line(listenfd, [], [], [], [], false, false)], a.rs);
      assert StillAt(book, book1, f);
      AcceptedSpares(book1, listenfd, accepted[1..], f);
    }
  }

  /** No report moves another connection's bytes. */
  lemma HandledSpares(book: Ledger, listeners: set<Fd>, r: Ready, f: Fd)
    requires f in book && f != r.fd
    ensures StillAt(book, Handled(book, listeners, r), f)
  {
    hide Sizes, Datas, Served, Line.Answered, Line.Notified, Line.Reads, Line.Writes, AcceptedOn;
    if r.fd in listeners {
      AcceptedSpares(book, r.fd, r.accepted, f);
    }
  }

  lemma {:induction false} AllSpare(book: Ledger, listeners: set<Fd>, ready: seq<Ready>, f: Fd)
    requires f in book && forall r | r in ready :: r.fd != f
    ensures StillAt(book, HandledAll(book, listeners, ready), f)
    decreases |ready|
  {
    hide Handled;
    if ready != [] {
      HandledSpares(book, listeners, ready[0], f);
      AllSpare(Handled(book, listeners, ready[0]), listeners, ready[1..], f);
    }
  }

  predicate TrafficStill(t: Traffic, t': Traffic) {
    && t'.received == t.received && t'.sent == t.sent && t'.hungUp == t.hungUp
    && t.asked <= t'.asked && t.payloads <= t'.payloads
  }

  /** A round without a report on a connection leaves it open and moves none of its bytes. */
  lemma BatchSpares(n: Net, ready: seq<Ready>, f: Fd)
    requires Valid(n) && BatchOk(n, ready) && f in n.clients && f in n.traffic && forall r | r in ready :: r.fd != f
    ensures f in RunBatch(n, ready).clients && f in RunBatch(n, ready).traffic
    ensures TrafficStill(n.traffic[f], RunBatch(n, ready).traffic[f])
  {
    hide Valid, BatchOk, Book, RunBatch, HandledAll;
    BatchOnBook(n, ready);
    BookKeys(n);
    BookKeys(RunBatch(n, ready));
    AllSpare(Book(n), n.listeners.Keys, ready, f);
    LedgerTells(n, f);
    LedgerTells(RunBatch(n, ready), f);
  }

  lemma BatchPrefix(n: Net, ready: seq<Ready>, i: nat)
    requires BatchOk(n, ready) && i <= |ready|
    ensures BatchOk(n, ready[..i])
  {
    hide Reported;
  }

  lemma UnfoldBatch(n: Net, ready: seq<Ready>)
    requires Valid(n) && BatchOk(n, ready) && ready != []
    ensures Reported(n, ready[0]) && Valid(Dispatch(n, ready[0])) && BatchOk(Dispatch(n, ready[0]), ready[1..])
    ensures RunBatch(n, ready) == RunBatch(Dispatch(n, ready[0]), ready[1..])
  {
    hide Valid, BatchOk, Reported, Dispatch;
    FirstKeepsBatch(n, ready);
  }

  /** A batch cut in two is the first part, then the second. */
  lemma {:induction false} BatchInParts(n: Net, ready: seq<Ready>, i: nat)
    requires Valid(n) && BatchOk(n, ready) && i <= |ready|
    ensures BatchOk(n, ready[..i]) && BatchOk(RunBatch(n, ready[..i]), ready[i..])
    ensures RunBatch(n, ready) == RunBatch(RunBatch(n, ready[..i]), ready[i..])
    decreases i
  {
    hide Valid, BatchOk, Dispatch, Reported, Limits;
    BatchPrefix(n, ready, i);
    if i == 0 {
      assert ready[0..] == ready;
      assert RunBatch(n, ready[..0]) == n;
    } else {
      hide RunBatch;
      var first, rest := ready[..i], ready[1..];
      assert first[1..] == rest[..i - 1] && first[0] == ready[0] && rest[i - 1..] == ready[i..];
      UnfoldBatch(n, ready);
      UnfoldBatch(n, first);
      BatchInParts(Dispatch(n, ready[0]), rest, i - 1);
    }
  }

  lemma OneMore(n: Net, ready: seq<Ready>, i: nat)
    requires Valid(n) && BatchOk(n, ready) && i < |ready|
    ensures BatchOk(n, ready[..i]) && BatchOk(n, ready[..i + 1])
    ensures Reported(RunBatch(n, ready[..i]), ready[i])
    ensures RunBatch(n, ready[..i + 1]) == Dispatch(RunBatch(n, ready[..i]), ready[i])
  {
    hide Valid, BatchOk, Dispatch, Reported, Limits;
    var first := ready[..i + 1];
    assert first[..i] == ready[..i] && first[i..] == [ready[i]] && [ready[i]][1..] == [];
    BatchPrefix(n, ready, i + 1);
    BatchInParts(n, first, i);
    var before := RunBatch(n, ready[..i]);
    UnfoldBatch(before, [ready[i]]);
    assert RunBatch(Dispatch(before, ready[i]), []) == Dispatch(before, ready[i]);
  }

  lemma ReportsAreDistinct(n: Net, ready: seq<Ready>, i: nat)
    requires BatchOk(n, ready) && i < |ready|
    ensures Reported(n, ready[i])
    ensures forall r | r in ready[..i] || r in ready[i + 1..] :: r.fd != ready[i].fd
  {
    hide Reported;
    assert ready[i] in ready;
    forall r | r in ready[..i] || r in ready[i + 1..]
      ensures r.fd != ready[i].fd
    {
      if r in ready[..i] {
        var j :| 0 <= j < i && ready[..i][j] == r;
        assert ready[j] == r;
      } else {
        var j :| 0 <= j < |ready| - i - 1 && ready[i + 1..][j] == r;
        assert ready[i + 1 + j] == r;
      }
    }
  }

  /** In a round, every report that closes nothing moves its connection as it says, in the state that the
      reports before it have left; and no other report of the round moves that connection's bytes. */
  lemma BatchMoves(n: Net, ready: seq<Ready>, i: nat)
    requires Valid(n) && BatchOk(n, ready) && i < |ready|
    requires ready[i].fd !in n.listeners && !ready[i].error && !ready[i].hup
    ensures BatchOk(n, ready[..i]) && BatchOk(n, ready[..i + 1])
    ensures var (fd, before, after, end) := (ready[i].fd, RunBatch(n, ready[..i]), RunBatch(n, ready[..i + 1]), RunBatch(n, ready));
            && fd in n.traffic && fd in before.traffic && fd in after.traffic && fd in end.traffic && fd in end.clients
            && TrafficStill(n.traffic[fd], before.traffic[fd])
            && TrafficMoved(before.traffic[fd], after.traffic[fd], ready[i])
            && TrafficStill(after.traffic[fd], end.traffic[fd])
  {
    ReportsAreDistinct(n, ready, i);
    OneMore(n, ready, i);
    assert ready[i].fd in n.clients;
    hide Valid, BatchOk, Dispatch, Reported, RunBatch, TrafficMoved, TrafficStill, Limits;
    var before, after := RunBatch(n, ready[..i]), RunBatch(n, ready[..i + 1]);
    BookKeys(n);
    SameLimits(n, before);
    BatchSpares(n, ready[..i], ready[i].fd);
    DispatchMoves(before, ready[i]);
    BatchInParts(n, ready, i + 1);
    BatchSpares(after, ready[i + 1..], ready[i].fd);
  }

  // ---------- whole runs ----------

  /** The bytes a report brings to connection `fd`: those offered, up to what is asked for at the moment. */
  function Brought(n: Net, r: Ready, fd: Fd): seq<Byte> {
    if r.fd == fd && r.input && fd in n.traffic && |n.traffic[fd].received| <= Sum(n.traffic[fd].asked)
    then r.bytes[..Min(|r.bytes|, Sum(n.traffic[fd].asked) - |n.traffic[fd].received|)]
    else []
  }

  /** The bytes it lets go: what is given to send and not sent, up to the room there is. `n'` tells which
      callbacks came between. */
  function LetGo(n: Net, n': Net, r: Ready, fd: Fd): seq<Byte> {
    if r.fd == fd && r.output && fd in n.traffic && fd in n'.traffic then
      var asking := Served(r.readCbs, |n'.traffic[fd].delivered| - |n.traffic[fd].delivered|);
      var payloads := Flat(n.traffic[fd].payloads + Datas(asking, fd));
      if |n.traffic[fd].sent| <= |payloads| then
        payloads[|n.traffic[fd].sent|..][..Min(r.room, |payloads| - |n.traffic[fd].sent|)]
      else []
    else []
  }

  /** A report whose socket ends in a close before all that is asked for has come. */
  predicate HangsUp(n: Net, r: Ready, fd: Fd) {
    r.fd == fd && r.input && r.ending.PeerClosed? && fd in n.traffic
    && |r.bytes| < Sum(n.traffic[fd].asked) - |n.traffic[fd].received|
  }

  predicate Closes(r: Ready, fd: Fd) {
    r.fd == fd && (r.error || r.hup)
  }

  lemma DispatchSpares(n: Net, r: Ready, f: Fd)
    requires Valid(n) && Reported(n, r) && f in n.clients && f in n.traffic && f != r.fd
    ensures f in Dispatch(n, r).clients && f in Dispatch(n, r).traffic
    ensures TrafficStill(n.traffic[f], Dispatch(n, r).traffic[f])
  {
    hide Valid, Book, Dispatch, Handled, SparesOthers;
    DispatchKeepsOthers(n, r);
    DispatchOnBook(n, r);
    BookKeys(n);
    BookKeys(Dispatch(n, r));
    HandledSpares(Book(n), n.listeners.Keys, r, f);
    LedgerTells(n, f);
    LedgerTells(Dispatch(n, r), f);
  }

  /** One descriptor handled, seen from any open connection that it does not close. */
  lemma DispatchBrings(n: Net, r: Ready, fd: Fd)
    requires Valid(n) && Reported(n, r) && fd in n.clients && fd in n.traffic && !Closes(r, fd)
    ensures var n' := Dispatch(n, r);
            && fd in n'.clients && fd in n'.traffic
            && var (t, t') := (n.traffic[fd], n'.traffic[fd]);
               && t'.received == t.received + Brought(n, r, fd)
               && t'.sent == t.sent + LetGo(n, n', r, fd)
               && (t'.hungUp <==> t.hungUp || HangsUp(n, r, fd))
  {
    hide Valid, Dispatch, Served, Datas;
    if r.fd == fd {
      ClientIsNoListener(n, fd);
      DispatchMoves(n, r);
    } else {
      DispatchSpares(n, r, fd);
    }
  }

  lemma ClientIsNoListener(n: Net, fd: Fd)
    requires Valid(n) && fd in n.clients
    ensures fd !in n.listeners
  {
  }

  /** What a run brings to a connection, what it lets go, and whether the peer hung up on it. */
  datatype Account = Account(got: seq<Byte>, gone: seq<Byte>, hung: bool)
  {
    function Then(next: Account): Account {
      Account(got + next.got, gone + next.gone, hung || next.hung)
    }
  }

  ghost predicate Accounted(n: Net, n': Net, fd: Fd, a: Account) {
    && fd in n.clients && fd in n.traffic && fd in n'.clients && fd in n'.traffic
    && n'.traffic[fd].received == n.traffic[fd].received + a.got
    && n'.traffic[fd].sent == n.traffic[fd].sent + a.gone
    && (n'.traffic[fd].hungUp <==> n.traffic[fd].hungUp || a.hung)
  }

  lemma AccountedThen(n: Net, n1: Net, n2: Net, fd: Fd, a: Account, b: Account)
    requires Accounted(n, n1, fd, a) && Accounted(n1, n2, fd, b)
    ensures Accounted(n, n2, fd, a.Then(b))
  {
    assert (n.traffic[fd].received + a.got) + b.got == n.traffic[fd].received + (a.got + b.got);
    assert (n.traffic[fd].sent + a.gone) + b.gone == n.traffic[fd].sent + (a.gone + b.gone);
  }

  lemma NothingAccounted(n: Net, fd: Fd)
    requires fd in n.clients && fd in n.traffic
    ensures Accounted(n, n, fd, Account([], [], false))
  {
    assert n.traffic[fd].received + [] == n.traffic[fd].received && n.traffic[fd].sent + [] == n.traffic[fd].sent;
  }

  /** Report by report, each in the state it meets. */
  ghost function BatchAccount(n: Net, ready: seq<Ready>, fd: Fd): Account
    requires Valid(n) && BatchOk(n, ready)
    decreases |ready|
  {
    if ready == [] then Account([], [], false) else
      FirstKeepsBatch(n, ready);
      var n1 := Dispatch(n, ready[0]);
      Account(Brought(n, ready[0], fd), LetGo(n, n1, ready[0], fd), HangsUp(n, ready[0], fd)).Then(BatchAccount(n1, ready[1..], fd))
  }

  ghost function RunAccount(n: Net, rounds: seq<Round>, fd: Fd): Account
    requires Valid(n) && Possible(n, rounds)
    decreases |rounds|
  {
    if rounds == [] then Account([], [], false) else
      var rest := RunAccount(RunRound(n, rounds[0]), rounds[1..], fd);
      if rounds[0].Batch? then BatchAccount(n, rounds[0].ready, fd).Then(rest) else rest
  }

  predicate NeverCloses(rounds: seq<Round>, fd: Fd) {
    forall j | 0 <= j < |rounds| && rounds[j].Batch? :: forall r | r in rounds[j].ready :: !Closes(r, fd)
  }

  lemma {:induction false} BatchBrings(n: Net, ready: seq<Ready>, fd: Fd)
    requires Valid(n) && BatchOk(n, ready) && fd in n.clients && fd in n.traffic
    requires forall r | r in ready :: !Closes(r, fd)
    ensures Accounted(n, RunBatch(n, ready), fd, BatchAccount(n, ready, fd))
    decreases |ready|
  {
    hide Valid, BatchOk, Dispatch, Reported, Brought, LetGo, HangsUp, Closes, Accounted, Limits, Account.Then;
    if ready == [] {
      NothingAccounted(n, fd);
    } else {
      UnfoldBatch(n, ready);
      var r, n1 := ready[0], Dispatch(n, ready[0]);
      FirstBrings(n, r, fd);
      BatchBrings(n1, ready[1..], fd);
      AccountedThen(n, n1, RunBatch(n, ready), fd, Account(Brought(n, r, fd), LetGo(n, n1, r, fd), HangsUp(n, r, fd)),
                    BatchAccount(n1, ready[1..], fd));
    }
  }

  lemma FirstBrings(n: Net, r: Ready, fd: Fd)
    requires Valid(n) && Reported(n, r) && fd in n.clients && fd in n.traffic && !Closes(r, fd)
    ensures var n' := Dispatch(n, r);
            && fd in n'.clients && fd in n'.traffic
            && Accounted(n, n', fd, Account(Brought(n, r, fd), LetGo(n, n', r, fd), HangsUp(n, r, fd)))
  {
    hide Valid, Dispatch, Reported, Brought, LetGo, HangsUp, Closes;
    DispatchBrings(n, r, fd);
  }

  lemma TimeoutBrings(n: Net, rs: seq<Request>, fd: Fd)
    requires Valid(n) && fd in n.clients && fd in n.traffic
    ensures Accounted(n, Serve(n, rs), fd, Account([], [], false))
  {
    hide Valid, Serve, Sizes, Datas, ConnAsked, Accounted;
    RestIsRegistered(n);
    ServeAsks(n, rs);
    AskedBringsNothing(n, Serve(n, rs), fd, Sizes(rs, fd), Datas(rs, fd));
  }

  lemma AskedBringsNothing(n: Net, n': Net, fd: Fd, sizes: seq<nat>, datas: seq<seq<Byte>>)
    requires fd in n.clients && fd in n.traffic && ConnAsked(n, n', fd, sizes, datas)
    ensures Accounted(n, n', fd, Account([], [], false))
  {
    hide Totals, Bufs;
    NothingAccounted(n, fd);
  }

  /** Over every run that does not close it, an open connection has received exactly what the reports
      offered it, each up to what was asked for then; has sent exactly what they made room for, each up to
      what was there to send then; and counts as hung up exactly if it did, or if some report ended in the
      peer's close before all asked for had come. */
  lemma {:induction false} RunBrings(n: Net, rounds: seq<Round>, fd: Fd)
    requires Valid(n) && Possible(n, rounds) && fd in n.clients && fd in n.traffic && NeverCloses(rounds, fd)
    ensures Accounted(n, RunLoop(n, rounds), fd, RunAccount(n, rounds, fd))
    decreases |rounds|
  {
    hide Valid, BatchOk, RunBatch, Serve, Closes, Limits, Account.Then, Accounted;
    if rounds == [] {
      NothingAccounted(n, fd);
    } else {
      var n1 := RunRound(n, rounds[0]);
      assert NeverCloses(rounds[1..], fd);
      RoundBrings(n, rounds[0], fd);
      RunBrings(n1, rounds[1..], fd);
      var first := if rounds[0].Batch? then BatchAccount(n, rounds[0].ready, fd) else Account([], [], false);
      AccountedThen(n, n1, RunLoop(n, rounds), fd, first, RunAccount(n1, rounds[1..], fd));
      ThenNothing(RunAccount(n1, rounds[1..], fd));
    }
  }

  lemma ThenNothing(a: Account)
    ensures Account([], [], false).Then(a) == a
  {
    assert [] + a.got == a.got && [] + a.gone == a.gone;
  }

  lemma RoundBrings(n: Net, round: Round, fd: Fd)
    requires Valid(n) && RoundOk(n, round) && fd in n.clients && fd in n.traffic
    requires round.Batch? ==> forall r | r in round.ready :: !Closes(r, fd)
    ensures fd in RunRound(n, round).clients && fd in RunRound(n, round).traffic
    ensures Accounted(n, RunRound(n, round), fd,
                      if round.Batch? then BatchAccount(n, round.ready, fd) else Account([], [], false))
  {
    hide Valid, BatchOk, RunBatch, Serve, Closes, Limits;
    match round
    case Timeout(rs) => TimeoutBrings(n, rs, fd);
    case Batch(ready) => BatchBrings(n, ready, fd);
  }

  // ---------- hanging up ----------

  /** Some report of the run on `fd` found the peer's close. */
  ghost predicate PeerClosedOn(rounds: seq<Round>, fd: Fd) {
    exists j :: 0 <= j < |rounds| && rounds[j].Batch? && PeerClosedIn(rounds[j].ready, fd)
  }

  ghost predicate PeerClosedIn(ready: seq<Ready>, fd: Fd) {
    exists r :: r in ready && r.fd == fd && r.input && r.ending.PeerClosed?
  }

  predicate NotHungUp(book: Ledger, fd: Fd) {
    fd in book ==> !book[fd].hungUp
  }

  lemma {:induction false} AcceptingHangsNobodyUp(book: Ledger, listenfd: Fd, accepted: seq<Accepted>, fd: Fd)
    requires NotHungUp(book, fd)
    ensures NotHungUp(AcceptedOn(book, listenfd, accepted), fd)
    decreases |accepted|
  {
    hide Sizes, Datas;
    if accepted != [] {
      var a := accepted[0];
      var book1 := if a.fd in book then book else Ask(book[a.fd := Line(listenfd, [], [], [], [], false, false)], a.rs);
      AcceptingHangsNobodyUp(book1, listenfd, accepted[1..], fd);
    }
  }

  lemma HandledHangsUp(book: Ledger, listeners: set<Fd>, r: Ready, fd: Fd)
    requires NotHungUp(book, fd) && !(r.fd == fd && r.input && r.ending.PeerClosed?)
    ensures NotHungUp(Handled(book, listeners, r), fd)
  {
    hide Sizes, Datas, Served, Line.Answered, Line.Notified, Line.Wanted, Line.Unsent, AcceptedOn;
    if r.fd in listeners {
      AcceptingHangsNobodyUp(book, r.fd, r.accepted, fd);
    }
  }

  lemma {:induction false} AllHangUp(book: Ledger, listeners: set<Fd>, ready: seq<Ready>, fd: Fd)
    requires NotHungUp(book, fd) && !PeerClosedIn(ready, fd)
    ensures NotHungUp(HandledAll(book, listeners, ready), fd)
    decreases |ready|
  {
    hide Handled, NotHungUp;
    if ready != [] {
      assert ready[0] in ready;
      HandledHangsUp(book, listeners, ready[0], fd);
      AllHangUp(Handled(book, listeners, ready[0]), listeners, ready[1..], fd);
    }
  }

  lemma {:induction false} RunHangsUp(book: Ledger, listeners: set<Fd>, rounds: seq<Round>, fd: Fd)
    requires NotHungUp(book, fd) && !PeerClosedOn(rounds, fd)
    ensures NotHungUp(RunOn(book, listeners, rounds), fd)
    decreases |rounds|
  {
    hide HandledAll, PeerClosedIn, Sizes, Datas;
    if rounds != [] {
      if rounds[0].Batch? {
        AllHangUp(book, listeners, rounds[0].ready, fd);
      }
      RunHangsUp(RoundOn(book, listeners, rounds[0]), listeners, rounds[1..], fd);
    }
  }

  lemma EmptyAtFirst(n: Net)
    requires Initial(n)
    ensures Book(n) == map[]
  {
  }

  /** From the start of the event loop: a connection counts as hung up, and so may wait without interest in
      input, only after some report on its descriptor found the peer's close. */
  lemma HungUpOnlyAfterClose(n: Net, rounds: seq<Round>, fd: Fd)
    requires Initial(n) && Valid(n) && Possible(n, rounds)
    requires fd in RunLoop(n, rounds).clients && fd in RunLoop(n, rounds).traffic
    ensures RunLoop(n, rounds).traffic[fd].hungUp ==> PeerClosedOn(rounds, fd)
    ensures !PeerClosedOn(rounds, fd) && RunLoop(n, rounds).clients[fd].rb != [] ==>
              fd in RunLoop(n, rounds).events && In in RunLoop(n, rounds).events[fd]
  {
    EmptyAtFirst(n);
    hide Valid, Initial, Possible, RunLoop, PeerClosedOn, Book, RunOn;
    var n' := RunLoop(n, rounds);
    RunOnBook(n, rounds);
    LedgerTells(n', fd);
    RestInterest(n', fd);
    if !PeerClosedOn(rounds, fd) {
      RunHangsUp(map[], n.listeners.Keys, rounds, fd);
    }
  }
}
