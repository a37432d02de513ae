/** The event loop: what epoll_wait reports is dispatched to the event handler, round after round. The
    object does what `NetRuns` says of its state, and so keeps every invariant over every run. */
module EventLoop {
  import opened Bytes
  import opened Stream
  import opened Epoll
  import opened NetModel
  import opened Network
  import opened NetInvariants
  import opened NetHandlers
  import opened NetLifecycle
  import opened NetRuns
  import EventHandler
  import NetLedger

  /** A reported descriptor, with the sockets as recv and send will show them. */
  datatype Event = Event(fd: Fd, input: bool, output: bool, hup: bool, error: bool,
                         incoming: Incoming, readCbs: Callbacks, room: Room, writeCbs: Callbacks,
                         closeRs: seq<Request>, accepted: seq<Accepted>)
  {
    /** What of it matters: not how the socket cuts its bytes and its room up. */
    function Ready(): Ready {
      NetRuns.Ready(fd, input, output, hup, error, incoming.Bytes(), incoming.ending, readCbs, Sum(room), writeCbs,
                    closeRs, accepted)
    }
  }

  function AllReady(events: seq<Event>): (s: seq<Ready>)
    ensures |s| == |events|
  {
    seq(|events|, i requires 0 <= i < |events| => events[i].Ready())
  }

  // What one wait of the loop returns: nothing but a timeout, or events.
  datatype Wait = TimedOut(rs: seq<Request>) | Events(events: seq<Event>)
  {
    function Round(): Round {
      match this
      case TimedOut(rs) => Timeout(rs)
      case Events(events) => Batch(AllReady(events))
    }
  }

  function AllRounds(waits: seq<Wait>): (s: seq<Round>)
    ensures |s| == |waits|
  {
    seq(|waits|, i requires 0 <= i < |waits| => waits[i].Round())
  }

  class EventLoop {
    const handler: EventHandler.EventHandler

    constructor (h: EventHandler.EventHandler)
      ensures handler == h
    {
      handler := h;
    }

    /** The handlers one reported descriptor calls for. */
    method DispatchEvent(e: Event)
      requires handler.Valid() && Reported(handler.Snapshot(), e.Ready())
      modifies handler, handler.demux, handler.rbpool, handler.wbpool
      ensures handler.Valid() && handler.Snapshot() == Dispatch(old(handler.Snapshot()), e.Ready())
      ensures NetLedger.Book(handler.Snapshot())
           == NetLedger.Handled(NetLedger.Book(old(handler.Snapshot())), old(handler.listeners.Keys), e.Ready())
    {
      NetLedger.DispatchOnBook(handler.Snapshot(), e.Ready());
      if e.fd in handler.listeners {
        handler.OnAccept(e.fd, e.accepted);
      } else if e.error {
        var _ := handler.OnClose(e.fd, e.closeRs);
      } else {
        HandlersHaveWork(handler.Snapshot(), e.Ready());
        ghost var n1 := AfterInput(handler.Snapshot(), e.Ready());
        if e.input {
          var _, _ := handler.OnRead(e.fd, e.incoming, e.readCbs);
        }
        assert handler.Snapshot() == n1;
        if e.output {
          var _, _ := handler.OnWrite(e.fd, e.room, e.writeCbs);
        }
        if e.hup {
          var _ := handler.OnClose(e.fd, e.closeRs);
        }
      }
    }

    method DispatchAll(events: seq<Event>)
      requires handler.Valid() && BatchOk(handler.Snapshot(), AllReady(events))
      modifies handler, handler.demux, handler.rbpool, handler.wbpool
      ensures handler.Valid() && handler.Snapshot() == RunBatch(old(handler.Snapshot()), AllReady(events))
    {
      hide Dispatch, NetInvariants.Valid, BatchOk, Reported, Limits, NetLedger.Book, NetLedger.Handled, Event.Ready;
      ghost var ready := AllReady(events);
      assert ready[0..] == ready;
      for k := 0 to |events|
        invariant handler.Valid() && BatchOk(handler.Snapshot(), ready[k..])
        invariant RunBatch(handler.Snapshot(), ready[k..]) == RunBatch(old(handler.Snapshot()), ready)
      {
        FirstKeepsBatch(handler.Snapshot(), ready[k..]);
        assert ready[k..][0] == events[k].Ready() && ready[k..][1..] == ready[k + 1..];
        DispatchEvent(events[k]);
      }
    }

    method OneRound(wait: Wait)
      requires handler.Valid() && RoundOk(handler.Snapshot(), wait.Round())
      modifies handler, handler.demux, handler.rbpool, handler.wbpool
      ensures handler.Valid() && handler.Snapshot() == RunRound(old(handler.Snapshot()), wait.Round())
    {
      hide NetInvariants.Valid, BatchOk, RunBatch;
      match wait {
        case TimedOut(rs) =>
          TimeoutKeeps(handler.Snapshot(), rs);
          handler.Callback(rs);
        case Events(events) =>
          DispatchAll(events);
      }
    }

    /** The loop, for as many waits as it makes before it is stopped. */
    method WaitEvent(waits: seq<Wait>)
      requires handler.Valid() && Possible(handler.Snapshot(), AllRounds(waits))
      modifies handler, handler.demux, handler.rbpool, handler.wbpool
      ensures handler.Valid() && handler.Snapshot() == RunLoop(old(handler.Snapshot()), AllRounds(waits))
      ensures NetLedger.Book(handler.Snapshot())
           == NetLedger.RunOn(NetLedger.Book(old(handler.Snapshot())), old(handler.listeners.Keys), AllRounds(waits))
    {
      NetLedger.RunOnBook(handler.Snapshot(), AllRounds(waits));
      ghost var rounds := AllRounds(waits);
      assert rounds[0..] == rounds;
      hide NetInvariants.Valid, RoundOk, RunRound, Wait.Round;
      for k := 0 to |waits|
        invariant handler.Valid() && Possible(handler.Snapshot(), rounds[k..])
        invariant RunLoop(handler.Snapshot(), rounds[k..]) == RunLoop(old(handler.Snapshot()), rounds)
      {
        assert rounds[k..][0] == waits[k].Round() && rounds[k..][1..] == rounds[k + 1..];
        OneRound(waits[k]);
      }
    }
  }
}
