/** The bookkeeping of epoll interest: the map the class keeps, beside the kernel's own table. */
module Epoll {
  type Fd = int

  datatype Flag = In | Out | RdHup

  type Interest = map<Fd, set<Flag>>

  // ---------- what the operations do to the map ----------

  /** Registers `fd`, always with RdHup; a descriptor already registered stays as it is. */
  function WithConn(m: Interest, fd: Fd, ev: set<Flag>): Interest {
    if fd in m then m else m[fd := {RdHup} + ev]
  }

  function WithoutConn(m: Interest, fd: Fd): Interest {
    m - {fd}
  }

  function WithEvent(m: Interest, fd: Fd, flag: Flag): Interest {
    if fd in m then m[fd := m[fd] + {flag}] else m
  }

  function WithoutEvent(m: Interest, fd: Fd, flag: Flag): Interest {
    if fd in m then m[fd := m[fd] - {flag}] else m
  }

  // ---------- the class ----------

  datatype CtlOp = CtlAdd | CtlMod | CtlDel

  class Epoll {
    var mapEvent: Interest
    var kernel: Interest  // the kernel's table, which only EpollCtl changes

    /** The map mirrors the kernel's table. */
    ghost predicate Valid()
      reads this
    {
      kernel == mapEvent
    }

    constructor (listenfds: seq<Fd>)
      ensures Valid()
      ensures forall fd :: fd in mapEvent <==> fd in listenfds
      ensures forall fd | fd in mapEvent :: mapEvent[fd] == {RdHup, In}
    {
      mapEvent, kernel := map[], map[];
      new;
      for i := 0 to |listenfds|
        invariant Valid()
        invariant forall fd :: fd in mapEvent <==> fd in listenfds[..i]
        invariant forall fd | fd in mapEvent :: mapEvent[fd] == {RdHup, In}
      {
        AddConn(listenfds[i], {In});
        assert listenfds[..i + 1] == listenfds[..i] + [listenfds[i]];
      }
      assert listenfds[..|listenfds|] == listenfds;
    }

    // A call the kernel refuses, because `fd` is or is not in its table, changes nothing; the
    // source ignores the return code.
    method EpollCtl(fd: Fd, op: CtlOp, event: set<Flag>)
      modifies this`kernel
      ensures kernel == match op
                        case CtlAdd => if fd in old(kernel) then old(kernel) else old(kernel)[fd := event]
                        case CtlMod => if fd in old(kernel) then old(kernel)[fd := event] else old(kernel)
                        case CtlDel => old(kernel) - {fd}
    {
      match op
      case CtlAdd => if fd !in kernel { kernel := kernel[fd := event]; }
      case CtlMod => if fd in kernel { kernel := kernel[fd := event]; }
      case CtlDel => kernel := kernel - {fd};
    }

    method AddConn(fd: Fd, ev: set<Flag>)
      requires Valid()
      modifies this
      ensures Valid() && mapEvent == WithConn(old(mapEvent), fd, ev)
    {
      var event := {RdHup} + ev;
      EpollCtl(fd, CtlAdd, event);
      if fd !in mapEvent {  // insert does not overwrite
        mapEvent := mapEvent[fd := event];
      }
    }

    method DelConn(fd: Fd)
      requires Valid()
      modifies this
      ensures Valid() && mapEvent == WithoutConn(old(mapEvent), fd)
    {
      EpollCtl(fd, CtlDel, {});
      mapEvent := mapEvent - {fd};
    }

    method AddEvent(fd: Fd, flag: Flag)
      requires Valid()
      modifies this
      ensures Valid() && mapEvent == WithEvent(old(mapEvent), fd, flag)
    {
      if fd in mapEvent {
        var oldev := mapEvent[fd];
        if flag !in oldev {
          EpollCtl(fd, CtlMod, oldev + {flag});
          mapEvent := mapEvent[fd := oldev + {flag}];
        } else {
          assert oldev + {flag} == oldev;
        }
      }
    }

    method DelEvent(fd: Fd, flag: Flag)
      requires Valid()
      modifies this
      ensures Valid() && mapEvent == WithoutEvent(old(mapEvent), fd, flag)
    {
      if fd in mapEvent {
        var oldev := mapEvent[fd];
        if flag in oldev {
          EpollCtl(fd, CtlMod, oldev - {flag});
          mapEvent := mapEvent[fd := oldev - {flag}];
        } else {
          assert oldev - {flag} == oldev;
        }
      }
    }
  }
}
