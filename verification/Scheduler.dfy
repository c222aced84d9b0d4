/**
 Epoll_Manager and Scheduler as the source has them: the kernel's interest set behind
 epoll_ctl(2), and the table whose entries submit and remove update in place.
 */
module Schedulers {
  import opened Handles
  import opened Interest

  /** The kernel side. A refused call makes Epoll_Manager throw. */
  class EpollManager {
    var interest: map<Fd, Events>

    constructor ()
      ensures interest == map[]
    {
      interest := map[];
    }

    method Add(fd: Fd, events: Events) returns (threw: bool)
      modifies this
      ensures threw <==> fd in old(interest)
      ensures interest == if threw then old(interest) else old(interest)[fd := events]
    {
      threw := fd in interest;
      if !threw {
        interest := interest[fd := events];
      }
    }

    method Modify(fd: Fd, events: Events) returns (threw: bool)
      modifies this
      ensures threw <==> fd !in old(interest)
      ensures interest == if threw then old(interest) else old(interest)[fd := events]
    {
      threw := fd !in interest;
      if !threw {
        interest := interest[fd := events];
      }
    }

    method Remove(fd: Fd) returns (threw: bool)
      modifies this
      ensures threw <==> fd !in old(interest)
      ensures interest == old(interest) - {fd}
    {
      threw := fd !in interest;
      if !threw {
        interest := interest - {fd};
      }
    }
  }

  class Scheduler {
    const epoll: EpollManager
    var fdToOp: map<Fd, Entry>
    // Whether some call so far ended in an exception.
    var threw: bool

    ghost function View(): State
      reads this, epoll
    {
      State(fdToOp, epoll.interest, threw)
    }

    constructor ()
      ensures View() == INITIAL && Inv(View()) && fresh(epoll)
    {
      epoll := new EpollManager();
      fdToOp := map[];
      threw := false;
    }

    /** submit_event_impl. In a good table every call is accepted by the kernel. */
    method SubmitEventImpl(fd: Fd, op: FdOps, event: Events)
      modifies this, epoll
      ensures View() == SubmitEvent(old(View()), fd, op, event)
    {
      var failed: bool;
      if fd !in fdToOp {
        var entry := Entry(event, Null, Null);
        if event.Meets(READ) {
          entry := entry.(read := op.read);
        }
        if event.Meets(WRITE) {
          entry := entry.(write := op.write);
        }
        fdToOp := fdToOp[fd := entry];
        failed := epoll.Add(fd, fdToOp[fd].events);
        threw := threw || failed;
        return;
      }
      var entry := fdToOp[fd].(events := fdToOp[fd].events.Or(event));
      if event.Meets(READ) {
        entry := entry.(read := op.read);
      }
      if event.Meets(WRITE) {
        entry := entry.(write := op.write);
      }
      fdToOp := fdToOp[fd := entry];
      failed := epoll.Modify(fd, entry.events);
      threw := threw || failed;
    }

    /** remove_op_impl */
    method RemoveOpImpl(fd: Fd, event: Events)
      modifies this, epoll
      ensures View() == RemoveOp(old(View()), fd, event)
    {
      if fd !in fdToOp {
        return;
      }
      var entry := fdToOp[fd].(events := fdToOp[fd].events.Without(event));
      if event.Meets(READ) {
        entry := entry.(read := Null);
      }
      if event.Meets(WRITE) {
        entry := entry.(write := Null);
      }
      var failed: bool;
      if entry.events == NONE {
        failed := epoll.Remove(fd);
        fdToOp := fdToOp - {fd};
      } else {
        fdToOp := fdToOp[fd := entry];
        failed := epoll.Modify(fd, entry.events);
      }
      threw := threw || failed;
    }

    /** submit_read, submit_accept, submit_cancel */
    method SubmitReader(fd: Fd, read: Ptr)
      modifies this, epoll
      ensures View() == SubmitRead(old(View()), fd, read)
      ensures old(Inv(View())) && read != Null && fd != TimerFd ==>
        Inv(View()) && Readers(View()) == old(Readers(View()))[fd := read] && Writers(View()) == old(Writers(View()))
    {
      ghost var before := View();
      if Inv(before) && read != Null && fd != TimerFd { SubmitReadLemma(before, fd, read); }
      SubmitEventImpl(fd, FdOps(read, Null), READ);
    }

    /** submit_write, submit_connect */
    method SubmitWriter(fd: Fd, write: Ptr)
      modifies this, epoll
      ensures View() == SubmitWrite(old(View()), fd, write)
      ensures old(Inv(View())) && write != Null ==>
        Inv(View()) && Readers(View()) == old(Readers(View())) && Writers(View()) == old(Writers(View()))[fd := write]
    {
      ghost var before := View();
      if Inv(before) && write != Null { SubmitWriteLemma(before, fd, write); }
      SubmitEventImpl(fd, FdOps(Null, write), WRITE);
    }

    method SubmitTimerOp(read: Ptr)
      modifies this, epoll
      ensures View() == SubmitTimer(old(View()), read)
      ensures old(Inv(View())) && read != Null ==>
        && Inv(View())
        && Readers(View()) == old(Readers(View()))[TimerFd := read] && Writers(View()) == old(Writers(View()))
    {
      ghost var before := View();
      if Inv(before) && read != Null { SubmitTimerLemma(before, read); }
      SubmitEventImpl(TimerFd, FdOps(read, Null), TIMER);
    }

    /** remove_read, remove_accept, remove_cancel */
    method RemoveReader(fd: Fd)
      modifies this, epoll
      ensures View() == RemoveRead(old(View()), fd)
      ensures old(Inv(View())) && fd != TimerFd ==>
        Inv(View()) && Readers(View()) == old(Readers(View())) - {fd} && Writers(View()) == old(Writers(View()))
    {
      ghost var before := View();
      if Inv(before) && fd != TimerFd { RemoveReadLemma(before, fd); }
      RemoveOpImpl(fd, READ);
    }

    /** remove_write, remove_connect */
    method RemoveWriter(fd: Fd)
      modifies this, epoll
      ensures View() == RemoveWrite(old(View()), fd)
      ensures old(Inv(View())) ==>
        Inv(View()) && Readers(View()) == old(Readers(View())) && Writers(View()) == old(Writers(View())) - {fd}
    {
      ghost var before := View();
      if Inv(before) { RemoveWriteLemma(before, fd); }
      RemoveOpImpl(fd, WRITE);
    }

    method RemoveTimerOp()
      modifies this, epoll
      ensures View() == RemoveTimer(old(View()))
      ensures old(Inv(View())) ==>
        Inv(View()) && Readers(View()) == old(Readers(View())) - {TimerFd} && Writers(View()) == old(Writers(View()))
    {
      ghost var before := View();
      if Inv(before) { RemoveTimerLemma(before); }
      RemoveOpImpl(TimerFd, TIMER);
    }
  }
}
