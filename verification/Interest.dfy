/**
 The interest table of include/async_frame/scheduler.h and the kernel's epoll set beside it.
 The table keeps one entry per descriptor with merged event bits; the lemmas show that it is
 two independent maps, descriptor to reader and descriptor to writer.
 */
module Interest {
  import opened Handles

  /** An event word, reduced to the bits the loop uses: EPOLLIN, EPOLLOUT and EPOLLET. */
  datatype Events = Events(readable: bool, writable: bool, edge: bool) {
    /** this | other */
    function Or(other: Events): Events {
      Events(readable || other.readable, writable || other.writable, edge || other.edge)
    }

    /** this & ~other */
    function Without(other: Events): Events {
      Events(readable && !other.readable, writable && !other.writable, edge && !other.edge)
    }

    /** (this & other) != 0 */
    predicate Meets(other: Events) {
      (readable && other.readable) || (writable && other.writable) || (edge && other.edge)
    }
  }

  const NONE: Events := Events(false, false, false)
  const READ: Events := Events(true, false, false)
  const WRITE: Events := Events(false, true, false)
  const TIMER: Events := Events(true, false, true)

  datatype FdOps = FdOps(read: Ptr, write: Ptr)

  datatype Entry = Entry(events: Events, read: Ptr, write: Ptr)

  /** fd_to_op, the kernel's interest set, and whether any epoll_ctl call was refused. */
  datatype State = State(table: map<Fd, Entry>, interest: map<Fd, Events>, refused: bool)

  const INITIAL: State := State(map[], map[], false)

  // ------------------------------------------------------------------ epoll_ctl(2)

  /** EPOLL_CTL_ADD fails with EEXIST on a registered descriptor. */
  function CtlAdd(s: State, fd: Fd, events: Events): State {
    if fd in s.interest then s.(refused := true) else s.(interest := s.interest[fd := events])
  }

  /** EPOLL_CTL_MOD fails with ENOENT on an unregistered descriptor. */
  function CtlMod(s: State, fd: Fd, events: Events): State {
    if fd !in s.interest then s.(refused := true) else s.(interest := s.interest[fd := events])
  }

  /** EPOLL_CTL_DEL fails with ENOENT on an unregistered descriptor. */
  function CtlDel(s: State, fd: Fd): State {
    if fd !in s.interest then s.(refused := true) else s.(interest := s.interest - {fd})
  }

  // ------------------------------------------------------------------ submit and remove

  function SubmitEvent(s: State, fd: Fd, op: FdOps, event: Events): State {
    if fd !in s.table then
      var e := Entry(event,
                     if event.Meets(READ) then op.read else Null,
                     if event.Meets(WRITE) then op.write else Null);
      CtlAdd(s.(table := s.table[fd := e]), fd, e.events)
    else
      var prev := s.table[fd];
      var e := Entry(prev.events.Or(event),
                     if event.Meets(READ) then op.read else prev.read,
                     if event.Meets(WRITE) then op.write else prev.write);
      CtlMod(s.(table := s.table[fd := e]), fd, e.events)
  }

  function RemoveOp(s: State, fd: Fd, event: Events): State {
    if fd !in s.table then s
    else
      var prev := s.table[fd];
      var e := Entry(prev.events.Without(event),
                     if event.Meets(READ) then Null else prev.read,
                     if event.Meets(WRITE) then Null else prev.write);
      if e.events == NONE then CtlDel(s, fd).(table := s.table - {fd})
      else CtlMod(s.(table := s.table[fd := e]), fd, e.events)
  }

  /** submit_read, submit_accept and submit_cancel. */
  function SubmitRead(s: State, fd: Fd, read: Ptr): State {
    SubmitEvent(s, fd, FdOps(read, Null), READ)
  }

  /** submit_write and submit_connect. */
  function SubmitWrite(s: State, fd: Fd, write: Ptr): State {
    SubmitEvent(s, fd, FdOps(Null, write), WRITE)
  }

  function SubmitTimer(s: State, read: Ptr): State {
    SubmitEvent(s, TimerFd, FdOps(read, Null), TIMER)
  }

  /** remove_read, remove_accept and remove_cancel. */
  function RemoveRead(s: State, fd: Fd): State {
    RemoveOp(s, fd, READ)
  }

  /** remove_write and remove_connect. */
  function RemoveWrite(s: State, fd: Fd): State {
    RemoveOp(s, fd, WRITE)
  }

  function RemoveTimer(s: State): State {
    RemoveOp(s, TimerFd, TIMER)
  }

  // ------------------------------------------------------------------ the view as two maps

  function ReadSlot(s: State, fd: Fd): Ptr {
    if fd in s.table then s.table[fd].read else Null
  }

  function WriteSlot(s: State, fd: Fd): Ptr {
    if fd in s.table then s.table[fd].write else Null
  }

  ghost function Readers(s: State): map<Fd, Ptr> {
    map fd <- s.table | ReadSlot(s, fd) != Null :: ReadSlot(s, fd)
  }

  ghost function Writers(s: State): map<Fd, Ptr> {
    map fd <- s.table | WriteSlot(s, fd) != Null :: WriteSlot(s, fd)
  }

  /** The event bits that say exactly which slots are taken. */
  function EventsFor(fd: Fd, read: Ptr, write: Ptr): Events {
    Events(read != Null, write != Null, read != Null && fd == TimerFd)
  }

  ghost predicate EntryOk(fd: Fd, e: Entry) {
    && (e.read != Null || e.write != Null)
    && e.events == EventsFor(fd, e.read, e.write)
  }

  ghost predicate Inv(s: State) {
    && (forall fd <- s.table :: EntryOk(fd, s.table[fd]))
    && s.interest.Keys == s.table.Keys
    && (forall fd <- s.table :: s.interest[fd] == s.table[fd].events)
    && !s.refused
  }

  /** The table holds exactly these two maps: it has no other entries, and no entry differs. */
  ghost predicate Represents(table: map<Fd, Entry>, readers: map<Fd, Ptr>, writers: map<Fd, Ptr>) {
    && table.Keys == readers.Keys + writers.Keys
    && forall fd <- table ::
         var read := if fd in readers then readers[fd] else Null;
         var write := if fd in writers then writers[fd] else Null;
         table[fd] == Entry(EventsFor(fd, read, write), read, write)
  }

  lemma TableIsTwoMaps(s: State)
    requires Inv(s)
    ensures Represents(s.table, Readers(s), Writers(s))
    ensures s.table.Keys == {} <==> Readers(s).Keys == {} && Writers(s).Keys == {}
  {
    assert forall fd <- s.table :: EntryOk(fd, s.table[fd]);
    assert s.table.Keys == Readers(s).Keys + Writers(s).Keys;
  }

  lemma PutViews(s: State, fd: Fd, e: Entry)
    ensures var s' := s.(table := s.table[fd := e]);
      && Readers(s') == (if e.read != Null then Readers(s)[fd := e.read] else Readers(s) - {fd})
      && Writers(s') == (if e.write != Null then Writers(s)[fd := e.write] else Writers(s) - {fd})
  {
  }

  /** Replacing one entry, in the table and in the kernel, changes the two maps at that descriptor only. */
  lemma PutEntry(s: State, fd: Fd, e: Entry)
    requires Inv(s) && EntryOk(fd, e)
    ensures var s' := State(s.table[fd := e], s.interest[fd := e.events], false);
      && Inv(s')
      && Readers(s') == (if e.read != Null then Readers(s)[fd := e.read] else Readers(s) - {fd})
      && Writers(s') == (if e.write != Null then Writers(s)[fd := e.write] else Writers(s) - {fd})
  {
    hide EntryOk, Readers, Writers;
    PutViews(s, fd, e);
    SameTableSameViews(s.(table := s.table[fd := e]), State(s.table[fd := e], s.interest[fd := e.events], false));
  }

  lemma SameTableSameViews(a: State, b: State)
    requires a.table == b.table
    ensures Readers(a) == Readers(b) && Writers(a) == Writers(b)
  {
  }

  lemma DropViews(s: State, fd: Fd)
    ensures var s' := s.(table := s.table - {fd});
      Readers(s') == Readers(s) - {fd} && Writers(s') == Writers(s) - {fd}
  {
  }

  lemma DropEntry(s: State, fd: Fd)
    requires Inv(s)
    ensures var s' := State(s.table - {fd}, s.interest - {fd}, false);
      && Inv(s') && Readers(s') == Readers(s) - {fd} && Writers(s') == Writers(s) - {fd}
  {
    hide EntryOk, Readers, Writers;
    DropViews(s, fd);
    SameTableSameViews(s.(table := s.table - {fd}), State(s.table - {fd}, s.interest - {fd}, false));
  }

  /** A slot that is taken, or not, in the table is so in the maps. */
  lemma Slots(s: State, fd: Fd)
    requires Inv(s)
    ensures fd in s.interest <==> fd in s.table
    ensures fd in s.table ==> EntryOk(fd, s.table[fd])
    ensures fd in Readers(s) <==> fd in s.table && s.table[fd].read != Null
    ensures fd in Writers(s) <==> fd in s.table && s.table[fd].write != Null
    ensures fd in Readers(s) ==> Readers(s)[fd] == s.table[fd].read
    ensures fd in Writers(s) ==> Writers(s)[fd] == s.table[fd].write
  {
  }

  /** What submit_event_impl leaves: the slots named by `event` replaced, the bits following the slots. */
  lemma SubmitShape(s: State, fd: Fd, op: FdOps, event: Events)
    requires Inv(s)
    requires event == EventsFor(fd, op.read, op.write) && (op.read == Null) != (op.write == Null)
    ensures var prev := if fd in s.table then s.table[fd] else Entry(NONE, Null, Null);
      var read := if op.read != Null then op.read else prev.read;
      var write := if op.write != Null then op.write else prev.write;
      var e := Entry(EventsFor(fd, read, write), read, write);
      && EntryOk(fd, e)
      && SubmitEvent(s, fd, op, event) == State(s.table[fd := e], s.interest[fd := e.events], false)
  {
    Slots(s, fd);
  }

  /** What remove_op_impl leaves: one slot emptied, the entry gone when both are empty. */
  lemma RemoveShape(s: State, fd: Fd, event: Events)
    requires Inv(s) && fd in s.table
    requires event == WRITE || event == if fd == TimerFd then TIMER else READ
    ensures var prev := s.table[fd];
      var read := if event == WRITE then prev.read else Null;
      var write := if event == WRITE then Null else prev.write;
      var e := Entry(EventsFor(fd, read, write), read, write);
      if read == Null && write == Null then RemoveOp(s, fd, event) == State(s.table - {fd}, s.interest - {fd}, false)
      else EntryOk(fd, e) && RemoveOp(s, fd, event) == State(s.table[fd := e], s.interest[fd := e.events], false)
  {
    Slots(s, fd);
  }

  lemma SubmitReadLemma(s: State, fd: Fd, read: Ptr)
    requires Inv(s) && read != Null && fd != TimerFd
    ensures var s' := SubmitRead(s, fd, read);
      && Inv(s') && Readers(s') == Readers(s)[fd := read] && Writers(s') == Writers(s)
  {
    SubmitShape(s, fd, FdOps(read, Null), READ);
    Slots(s, fd);
    PutEntry(s, fd, SubmitRead(s, fd, read).table[fd]);
  }

  lemma SubmitWriteLemma(s: State, fd: Fd, write: Ptr)
    requires Inv(s) && write != Null
    ensures var s' := SubmitWrite(s, fd, write);
      && Inv(s') && Readers(s') == Readers(s) && Writers(s') == Writers(s)[fd := write]
  {
    SubmitShape(s, fd, FdOps(Null, write), WRITE);
    Slots(s, fd);
    PutEntry(s, fd, SubmitWrite(s, fd, write).table[fd]);
  }

  lemma SubmitTimerLemma(s: State, read: Ptr)
    requires Inv(s) && read != Null
    ensures var s' := SubmitTimer(s, read);
      && Inv(s') && Readers(s') == Readers(s)[TimerFd := read] && Writers(s') == Writers(s)
  {
    SubmitShape(s, TimerFd, FdOps(read, Null), TIMER);
    Slots(s, TimerFd);
    PutEntry(s, TimerFd, SubmitTimer(s, read).table[TimerFd]);
  }

  lemma RemoveTaken(s: State, fd: Fd, event: Events)
    requires Inv(s) && fd in s.table
    requires event == WRITE || event == if fd == TimerFd then TIMER else READ
    ensures var s' := RemoveOp(s, fd, event);
      var e := s.table[fd];
      && Inv(s')
      && Readers(s') == (if event == WRITE && e.read != Null then Readers(s)[fd := e.read] else Readers(s) - {fd})
      && Writers(s') == (if event != WRITE && e.write != Null then Writers(s)[fd := e.write] else Writers(s) - {fd})
  {
    RemoveShape(s, fd, event);
    hide Inv, Readers, Writers, RemoveOp, EntryOk, EventsFor;
    var s' := RemoveOp(s, fd, event);
    if fd in s'.table {
      PutEntry(s, fd, s'.table[fd]);
    } else {
      DropEntry(s, fd);
    }
  }

  lemma RemoveLemma(s: State, fd: Fd, event: Events)
    requires Inv(s)
    requires event == WRITE || event == if fd == TimerFd then TIMER else READ
    ensures var s' := RemoveOp(s, fd, event);
      && Inv(s')
      && Readers(s') == (if event == WRITE then Readers(s) else Readers(s) - {fd})
      && Writers(s') == (if event == WRITE then Writers(s) - {fd} else Writers(s))
  {
    hide Inv, Readers, Writers, EntryOk, EventsFor;
    Slots(s, fd);
    if fd in s.table {
      RemoveTaken(s, fd, event);
    }
  }

  lemma RemoveReadLemma(s: State, fd: Fd)
    requires Inv(s) && fd != TimerFd
    ensures var s' := RemoveRead(s, fd);
      && Inv(s') && Readers(s') == Readers(s) - {fd} && Writers(s') == Writers(s)
  {
    RemoveLemma(s, fd, READ);
  }

  lemma RemoveWriteLemma(s: State, fd: Fd)
    requires Inv(s)
    ensures var s' := RemoveWrite(s, fd);
      && Inv(s') && Readers(s') == Readers(s) && Writers(s') == Writers(s) - {fd}
  {
    RemoveLemma(s, fd, WRITE);
  }

  lemma RemoveTimerLemma(s: State)
    requires Inv(s)
    ensures var s' := RemoveTimer(s);
      && Inv(s') && Readers(s') == Readers(s) - {TimerFd} && Writers(s') == Writers(s)
  {
    RemoveLemma(s, TimerFd, TIMER);
  }

  /** Removing a plain read interest breaks the table exactly when the descriptor carries a
      timer registration, whose EPOLLET bit would stay behind alone. */
  lemma RemoveReadBreaksTimerOnly(s: State, fd: Fd)
    requires Inv(s)
    ensures Inv(RemoveRead(s, fd)) <==> !(fd == TimerFd && fd in Readers(s))
  {
    Slots(s, fd);
    if fd != TimerFd {
      RemoveReadLemma(s, fd);
    } else if fd in Readers(s) {
      assert s.table[fd].events.Without(READ).edge;
      assert RemoveRead(s, fd).table[fd].read == Null;
      assert RemoveRead(s, fd).table[fd].events.edge;
    } else if fd in s.table {
      assert RemoveRead(s, fd) == State(s.table[fd := s.table[fd]], s.interest[fd := s.table[fd].events], false);
      PutEntry(s, fd, s.table[fd]);
    }
  }

  // ------------------------------------------------------------------ whole runs

  datatype Call =
    | AddRead(fd: Fd, op: Ptr)
    | AddWrite(fd: Fd, op: Ptr)
    | AddTimer(op: Ptr)
    | DelRead(fd: Fd)
    | DelWrite(fd: Fd)
    | DelTimer

  /** Operations are real pointers, and only the timer calls touch the timerfd. */
  predicate Legal(c: Call) {
    && (c.AddRead? || c.AddWrite? || c.AddTimer? ==> c.op != Null)
    && (c.AddRead? || c.AddWrite? || c.DelRead? || c.DelWrite? ==> c.fd != TimerFd)
  }

  function Apply(s: State, c: Call): State {
    match c
    case AddRead(fd, op) => SubmitRead(s, fd, op)
    case AddWrite(fd, op) => SubmitWrite(s, fd, op)
    case AddTimer(op) => SubmitTimer(s, op)
    case DelRead(fd) => RemoveRead(s, fd)
    case DelWrite(fd) => RemoveWrite(s, fd)
    case DelTimer => RemoveTimer(s)
  }

  function Run(calls: seq<Call>): State {
    if calls == [] then INITIAL else Apply(Run(calls[..|calls| - 1]), calls[|calls| - 1])
  }

  /** The specification: each side remembers its last submitted operation per descriptor. */
  function LastReaders(calls: seq<Call>): map<Fd, Ptr> {
    if calls == [] then map[]
    else
      var m := LastReaders(calls[..|calls| - 1]);
      match calls[|calls| - 1]
      case AddRead(fd, op) => m[fd := op]
      case AddTimer(op) => m[TimerFd := op]
      case DelRead(fd) => m - {fd}
      case DelTimer => m - {TimerFd}
      case _ => m
  }

  function LastWriters(calls: seq<Call>): map<Fd, Ptr> {
    if calls == [] then map[]
    else
      var m := LastWriters(calls[..|calls| - 1]);
      match calls[|calls| - 1]
      case AddWrite(fd, op) => m[fd := op]
      case DelWrite(fd) => m - {fd}
      case _ => m
  }

  lemma {:induction false} RunLemma(calls: seq<Call>)
    requires forall c <- calls :: Legal(c)
    ensures Inv(Run(calls))
    ensures Readers(Run(calls)) == LastReaders(calls) && Writers(Run(calls)) == LastWriters(calls)
  {
    if calls != [] {
      var before := Run(calls[..|calls| - 1]);
      var c := calls[|calls| - 1];
      RunLemma(calls[..|calls| - 1]);
      assert Legal(c);
      match c
      case AddRead(fd, op) => SubmitReadLemma(before, fd, op);
      case AddWrite(fd, op) => SubmitWriteLemma(before, fd, op);
      case AddTimer(op) => SubmitTimerLemma(before, op);
      case DelRead(fd) => RemoveReadLemma(before, fd);
      case DelWrite(fd) => RemoveWriteLemma(before, fd);
      case DelTimer => RemoveTimerLemma(before);
    }
  }

  predicate SetsReader(c: Call, fd: Fd, op: Ptr) {
    (c.AddRead? && c.fd == fd && c.op == op) || (c.AddTimer? && fd == TimerFd && c.op == op)
  }

  predicate TouchesReader(c: Call, fd: Fd) {
    ((c.AddRead? || c.DelRead?) && c.fd == fd) || ((c.AddTimer? || c.DelTimer?) && fd == TimerFd)
  }

  predicate TouchesWriter(c: Call, fd: Fd) {
    (c.AddWrite? || c.DelWrite?) && c.fd == fd
  }

  /** The i-th call made op the reader of fd, and none since has concerned that reader. */
  ghost predicate ReaderSince(calls: seq<Call>, i: nat, fd: Fd, op: Ptr) {
    i < |calls| && SetsReader(calls[i], fd, op) && forall j | i < j < |calls| :: !TouchesReader(calls[j], fd)
  }

  ghost predicate WriterSince(calls: seq<Call>, i: nat, fd: Fd, op: Ptr) {
    i < |calls| && calls[i] == AddWrite(fd, op) && forall j | i < j < |calls| :: !TouchesWriter(calls[j], fd)
  }

  /** What the two maps hold, said without recursion: the operation last submitted for that side of the
      descriptor and not removed since. */
  lemma {:induction false} LastOneStands(calls: seq<Call>, fd: Fd, op: Ptr)
    requires forall c <- calls :: Legal(c)
    ensures (fd in LastReaders(calls) && LastReaders(calls)[fd] == op) <==>
      exists i: nat :: ReaderSince(calls, i, fd, op)
    ensures (fd in LastWriters(calls) && LastWriters(calls)[fd] == op) <==>
      exists i: nat :: WriterSince(calls, i, fd, op)
  {
    if calls != [] {
      var before, c := calls[..|calls| - 1], calls[|calls| - 1];
      LastOneStands(before, fd, op);
      assert Legal(c);
      ReaderGoesOn(before, c, fd, op);
      WriterGoesOn(before, c, fd, op);
      assert before + [c] == calls;
    }
  }

  lemma ReaderGoesOn(before: seq<Call>, c: Call, fd: Fd, op: Ptr)
    ensures (exists i: nat :: ReaderSince(before + [c], i, fd, op)) <==>
      SetsReader(c, fd, op) || (!TouchesReader(c, fd) && exists i: nat :: ReaderSince(before, i, fd, op))
  {
    var calls := before + [c];
    if i: nat :| ReaderSince(calls, i, fd, op) {
      if i < |before| {
        assert !TouchesReader(calls[|before|], fd);
        forall j | i < j < |before| ensures !TouchesReader(before[j], fd) { assert before[j] == calls[j]; }
        assert ReaderSince(before, i, fd, op);
      }
    }
    if SetsReader(c, fd, op) {
      assert ReaderSince(calls, |before|, fd, op);
    } else if !TouchesReader(c, fd) {
      if i: nat :| ReaderSince(before, i, fd, op) { assert ReaderSince(calls, i, fd, op); }
    }
  }

  lemma WriterGoesOn(before: seq<Call>, c: Call, fd: Fd, op: Ptr)
    ensures (exists i: nat :: WriterSince(before + [c], i, fd, op)) <==>
      c == AddWrite(fd, op) || (!TouchesWriter(c, fd) && exists i: nat :: WriterSince(before, i, fd, op))
  {
    var calls := before + [c];
    if i: nat :| WriterSince(calls, i, fd, op) {
      if i < |before| {
        assert !TouchesWriter(calls[|before|], fd);
        forall j | i < j < |before| ensures !TouchesWriter(before[j], fd) { assert before[j] == calls[j]; }
        assert WriterSince(before, i, fd, op);
      }
    }
    if c == AddWrite(fd, op) {
      assert WriterSince(calls, |before|, fd, op);
    } else if !TouchesWriter(c, fd) {
      if i: nat :| WriterSince(before, i, fd, op) { assert WriterSince(calls, i, fd, op); }
    }
  }

  /** After any submits and removes the table and the kernel's set are those of the two maps, and no
      epoll_ctl call was ever refused. */
  lemma TableRefinesTwoMaps(calls: seq<Call>)
    requires forall c <- calls :: Legal(c)
    ensures var s := Run(calls);
      && Represents(s.table, LastReaders(calls), LastWriters(calls))
      && s.interest.Keys == s.table.Keys && (forall fd <- s.table :: s.interest[fd] == s.table[fd].events)
      && !s.refused
  {
    RunLemma(calls);
    TableIsTwoMaps(Run(calls));
  }
}
