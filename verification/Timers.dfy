/**
 The lazily cancelled timer queue of include/async_frame/timer.h: one timerfd multiplexed
 over many timers. The pure functions say what each call does to the fields, the lemmas
 relate that to a plain set of live timers. The object itself is in module TimerEvents.
 */
module Timers {
  import opened Handles

  datatype Task = Task(read: Ptr, due: int, id: nat)

  /** A value-initialised TimerTask. */
  const NO_TASK: Task := Task(Null, 0, 0)

  /** The kernel's one-shot timerfd: the absolute deadline it is armed at, and whether its
      expiration count was read since it was last set. */
  datatype Timerfd = Timerfd(armed: Option<int>, drained: bool)

  datatype State = State(
    cur: Task,
    queue: set<Task>,
    nextId: nat,
    active: map<Ptr, nat>,
    cancelled: set<nat>,
    fd: Timerfd)

  const INITIAL: State := State(NO_TASK, {}, 1, map[], {}, Timerfd(None, false))

  /** What priority_queue::top returns: some task of least deadline. Which one among equal
      deadlines is left open; every call below takes its own choice. */
  type Pick = set<Task> -> Task

  ghost predicate PicksEarliest(pick: Pick) {
    forall q: set<Task> :: q != {} ==> pick(q) in q && forall t <- q :: pick(q).due <= t.due
  }

  /** Such choices exist. */
  lemma PickExists()
    ensures exists pick: Pick :: PicksEarliest(pick)
  {
    var pick: Pick := q => if q == {} then NO_TASK else EarliestOf(q);
    forall q: set<Task> | q != {} ensures pick(q) in q && forall t <- q :: pick(q).due <= t.due {
      assert pick(q) == EarliestOf(q);
    }
    assert PicksEarliest(pick);
  }

  ghost function EarliestOf(q: set<Task>): (e: Task)
    requires q != {}
    ensures e in q && forall t <- q :: e.due <= t.due
    decreases q
  {
    var t :| t in q;
    if q == {t} then t
    else
      var e := EarliestOf(q - {t});
      if t.due <= e.due then t else e
  }

  predicate EmptyTask(t: Task) {
    t.due == 0
  }

  // ------------------------------------------------------------------ the calls

  function RememberActive(s: State, t: Task): State {
    if t.read != Null then s.(active := s.active[t.read := t.id]) else s
  }

  function ForgetActive(s: State, t: Task): State {
    if t.read != Null && t.read in s.active && s.active[t.read] == t.id then
      s.(active := s.active - {t.read})
    else s
  }

  predicate IsTombstone(s: State, t: Task) {
    t.id != 0 && t.id in s.cancelled
  }

  function ConsumeTombstone(s: State, t: Task): State {
    s.(cancelled := s.cancelled - {t.id})
  }

  function Arm(s: State, due: int): State {
    s.(fd := Timerfd(Some(due), false))
  }

  function Disarm(s: State): State {
    s.(fd := Timerfd(None, false))
  }

  function ActivateNext(s: State, pick: Pick): State
    requires PicksEarliest(pick)
    decreases s.queue
  {
    if s.queue == {} then Disarm(s.(cur := NO_TASK))
    else
      var t := pick(s.queue);
      var popped := s.(queue := s.queue - {t});
      if IsTombstone(popped, t) then ActivateNext(ForgetActive(ConsumeTombstone(popped, t), t), pick)
      else Arm(popped.(cur := t), t.due)
  }

  function Refresh(s: State, pick: Pick): State
    requires PicksEarliest(pick)
  {
    if EmptyTask(s.cur) then ActivateNext(ForgetActive(s, s.cur), pick)
    else if IsTombstone(s, s.cur) then ActivateNext(ForgetActive(ConsumeTombstone(s, s.cur), s.cur), pick)
    else s
  }

  /** operator++ */
  function Advance(s: State, pick: Pick): State
    requires PicksEarliest(pick)
  {
    ActivateNext(ForgetActive(s, s.cur), pick)
  }

  function Cancel(s: State, read: Ptr): State {
    if read == Null || read !in s.active then s
    else s.(cancelled := s.cancelled + {s.active[read]}, active := s.active - {read})
  }

  /** `due` is the clock reading plus the delay. */
  function SetTimer(s: State, read: Ptr, due: int, pick: Pick): State
    requires PicksEarliest(pick)
  {
    Insert(Refresh(s, pick), read, due)
  }

  /** The part of set_timer that follows the refresh. */
  function Insert(r: State, read: Ptr, due: int): State {
    var t := Task(read, due, r.nextId);
    var m := RememberActive(r.(nextId := r.nextId + 1), t);
    if EmptyTask(m.cur) then Arm(m.(cur := t), due)
    else if m.cur.due > due then Arm(m.(queue := m.queue + {m.cur}, cur := t), due)
    else m.(queue := m.queue + {t})
  }

  predicate IsCurrent(s: State, read: Ptr) {
    s.cur.read == read
  }

  /** timerfd_gettime: zero once the armed deadline is reached, and when disarmed. */
  function Remaining(s: State, now: int): int {
    if s.fd.armed.None? || s.fd.armed.value <= now then 0 else s.fd.armed.value - now
  }

  predicate Readable(s: State, now: int) {
    s.fd.armed.Some? && s.fd.armed.value <= now && !s.fd.drained
  }

  /** The clock when a read of the expiration count returns: the read blocks until the armed deadline. */
  function ConsumeReturnsAt(s: State, now: int): int
    requires s.fd.armed.Some? && !s.fd.drained
  {
    if Readable(s, now) then now else s.fd.armed.value
  }

  function Consume(s: State): State {
    s.(fd := s.fd.(drained := true))
  }

  // ------------------------------------------------------------------ the view as a set of timers

  ghost function Pending(s: State): set<Task> {
    if EmptyTask(s.cur) then s.queue else s.queue + {s.cur}
  }

  ghost function Untombstoned(s: State, q: set<Task>): set<Task> {
    set t <- q | t.id !in s.cancelled
  }

  ghost function Live(s: State): set<Task> {
    Untombstoned(s, Pending(s))
  }

  ghost function Ids(q: set<Task>): set<nat> {
    set t <- q :: t.id
  }

  ghost predicate Earliest(t: Task, q: set<Task>) {
    t in q && forall u <- q :: t.due <= u.due
  }

  /** `active` maps exactly the operations of the untombstoned tasks in q, each to its task's id. */
  ghost predicate ActiveMatches(s: State, q: set<Task>) {
    && (forall t <- q :: t.id !in s.cancelled ==> t.read in s.active && s.active[t.read] == t.id)
    && (forall r <- s.active :: exists t <- q :: t.read == r && t.id == s.active[r] && t.id !in s.cancelled)
  }

  ghost predicate TasksOk(q: set<Task>, nextId: nat) {
    && (forall t <- q :: 0 < t.id < nextId && t.due > 0 && t.read != Null)
    && (forall t <- q, u <- q :: t.id == u.id ==> t == u)
  }

  /** The fields without `cur` and the kernel timer: what activate_next_timer starts from. */
  ghost predicate QueueInv(s: State) {
    && s.nextId >= 1
    && TasksOk(s.queue, s.nextId)
    && s.cancelled <= Ids(s.queue)
    && ActiveMatches(s, s.queue)
  }

  ghost predicate Inv(s: State) {
    && s.nextId >= 1
    && TasksOk(Pending(s), s.nextId)
    && s.cancelled <= Ids(Pending(s))
    && ActiveMatches(s, Pending(s))
    && s.cur !in s.queue
    && (EmptyTask(s.cur) ==> s.cur == NO_TASK && s.queue == {})
    && (forall t <- s.queue :: s.cur.due <= t.due)
    && s.fd == Timerfd(if EmptyTask(s.cur) then None else Some(s.cur.due), false)
  }

  /** `cur` is not tombstoned: the state in which every awaiter leaves the queue. */
  ghost predicate Settled(s: State) {
    s.cur.id !in s.cancelled
  }

  // ------------------------------------------------------------------ lemmas

  /** Popping a tombstoned entry touches neither the live tasks nor the active map: the id guard
      in forget_active finds no entry of this id, whatever the address of the entry is used for now. */
  lemma DropTombstone(s: State, t: Task)
    requires QueueInv(s) && t in s.queue && t.id in s.cancelled
    ensures var popped := s.(queue := s.queue - {t});
      var next := ConsumeTombstone(popped, t);
      && ForgetActive(next, t) == next && QueueInv(next)
      && Untombstoned(next, next.queue) == Untombstoned(s, s.queue)
  {
    var next := ConsumeTombstone(s.(queue := s.queue - {t}), t);
    forall i <- next.cancelled ensures i in Ids(next.queue) {
      var u :| u in s.queue && u.id == i;
      assert u in next.queue;
    }
    forall r <- next.active
      ensures exists u <- next.queue :: u.read == r && u.id == next.active[r] && u.id !in next.cancelled
    {
      var u :| u in s.queue && u.read == r && u.id == s.active[r] && u.id !in s.cancelled;
      assert u in next.queue;
    }
  }

  lemma ActivateLive(s: State, t: Task)
    requires QueueInv(s) && Earliest(t, s.queue) && t.id !in s.cancelled
    ensures var s' := Arm(s.(queue := s.queue - {t}, cur := t), t.due);
      Inv(s') && Pending(s') == s.queue
  {
    var s' := Arm(s.(queue := s.queue - {t}, cur := t), t.due);
    assert Pending(s') == s.queue;
  }

  lemma {:induction false} ActivateNextLemma(s: State, pick: Pick)
    requires PicksEarliest(pick) && QueueInv(s)
    ensures var s' := ActivateNext(s, pick);
      && Inv(s') && Settled(s')
      && Live(s') == Untombstoned(s, s.queue)
      && s'.active == s.active && s'.nextId == s.nextId
      && Pending(s') <= s.queue && s'.cancelled <= s.cancelled
    decreases s.queue
  {
    if s.queue != {} {
      var t := pick(s.queue);
      if t.id in s.cancelled {
        DropTombstone(s, t);
        ActivateNextLemma(ConsumeTombstone(s.(queue := s.queue - {t}), t), pick);
      } else {
        ActivateLive(s, t);
      }
    }
  }

  lemma RefreshLemma(s: State, pick: Pick)
    requires PicksEarliest(pick) && Inv(s)
    ensures var s' := Refresh(s, pick);
      && Inv(s') && Settled(s')
      && Live(s') == Live(s)
      && s'.active == s.active && s'.nextId == s.nextId
      && Pending(s') <= Pending(s) && s'.cancelled <= s.cancelled
      && (Settled(s) ==> s' == s)
  {
    if EmptyTask(s.cur) {
      assert ForgetActive(s, s.cur) == s;
      ActivateNextLemma(s, pick);
    } else if IsTombstone(s, s.cur) {
      var next := ConsumeTombstone(s, s.cur);
      assert ForgetActive(next, s.cur) == next;
      RemoveCurKeepsQueueInv(s, next);
      ActivateNextLemma(next, pick);
      assert Live(s) == Untombstoned(next, next.queue);
    }
  }

  /** Dropping `cur`, with its tombstone or its active entry, leaves a good queue. */
  lemma RemoveCurKeepsQueueInv(s: State, next: State)
    requires Inv(s) && !EmptyTask(s.cur)
    requires next.queue == s.queue && next.nextId == s.nextId
    requires next.cancelled == s.cancelled - {s.cur.id}
    requires next.active == if Settled(s) then s.active - {s.cur.read} else s.active
    ensures QueueInv(next)
  {
    assert next.cancelled <= Ids(next.queue) by {
      forall i <- next.cancelled ensures i in Ids(next.queue) {
        assert i in Ids(Pending(s));
        var u :| u in Pending(s) && u.id == i;
        assert u in next.queue;
      }
    }
    forall r <- next.active
      ensures exists t <- next.queue :: t.read == r && t.id == next.active[r] && t.id !in next.cancelled
    {
      var t :| t in Pending(s) && t.read == r && t.id == s.active[r] && t.id !in s.cancelled;
      assert t in next.queue;
    }
    forall t <- next.queue | t.id !in next.cancelled
      ensures t.read in next.active && next.active[t.read] == t.id
    {
      assert t in Pending(s) && s.cur in Pending(s);
    }
  }

  lemma AdvanceLemma(s: State, pick: Pick)
    requires PicksEarliest(pick) && Inv(s) && Settled(s)
    ensures var s' := Advance(s, pick);
      && Inv(s') && Settled(s')
      && Live(s') == Live(s) - {s.cur}
      && s'.active == s.active - {s.cur.read} && s'.nextId == s.nextId
      && Pending(s') <= s.queue && s'.cancelled <= s.cancelled
  {
    var next := ForgetActive(s, s.cur);
    if EmptyTask(s.cur) {
      assert next == s;
      assert s.queue == {};
      ActivateNextLemma(s, pick);
      assert Null !in s.active;
    } else {
      assert s.cur in Pending(s);
      assert next.cancelled == s.cancelled - {s.cur.id};
      RemoveCurKeepsQueueInv(s, next);
      ActivateNextLemma(next, pick);
      assert Live(s) - {s.cur} == Untombstoned(next, next.queue);
    }
  }

  /** Advancing past a tombstoned `cur` would leave its tombstone behind for ever; this is the only
      way operator++ breaks the queue. */
  lemma AdvanceNeedsSettled(s: State, pick: Pick)
    requires PicksEarliest(pick) && Inv(s)
    ensures Inv(Advance(s, pick)) <==> Settled(s)
  {
    if Settled(s) {
      AdvanceLemma(s, pick);
    } else {
      assert s.cur in Pending(s);
      ActivateNextKeepsForeign(ForgetActive(s, s.cur), s.cur.id, pick);
    }
  }

  /** A tombstone whose id is not queued survives any number of pops, which yield queued tasks only. */
  lemma {:induction false} ActivateNextKeepsForeign(s: State, id: nat, pick: Pick)
    requires PicksEarliest(pick) && id in s.cancelled && id !in Ids(s.queue)
    ensures id in ActivateNext(s, pick).cancelled
    ensures Pending(ActivateNext(s, pick)) <= s.queue
    decreases s.queue
  {
    if s.queue != {} {
      var t := pick(s.queue);
      var popped := s.(queue := s.queue - {t});
      if IsTombstone(popped, t) {
        ActivateNextKeepsForeign(ForgetActive(ConsumeTombstone(popped, t), t), id, pick);
      }
    }
  }

  /** The one live task an active entry stands for. */
  ghost function TaskOf(s: State, read: Ptr): (t: Task)
    requires Inv(s) && read in s.active
    ensures t in Live(s) && t.read == read && t.id == s.active[read]
    ensures forall u <- Live(s) :: u.read == read ==> u == t
  {
    var t :| t in Pending(s) && t.read == read && t.id == s.active[read] && t.id !in s.cancelled; t
  }

  lemma CancelKeepsActive(s: State, read: Ptr)
    requires Inv(s) && read in s.active
    ensures ActiveMatches(Cancel(s, read), Pending(s))
  {
    var s' := Cancel(s, read);
    var t := TaskOf(s, read);
    forall r <- s'.active
      ensures exists u <- Pending(s) :: u.read == r && u.id == s'.active[r] && u.id !in s'.cancelled
    {
      var u := TaskOf(s, r);
      assert u in Pending(s);
    }
  }

  /** The new tombstone is the id of one pending task, and that task is the only live one of `read`. */
  lemma CancelTombstone(s: State, read: Ptr)
    requires Inv(s) && read in s.active && read != Null
    ensures var s' := Cancel(s, read);
      && Live(s') == (set t <- Live(s) | t.read != read)
      && s'.cancelled <= Ids(Pending(s'))
      && (Settled(s) && s.cur.read != read ==> Settled(s'))
  {
    var s' := Cancel(s, read);
    var t := TaskOf(s, read);
    assert s'.cancelled == s.cancelled + {t.id} && Pending(s') == Pending(s);
    assert EmptyTask(s.cur) || s.cur in Pending(s);
    forall u <- Pending(s) ensures u.id == t.id <==> u == t {
    }
  }

  lemma NullIsInactive(s: State)
    requires Inv(s)
    ensures Null !in s.active
  {
  }

  lemma CancelLemma(s: State, read: Ptr)
    requires Inv(s)
    ensures var s' := Cancel(s, read);
      && Inv(s')
      && Live(s') == (set t <- Live(s) | t.read != read)
      && s'.active == s.active - {read}
      && s'.cur == s.cur && s'.queue == s.queue && s'.nextId == s.nextId && s'.fd == s.fd
      && (Settled(s) && s.cur.read != read ==> Settled(s'))
  {
    NullIsInactive(s);
    if read in s.active {
      CancelKeepsActive(s, read);
      CancelTombstone(s, read);
    } else {
      assert forall t <- Live(s) :: t.read in s.active;
    }
  }

  /** set_timer adds one live timer with a new id, whatever else is pending. It keeps the queue good exactly if
      the operation had no timer yet. */
  lemma SetTimerLemma(s: State, read: Ptr, due: int, pick: Pick)
    requires PicksEarliest(pick) && Inv(s) && read != Null && due > 0
    ensures var s' := SetTimer(s, read, due, pick);
      && (Inv(s') <==> read !in s.active) && Settled(s')
      && Live(s') == Live(s) + {Task(read, due, s.nextId)}
      && s'.active == s.active[read := s.nextId] && s'.nextId == s.nextId + 1
      && s'.cancelled <= s.cancelled
  {
    hide Inv, Live, Settled, PicksEarliest;
    RefreshLemma(s, pick);
    var r := Refresh(s, pick);
    if read in s.active {
      var t := TaskOf(s, read);
      InsertSecond(r, read, due);
      FreshId(r);
      if Inv(Insert(r, read, due)) { InvMatches(Insert(r, read, due), t); }
    } else {
      InsertLemma(r, read, due);
    }
  }

  /** The same for an operation that has a timer already: the old one stays live as well. */
  lemma InsertSecond(r: State, read: Ptr, due: int)
    requires Inv(r) && Settled(r) && read != Null && due > 0
    ensures var s' := Insert(r, read, due);
      && Settled(s') && Live(s') == Live(r) + {Task(read, due, r.nextId)}
      && s'.active == r.active[read := r.nextId] && s'.nextId == r.nextId + 1 && s'.cancelled == r.cancelled
      && (forall t <- Live(r) :: t.id != r.nextId)
  {
    hide ActiveMatches, TasksOk, Ids, Untombstoned;
    var s' := Insert(r, read, due);
    InsertPending(r, read, due);
    FreshId(r);
    InsertTasks(r, Task(read, due, r.nextId));
    SameTombstones(s', r, Pending(s'));
    LiveIds(r);
  }

  lemma LiveIds(r: State)
    requires Inv(r)
    ensures forall t <- Live(r) :: t.id != r.nextId
  {
  }

  /** In a settled queue a new timer preempts `cur` exactly if it is strictly earlier, or there is none; otherwise
      it waits in the queue. Either way the timerfd is armed at the deadline of the new `cur`. */
  lemma PreemptsIfEarlier(s: State, read: Ptr, due: int, pick: Pick)
    requires PicksEarliest(pick) && Inv(s) && Settled(s) && read != Null && due > 0
    ensures var s' := SetTimer(s, read, due, pick);
      var t := Task(read, due, s.nextId);
      && (if s.cur.read == Null then s'.cur == t && s'.queue == s.queue
          else if due < s.cur.due then s'.cur == t && s'.queue == s.queue + {s.cur}
          else s'.cur == s.cur && s'.queue == s.queue + {t})
      && s'.fd == Timerfd(Some(s'.cur.due), false)
  {
    RefreshLemma(s, pick);
    CurIsEarliest(s);
  }

  lemma InvMatches(s: State, t: Task)
    requires Inv(s) && t in Live(s)
    ensures t.read in s.active && s.active[t.read] == t.id
  {
  }

  /** Two timers of one operation: cancel then takes the second back, and the first stays live beyond its reach. */
  lemma SecondTimerOrphansFirst(s: State, read: Ptr, due: int, pick: Pick)
    requires PicksEarliest(pick) && Inv(s) && read in s.active && due > 0
    ensures TaskOf(s, read) in Live(Cancel(SetTimer(s, read, due, pick), read))
    ensures read !in Cancel(SetTimer(s, read, due, pick), read).active
  {
    hide Inv, Settled, PicksEarliest, SetTimer;
    NullIsInactive(s);
    SetTimerLemma(s, read, due, pick);
    LiveIds(s);
    StaysLive(SetTimer(s, read, due, pick), read, TaskOf(s, read));
  }

  lemma StaysLive(s: State, read: Ptr, t: Task)
    requires t in Live(s) && read in s.active && s.active[read] != t.id && read != Null
    ensures t in Live(Cancel(s, read))
  {
  }

  /** Address reuse: cancelling a timer does not touch a later one set at the same address, and being
      `cur` by address is then being `cur` by id. */
  lemma AddressReuse(s: State, read: Ptr, due: int, pick: Pick)
    requires PicksEarliest(pick) && Inv(s) && read in s.active && due > 0
    ensures var s' := SetTimer(Cancel(s, read), read, due, pick);
      && Inv(s') && Settled(s')
      && Live(s') == (set t <- Live(s) | t.read != read) + {Task(read, due, s.nextId)}
      && read in s'.active && s'.active[read] == s.nextId
      && (IsCurrent(s', read) ==> s'.cur == Task(read, due, s.nextId))
  {
    NullIsInactive(s);
    CancelLemma(s, read);
    SetTimerLemma(Cancel(s, read), read, due, pick);
    CurIsEarliest(SetTimer(Cancel(s, read), read, due, pick));
  }

  lemma FreshId(r: State)
    requires Inv(r)
    ensures r.nextId !in Ids(Pending(r)) && r.nextId !in r.cancelled
  {
    assert forall t <- Pending(r) :: t.id != r.nextId;
  }

  lemma InsertKeepsActive(r: State, read: Ptr, due: int)
    requires Inv(r) && read != Null && read !in r.active
    ensures var s' := Insert(r, read, due);
      ActiveMatches(s', Pending(r) + {Task(read, due, r.nextId)})
  {
    var t := Task(read, due, r.nextId);
    var s' := Insert(r, read, due);
    FreshId(r);
    forall a <- s'.active
      ensures exists u <- Pending(r) + {t} :: u.read == a && u.id == s'.active[a] && u.id !in s'.cancelled
    {
      var u := if a == read then t else TaskOf(r, a);
      assert u in Pending(r) + {t};
    }
  }

  lemma InsertPending(r: State, read: Ptr, due: int)
    requires Inv(r) && read != Null && due > 0
    ensures var s' := Insert(r, read, due);
      var t := Task(read, due, r.nextId);
      && Pending(s') == Pending(r) + {t}
      && t !in Pending(r) && s'.cur !in s'.queue && !EmptyTask(s'.cur)
      && (forall u <- s'.queue :: s'.cur.due <= u.due)
  {
    FreshId(r);
    assert Task(read, due, r.nextId) !in Pending(r);
  }

  lemma InsertTasks(r: State, t: Task)
    requires Inv(r) && t.read != Null && t.due > 0 && t.id == r.nextId
    ensures TasksOk(Pending(r) + {t}, r.nextId + 1)
    ensures r.cancelled <= Ids(Pending(r) + {t})
    ensures Untombstoned(r, Pending(r) + {t}) == Live(r) + {t}
  {
    FreshId(r);
    assert Ids(Pending(r)) <= Ids(Pending(r) + {t});
    forall u <- Pending(r) + {t}, v <- Pending(r) + {t} | u.id == v.id ensures u == v {
      assert forall w <- Pending(r) :: w.id != t.id;
    }
  }

  lemma SameTombstones(a: State, b: State, q: set<Task>)
    requires a.cancelled == b.cancelled
    ensures Untombstoned(a, q) == Untombstoned(b, q)
  {
  }

  lemma InsertLemma(r: State, read: Ptr, due: int)
    requires Inv(r) && Settled(r) && read != Null && due > 0 && read !in r.active
    ensures var s' := Insert(r, read, due);
      && Inv(s') && Settled(s')
      && Live(s') == Live(r) + {Task(read, due, r.nextId)}
      && s'.active == r.active[read := r.nextId] && s'.nextId == r.nextId + 1
      && s'.cancelled == r.cancelled
  {
    hide ActiveMatches, TasksOk, Ids, Untombstoned;
    var t := Task(read, due, r.nextId);
    var s' := Insert(r, read, due);
    var q := Pending(r) + {t};
    assert ActiveMatches(s', q) by { InsertKeepsActive(r, read, due); }
    assert TasksOk(q, s'.nextId) && s'.cancelled <= Ids(q) && Untombstoned(s', q) == Live(r) + {t} by {
      InsertTasks(r, t);
      SameTombstones(s', r, q);
    }
    InsertPending(r, read, due);
    FreshId(r);
  }

  /** In a settled queue `cur` is an earliest live timer, and is empty only when there is none. */
  lemma CurIsEarliest(s: State)
    requires Inv(s) && Settled(s)
    ensures EmptyTask(s.cur) <==> Live(s) == {}
    ensures !EmptyTask(s.cur) ==> Earliest(s.cur, Live(s)) && s.fd == Timerfd(Some(s.cur.due), false)
    ensures s.cur.read != Null <==> !EmptyTask(s.cur)
  {
    if !EmptyTask(s.cur) {
      assert s.cur in Pending(s);
    }
  }

  /** Reading the expiration count before leaving `cur` changes nothing else: the kernel timer is set
      again, or disarmed, by the activation that follows. */
  lemma {:induction false} ActivateNextAfterConsume(s: State, pick: Pick)
    requires PicksEarliest(pick)
    ensures ActivateNext(Consume(s), pick) == ActivateNext(s, pick)
    decreases s.queue
  {
    if s.queue != {} {
      var t := pick(s.queue);
      var popped := s.(queue := s.queue - {t});
      assert Consume(s).(queue := s.queue - {t}) == Consume(popped);
      if IsTombstone(popped, t) {
        var next := ForgetActive(ConsumeTombstone(popped, t), t);
        assert ForgetActive(ConsumeTombstone(Consume(popped), t), t) == Consume(next);
        ActivateNextAfterConsume(next, pick);
      }
    }
  }

  lemma AdvanceAfterConsume(s: State, pick: Pick)
    requires PicksEarliest(pick)
    ensures Advance(Consume(s), pick) == Advance(s, pick)
  {
    ActivateNextAfterConsume(ForgetActive(s, s.cur), pick);
    assert ForgetActive(Consume(s), s.cur) == Consume(ForgetActive(s, s.cur));
  }

  /** The timed-out exit: consume, cancel the expired `cur`, refresh. */
  lemma RefreshAfterConsume(s: State, pick: Pick)
    requires PicksEarliest(pick) && Inv(s) && Settled(s) && !EmptyTask(s.cur)
    ensures Refresh(Cancel(Consume(s), s.cur.read), pick) == Refresh(Cancel(s, s.cur.read), pick)
  {
    assert s.cur in Pending(s);
    var c := Cancel(s, s.cur.read);
    assert Cancel(Consume(s), s.cur.read) == Consume(c);
    assert IsTombstone(c, s.cur);
    var next := ForgetActive(ConsumeTombstone(c, s.cur), s.cur);
    assert ForgetActive(ConsumeTombstone(Consume(c), s.cur), s.cur) == Consume(next);
    ActivateNextAfterConsume(next, pick);
  }
}
