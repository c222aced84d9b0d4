/**
 Whole runs of timer calls: the queue refines a plain set of live timers, every id has exactly
 one history, and the work of all activations together is bounded by the calls made.
 */
module TimerRuns {
  import opened Handles
  import opened Timers

  datatype Call =
    | Set(read: Ptr, due: int, pick: Pick)
    | Drop(read: Ptr)
    | Renew(pick: Pick)
    | Step(pick: Pick)

  /** A queue together with what its callers did to it so far. */
  datatype History = History(
    state: State,
    live: set<Task>,
    fired: set<nat>,
    dropped: set<nat>,
    sets: nat,
    drops: nat,
    pops: nat,
    skips: nat)

  const START: History := History(INITIAL, {}, {}, {}, 0, 0, 0, 0)

  /** Entries popped by activate_next_timer, and how many of them it skipped. */
  ghost function ActivationWork(s: State, pick: Pick): (w: (nat, nat))
    requires PicksEarliest(pick)
    decreases s.queue
  {
    if s.queue == {} then (0, 0)
    else
      var t := pick(s.queue);
      var popped := s.(queue := s.queue - {t});
      if IsTombstone(popped, t) then
        var w := ActivationWork(ForgetActive(ConsumeTombstone(popped, t), t), pick);
        (w.0 + 1, w.1 + 1)
      else (1, 0)
  }

  ghost function RefreshWork(s: State, pick: Pick): (nat, nat)
    requires PicksEarliest(pick)
  {
    if EmptyTask(s.cur) then ActivationWork(ForgetActive(s, s.cur), pick)
    else if IsTombstone(s, s.cur) then ActivationWork(ForgetActive(ConsumeTombstone(s, s.cur), s.cur), pick)
    else (0, 0)
  }

  /** What the callers of TimerEvent must respect: an operation has at most one live timer, deadlines
      are after the clock's origin, and operator++ only leaves a timer that was not cancelled. */
  ghost predicate Legal(h: History, c: Call) {
    match c
    case Set(read, due, pick) =>
      PicksEarliest(pick) && read != Null && due > 0 && forall t <- h.live :: t.read != read
    case Drop(_) => true
    case Renew(pick) => PicksEarliest(pick)
    case Step(pick) => PicksEarliest(pick) && Settled(h.state)
  }

  /** `live` is kept by the plain set operations alone: insert, remove by operation, remove the one fired. */
  ghost function Apply(h: History, c: Call): History
    requires Legal(h, c)
  {
    match c
    case Set(read, due, pick) =>
      var w := RefreshWork(h.state, pick);
      h.(state := SetTimer(h.state, read, due, pick),
         live := h.live + {Task(read, due, h.sets + 1)},
         sets := h.sets + 1, pops := h.pops + w.0, skips := h.skips + w.1)
    case Drop(read) =>
      h.(state := Cancel(h.state, read),
         live := (set t <- h.live | t.read != read),
         dropped := h.dropped + Ids(set t <- h.live | t.read == read),
         drops := h.drops + 1)
    case Renew(pick) =>
      var w := RefreshWork(h.state, pick);
      h.(state := Refresh(h.state, pick), pops := h.pops + w.0, skips := h.skips + w.1)
    case Step(pick) =>
      var w := ActivationWork(ForgetActive(h.state, h.state.cur), pick);
      h.(state := Advance(h.state, pick),
         live := h.live - {h.state.cur},
         fired := if EmptyTask(h.state.cur) then h.fired else h.fired + {h.state.cur.id},
         pops := h.pops + w.0, skips := h.skips + w.1)
  }

  ghost predicate LegalRun(calls: seq<Call>)
    decreases |calls|, 0
  {
    calls == [] || (LegalRun(calls[..|calls| - 1]) && Legal(Exec(calls[..|calls| - 1]), calls[|calls| - 1]))
  }

  ghost function Exec(calls: seq<Call>): History
    requires LegalRun(calls)
    decreases |calls|, 1
  {
    if calls == [] then START
    else Apply(Exec(calls[..|calls| - 1]), calls[|calls| - 1])
  }

  /** Every issued id is live, fired or dropped, and never two of these. */
  ghost predicate Partitioned(live: set<nat>, fired: set<nat>, dropped: set<nat>, nextId: nat) {
    && (forall i: nat :: 1 <= i < nextId <==> i in live + fired + dropped)
    && live !! fired && live !! dropped && fired !! dropped
  }

  /** The tombstones are exactly the dropped ids whose entry still waits to be popped. */
  ghost predicate Tombstones(s: State, dropped: set<nat>) {
    s.cancelled == dropped * Ids(Pending(s))
  }

  ghost predicate Bounded(h: History) {
    && h.pops + |h.state.queue| <= h.sets
    && h.skips + |h.state.cancelled| <= h.drops
  }

  ghost predicate RunInv(h: History) {
    && Inv(h.state) && h.state.nextId == h.sets + 1
    && Live(h.state) == h.live
    && Partitioned(Ids(h.live), h.fired, h.dropped, h.state.nextId)
    && Tombstones(h.state, h.dropped)
    && Bounded(h)
  }

  // ------------------------------------------------------------------ work

  lemma {:induction false} ActivationWorkLemma(s: State, pick: Pick)
    requires PicksEarliest(pick) && QueueInv(s)
    ensures var s' := ActivateNext(s, pick);
      && ActivationWork(s, pick).0 == |s.queue| - |s'.queue|
      && ActivationWork(s, pick).1 == |s.cancelled| - |s'.cancelled|
    decreases s.queue
  {
    if s.queue != {} {
      var t := pick(s.queue);
      if t.id in s.cancelled {
        DropTombstone(s, t);
        ActivationWorkLemma(ConsumeTombstone(s.(queue := s.queue - {t}), t), pick);
      }
    }
  }

  lemma RefreshWorkLemma(s: State, pick: Pick)
    requires PicksEarliest(pick) && Inv(s)
    ensures var s' := Refresh(s, pick);
      && RefreshWork(s, pick).0 == |s.queue| - |s'.queue|
      && RefreshWork(s, pick).1 == |s.cancelled| - (if s.cur.id in s.cancelled then 1 else 0) - |s'.cancelled|
  {
    if EmptyTask(s.cur) {
      ActivationWorkLemma(s, pick);
    } else if IsTombstone(s, s.cur) {
      var next := ConsumeTombstone(s, s.cur);
      assert ForgetActive(next, s.cur) == next;
      RemoveCurKeepsQueueInv(s, next);
      ActivationWorkLemma(next, pick);
    } else {
      assert s.cur in Pending(s);
    }
  }

  lemma AdvanceWorkLemma(s: State, pick: Pick)
    requires PicksEarliest(pick) && Inv(s) && Settled(s)
    ensures var s' := Advance(s, pick);
      var w := ActivationWork(ForgetActive(s, s.cur), pick);
      w.0 == |s.queue| - |s'.queue| && w.1 == |s.cancelled| - |s'.cancelled|
  {
    var next := ForgetActive(s, s.cur);
    if EmptyTask(s.cur) {
      NullIsInactive(s);
      assert next == s;
    } else {
      assert s.cur in Pending(s);
      RemoveCurKeepsQueueInv(s, next);
    }
    ActivationWorkLemma(next, pick);
  }

  // ------------------------------------------------------------------ one call

  lemma NotActive(s: State, read: Ptr)
    requires Inv(s) && forall t <- Live(s) :: t.read != read
    ensures read !in s.active
  {
  }

  lemma IdsPlus(q: set<Task>, t: Task)
    ensures Ids(q + {t}) == Ids(q) + {t.id}
  {
    forall i <- Ids(q) + {t.id} ensures i in Ids(q + {t}) {
      assert t in q + {t};
      if i != t.id {
        var u :| u in q && u.id == i;
        assert u in q + {t};
      }
    }
  }

  /** Popping entries without making a dropped timer live keeps the tombstones of the rest. */
  lemma PopsKeepTombstones(s: State, s': State, dropped: set<nat>)
    requires Inv(s) && Inv(s') && Tombstones(s, dropped)
    requires Live(s') <= Live(s) && Pending(s') <= Pending(s) && s'.cancelled <= s.cancelled
    ensures Tombstones(s', dropped)
  {
    forall i <- dropped * Ids(Pending(s')) ensures i in s'.cancelled {
      var t :| t in Pending(s') && t.id == i;
      assert i in Ids(Pending(s));
      assert t !in Live(s);
    }
  }

  lemma InsertKeepsTombstones(r: State, read: Ptr, due: int, dropped: set<nat>)
    requires Inv(r) && Tombstones(r, dropped) && read != Null && due > 0 && r.nextId !in dropped
    ensures Tombstones(Insert(r, read, due), dropped)
  {
    InsertPending(r, read, due);
    IdsPlus(Pending(r), Task(read, due, r.nextId));
  }

  lemma SetBounds(s: State, read: Ptr, due: int, pick: Pick)
    requires PicksEarliest(pick) && Inv(s) && read != Null && due > 0
    ensures var s' := SetTimer(s, read, due, pick);
      && RefreshWork(s, pick).0 + |s'.queue| <= |s.queue| + 1
      && RefreshWork(s, pick).1 + |s'.cancelled| <= |s.cancelled|
  {
    RefreshWorkLemma(s, pick);
  }

  lemma PartitionMoves(live: set<nat>, fired: set<nat>, dropped: set<nat>, n: nat)
    requires Partitioned(live, fired, dropped, n) && n >= 1
    ensures Partitioned(live + {n}, fired, dropped, n + 1)
    ensures forall i <- live :: Partitioned(live - {i}, fired + {i}, dropped, n)
    ensures forall i <- live :: Partitioned(live - {i}, fired, dropped + {i}, n)
    ensures n !in dropped
  {
    assert n !in live + fired + dropped;
  }

  lemma SetTombstones(h: History, c: Call)
    requires RunInv(h) && Legal(h, c) && c.Set?
    ensures Tombstones(SetTimer(h.state, c.read, c.due, c.pick), h.dropped)
  {
    var s := h.state;
    RefreshLemma(s, c.pick);
    PopsKeepTombstones(s, Refresh(s, c.pick), h.dropped);
    PartitionMoves(Ids(h.live), h.fired, h.dropped, s.nextId);
    InsertKeepsTombstones(Refresh(s, c.pick), c.read, c.due, h.dropped);
  }

  lemma SetCall(h: History, c: Call)
    requires RunInv(h) && Legal(h, c) && c.Set?
    ensures RunInv(Apply(h, c))
  {
    var s := h.state;
    var h' := Apply(h, c);
    assert Tombstones(h'.state, h'.dropped) by { SetTombstones(h, c); }
    assert Bounded(h') by { SetBounds(s, c.read, c.due, c.pick); }
    NotActive(s, c.read);
    SetTimerLemma(s, c.read, c.due, c.pick);
    assert Partitioned(Ids(h'.live), h'.fired, h'.dropped, s.nextId + 1) by {
      PartitionMoves(Ids(h.live), h.fired, h.dropped, s.nextId);
      IdsPlus(h.live, Task(c.read, c.due, s.nextId));
    }
  }

  lemma RenewCall(h: History, c: Call)
    requires RunInv(h) && Legal(h, c) && c.Renew?
    ensures RunInv(Apply(h, c))
  {
    RefreshLemma(h.state, c.pick);
    RefreshWorkLemma(h.state, c.pick);
    PopsKeepTombstones(h.state, Refresh(h.state, c.pick), h.dropped);
  }

  /** Taking one task out of a set of tasks with distinct ids takes its id out of the ids. */
  lemma IdsMinus(q: set<Task>, t: Task, nextId: nat)
    requires TasksOk(q, nextId) && t in q
    ensures Ids(q - {t}) == Ids(q) - {t.id}
  {
    IdsPlus(q - {t}, t);
    assert (q - {t}) + {t} == q;
    assert forall u <- q - {t} :: u.id != t.id;
  }

  lemma StepPartition(h: History, c: Call)
    requires RunInv(h) && Legal(h, c) && c.Step?
    ensures var h' := Apply(h, c);
      Partitioned(Ids(h'.live), h'.fired, h'.dropped, h.state.nextId)
  {
    var s := h.state;
    if EmptyTask(s.cur) {
      assert h.live - {s.cur} == h.live;
    } else {
      assert s.cur in Pending(s);
      assert s.cur.id in Ids(h.live);
      IdsMinus(h.live, s.cur, s.nextId);
      PartitionMoves(Ids(h.live), h.fired, h.dropped, s.nextId);
    }
  }

  lemma StepCall(h: History, c: Call)
    requires RunInv(h) && Legal(h, c) && c.Step?
    ensures RunInv(Apply(h, c))
  {
    StepPartition(h, c);
    AdvanceLemma(h.state, c.pick);
    AdvanceWorkLemma(h.state, c.pick);
    PopsKeepTombstones(h.state, Advance(h.state, c.pick), h.dropped);
  }

  ghost predicate OnePerRead(live: set<Task>) {
    forall t <- live, u <- live :: t.read == u.read ==> t == u
  }

  lemma LiveIsPlainSet(s: State)
    requires Inv(s)
    ensures TasksOk(Live(s), s.nextId) && OnePerRead(Live(s))
    ensures Ids(Live(s)) <= Ids(Pending(s))
  {
  }

  /** Dropping the timer of one operation, if it has one, moves one id at most. */
  lemma DropFromPlainSet(live: set<Task>, read: Ptr, fired: set<nat>, dropped: set<nat>, n: nat)
    requires TasksOk(live, n) && OnePerRead(live) && n >= 1
    requires Partitioned(Ids(live), fired, dropped, n)
    ensures Partitioned(Ids(set t <- live | t.read != read), fired, dropped + Ids(set t <- live | t.read == read), n)
  {
    var kept, gone := (set t <- live | t.read != read), (set t <- live | t.read == read);
    if t :| t in live && t.read == read {
      assert gone == {t} && kept == live - {t};
      assert t.id in Ids(live) && Ids(gone) == {t.id};
      IdsMinus(live, t, n);
      PartitionMoves(Ids(live), fired, dropped, n);
    } else {
      assert gone == {} && kept == live;
      assert dropped + Ids(gone) == dropped;
    }
  }

  lemma DropTombstones(s: State, read: Ptr, dropped: set<nat>)
    requires Inv(s) && Tombstones(s, dropped)
    ensures Tombstones(Cancel(s, read), dropped + Ids(set t <- Live(s) | t.read == read))
  {
    NullIsInactive(s);
    var ids := Ids(set t <- Live(s) | t.read == read);
    if read in s.active {
      var t := TaskOf(s, read);
      assert (set u <- Live(s) | u.read == read) == {t};
      assert ids == {t.id} && t.id in Ids(Pending(s));
    } else {
      NoTimerOf(s, read);
      assert ids == {};
    }
  }

  lemma NoTimerOf(s: State, read: Ptr)
    requires Inv(s) && read !in s.active
    ensures (set t <- Live(s) | t.read == read) == {}
  {
  }

  lemma DropCall(h: History, c: Call)
    requires RunInv(h) && Legal(h, c) && c.Drop?
    ensures RunInv(Apply(h, c))
  {
    hide Inv, Live, Tombstones, Partitioned, TasksOk, OnePerRead;
    LiveIsPlainSet(h.state);
    DropFromPlainSet(h.live, c.read, h.fired, h.dropped, h.state.nextId);
    DropTombstones(h.state, c.read, h.dropped);
    CancelLemma(h.state, c.read);
  }

  // ------------------------------------------------------------------ whole runs

  /** After any legal calls the queue holds exactly the plain set of live timers, with every id accounted for. */
  lemma {:induction false} QueueRefinesPlainSet(calls: seq<Call>)
    requires LegalRun(calls)
    ensures RunInv(Exec(calls))
  {
    if calls != [] {
      var before := Exec(calls[..|calls| - 1]);
      var c := calls[|calls| - 1];
      QueueRefinesPlainSet(calls[..|calls| - 1]);
      match c
      case Set(_, _, _) => SetCall(before, c);
      case Drop(_) => DropCall(before, c);
      case Renew(_) => RenewCall(before, c);
      case Step(_) => StepCall(before, c);
    }
  }

  /** All activations of a run together pop at most one entry per timer set and skip at most one per
      timer cancelled. */
  lemma TotalWork(calls: seq<Call>)
    requires LegalRun(calls)
    ensures Exec(calls).pops <= Exec(calls).sets && Exec(calls).skips <= Exec(calls).drops
  {
    QueueRefinesPlainSet(calls);
  }

  /** What the counters of a run count: the calls made, and of the entries popped each one that left the queue,
      of the skips each tombstone consumed, but for that of `cur`, which is in no queue. */
  lemma WorkIsCounted(h: History, c: Call)
    requires RunInv(h) && Legal(h, c)
    ensures var h' := Apply(h, c);
      var skipped := |h.state.cancelled| - (if h.state.cur.id in h.state.cancelled then 1 else 0);
      && h'.sets == h.sets + (if c.Set? then 1 else 0)
      && h'.drops == h.drops + (if c.Drop? then 1 else 0)
      && match c {
           case Drop(_) => h'.pops == h.pops && h'.skips == h.skips
           case Step(_) =>
             && h'.pops == h.pops + |h.state.queue| - |h'.state.queue|
             && h'.skips == h.skips + |h.state.cancelled| - |h'.state.cancelled|
           case Renew(_) =>
             && h'.pops == h.pops + |h.state.queue| - |h'.state.queue|
             && h'.skips == h.skips + skipped - |h'.state.cancelled|
           case Set(_, _, pick) =>
             && h'.pops == h.pops + |h.state.queue| - |Refresh(h.state, pick).queue|
             && h'.skips == h.skips + skipped - |h'.state.cancelled|
         }
  {
    match c
    case Drop(_) =>
    case Step(pick) => AdvanceWorkLemma(h.state, pick);
    case Renew(pick) => RefreshWorkLemma(h.state, pick);
    case Set(_, _, pick) => RefreshWorkLemma(h.state, pick);
  }

  /** operator++ fires an earliest timer of the plain set, and fires nothing only if the set is empty. */
  lemma StepFiresEarliest(calls: seq<Call>, pick: Pick)
    requires LegalRun(calls) && Legal(Exec(calls), Step(pick))
    ensures var h := Exec(calls);
      var h' := Apply(h, Step(pick));
      if h.live == {} then h'.live == {} && h'.fired == h.fired
      else exists t :: Earliest(t, h.live) && h'.live == h.live - {t} && h'.fired == h.fired + {t.id}
  {
    QueueRefinesPlainSet(calls);
    CurIsEarliest(Exec(calls).state);
  }

  lemma {:induction false} IdsCount(q: set<Task>, nextId: nat)
    requires TasksOk(q, nextId)
    ensures |Ids(q)| == |q|
  {
    if q != {} {
      var t :| t in q;
      IdsMinus(q, t, nextId);
      assert t.id in Ids(q);
      IdsCount(q - {t}, nextId);
    } else {
      assert Ids(q) == {};
    }
  }

  lemma {:induction false} InjectiveCount(m: map<Ptr, nat>)
    requires forall p <- m, q <- m :: m[p] == m[q] ==> p == q
    ensures |m.Values| == |m|
  {
    if m != map[] {
      var p :| p in m;
      var rest := m - {p};
      InjectiveCount(rest);
      forall i <- m.Values ensures i in rest.Values + {m[p]} {
        var q :| q in m && m[q] == i;
        assert q == p || (q in rest && rest[q] == i);
      }
      assert m.Values == rest.Values + {m[p]};
      assert m.Keys == rest.Keys + {p};
    } else {
      assert m.Values == {};
    }
  }

  lemma ActiveIds(s: State)
    requires Inv(s)
    ensures s.active.Values == Ids(Live(s))
    ensures forall p <- s.active, q <- s.active :: s.active[p] == s.active[q] ==> p == q
  {
    forall i <- s.active.Values ensures i in Ids(Live(s)) {
      var p :| p in s.active && s.active[p] == i;
      var t := TaskOf(s, p);
    }
    forall i <- Ids(Live(s)) ensures i in s.active.Values {
      var t :| t in Live(s) && t.id == i;
      assert t.read in s.active;
    }
    forall p <- s.active, q <- s.active | s.active[p] == s.active[q] ensures p == q {
      var t, u := TaskOf(s, p), TaskOf(s, q);
      assert t in Pending(s) && u in Pending(s);
    }
  }

  /** Every pending id is live or a tombstone, not both. */
  lemma PendingIds(s: State)
    requires Inv(s)
    ensures Ids(Live(s)) !! s.cancelled && Ids(Live(s)) + s.cancelled == Ids(Pending(s))
    ensures TasksOk(Pending(s), s.nextId)
    ensures |Pending(s)| == (if EmptyTask(s.cur) then 0 else 1) + |s.queue|
  {
    forall i <- Ids(Pending(s)) ensures i in Ids(Live(s)) + s.cancelled {
      var t :| t in Pending(s) && t.id == i;
      assert t in Live(s) || i in s.cancelled;
    }
  }

  /** No tombstone leaks: active entries and tombstones together are, one for one, the entries
      still held in `cur` and the queue. */
  lemma Conservation(s: State)
    requires Inv(s)
    ensures s.active.Values !! s.cancelled && s.active.Values + s.cancelled == Ids(Pending(s))
    ensures |s.active| + |s.cancelled| == (if EmptyTask(s.cur) then 0 else 1) + |s.queue|
  {
    hide Inv, Live, Pending, Ids, TasksOk;
    ActiveIds(s);
    PendingIds(s);
    InjectiveCount(s.active);
    IdsCount(Pending(s), s.nextId);
    assert |s.active.Values + s.cancelled| == |s.active.Values| + |s.cancelled|;
  }
}
