/**
 A run in which one batch of ready events ends a timed read early: the timeout of one operation
 moves the shared timerfd on, and the timer event still left in the batch is then applied to
 the next timer's operation, whose deadline is still ahead.
 */
module BatchedTimer {
  import opened Handles
  import T = Timers
  import I = Interest
  import opened Awaiters
  import opened Transfer
  import opened L = Loop

  const FIRST: Job := Io(Inbound, 1, Some(9), None)
  const SECOND: Job := Io(Inbound, 2, Some(19), None)
  const SOCKET_1: Fd := SocketFd(1)
  const ROOM: Buffer := Buffer([0], 0)

  lemma OneMore(init: L.State, run: seq<Action>, a: Action)
    requires LegalRun(init, run) && Legal(Exec(init, run), a)
    ensures LegalRun(init, run + [a]) && Exec(init, run + [a]) == Step(Exec(init, run), a)
  {
    hide Legal, Step;
    assert (run + [a])[..|run|] == run;
  }

  lemma CoreInv(s: L.State)
    requires L.Inv(s)
    ensures Awaiters.Inv(s.core)
  {
    hide Awaiters.Inv, Linked, OpsOk, NetOk, LatchedOk, FiredOk, ResumedOk, OnRecord;
  }

  /** Two timed reads on different sockets suspended, at clock n. */
  ghost predicate TwoReads(s: L.State, n: int) {
    && L.Inv(s) && s.latched == Null && s.core.tokens == map[] && s.core.now >= n
    && s.core.suspended.Keys == {0, 1}
    && s.core.suspended[0] == Suspension(0, FIRST, Some(n + 9))
    && s.core.suspended[1] == Suspension(1, SECOND, Some(n + 19))
    && s.ops.Keys == {0, 1}
    && s.ops[0].buf == ROOM && s.ops[1].buf == ROOM
  }

  lemma StartOne(s: L.State, o: nat, job: Job, pick: T.Pick)
    requires L.Inv(s) && s.core.tokens == map[] && o !in s.ops && o !in s.core.suspended
    requires T.PicksEarliest(pick) && SlotsFree(s.core, job) && job.Io? && job.token.None?
    ensures var a := Start(o, o, job, ROOM, pick);
      && Legal(s, a)
      && var s' := Step(s, a);
         && L.Inv(s') && s'.core.tokens == map[] && s'.core.now == s.core.now && s'.net == s.net
         && s'.core.suspended == s.core.suspended[o := Suspension(o, job, DueOf(job, s.core.now))]
         && s'.ops.Keys == s.ops.Keys + {o} && s'.ops[o].buf == ROOM
         && (forall x <- s.ops :: s'.ops[x] == s.ops[x])
         && s'.latched == s.latched
  {
    hide Awaiters.Inv, Linked, OpsOk, NetOk, LatchedOk, FiredOk, ResumedOk, OnRecord, Suspend, Release,
      T.PicksEarliest, SlotsFree;
    StepKeepsInv(s, Start(o, o, job, ROOM, pick));
    SuspendKeepsInv(s.core, o, o, job, pick);
  }

  lemma EmptyRun(init: L.State)
    ensures LegalRun(init, []) && Exec(init, []) == init
  {
  }

  lemma NoOther(c: Awaiters.State)
    ensures c.suspended == map[] ==> SlotsFree(c, FIRST)
    ensures c.suspended.Keys == {0} && c.suspended[0].job == FIRST ==> SlotsFree(c, SECOND)
  {
  }

  lemma StartBoth(init: L.State, pick: T.Pick) returns (run: seq<Action>)
    requires Initial(init) && T.PicksEarliest(pick)
    ensures LegalRun(init, run) && TwoReads(Exec(init, run), init.core.now)
    ensures Exec(init, run).core.now == init.core.now
    ensures Exec(init, run).net == init.net
  {
    hide L.Inv, Step, Legal, T.PicksEarliest, SlotsFree, Exec, LegalRun;
    InitialInv(init);
    EmptyRun(init);
    var a0, a1 := Start(0, 0, FIRST, ROOM, pick), Start(1, 1, SECOND, ROOM, pick);
    NoOther(init.core);
    StartOne(init, 0, FIRST, pick);
    OneMore(init, [], a0);
    assert [] + [a0] == [a0];
    var s1 := Exec(init, [a0]);
    NoOther(s1.core);
    StartOne(s1, 1, SECOND, pick);
    OneMore(init, [a0], a1);
    run := [a0] + [a1];
  }

  /** Among these two the earlier deadline is `cur`. */
  lemma FirstIsCurrent(s: L.State, n: int)
    requires TwoReads(s, n)
    ensures s.core.timers.cur.read == Field(0, OnTimer) && s.core.timers.cur.due == n + 9
    ensures I.ReadSlot(s.core.sched, SocketFd(1)) == Field(0, OnSocket)
  {
    hide L.Inv, Awaiters.Inv, I.Inv, I.Readers, I.Writers;
    CoreInv(s);
    OwnsCurrent(s.core, 0);
    SlotOf(s.core, 0);
  }

  /** A suspended read is in its socket's read slot. */
  lemma SlotOf(c: Awaiters.State, f: nat)
    requires Awaiters.Inv(c) && f in c.suspended
    requires c.suspended[f].job.Io? && c.suspended[f].job.dir == Inbound
    ensures I.ReadSlot(c.sched, SocketFd(c.suspended[f].job.socket)) == Field(f, OnSocket)
  {
    var fd := SocketFd(c.suspended[f].job.socket);
    I.Slots(c.sched, fd);
    hide I.Inv, T.Inv, T.Live, T.Settled, I.Readers, I.Writers, Backed, TimerSlot, Timed, JobsOk;
    assert Contains(I.Readers(c.sched), ReadClaims(f, c.suspended[f].job));
    assert fd in ReadClaims(f, c.suspended[f].job);
  }

  /** An awaiter none of whose fellows has as early a deadline owns `cur`. */
  lemma OwnsCurrent(c: Awaiters.State, f: nat)
    requires Awaiters.Inv(c) && f in c.suspended && c.suspended[f].due.Some?
    requires forall g <- c.suspended :: g != f && c.suspended[g].due.Some? ==>
      c.suspended[f].due.value < c.suspended[g].due.value
    ensures c.timers.cur.read == Field(f, OnTimer) && Some(c.timers.cur.due) == c.suspended[f].due
  {
    hide I.Inv, T.Inv, T.Live, T.Settled, I.Readers, I.Writers, Registered, Backed, TimerSlot, T.TaskOf;
    var t := T.TaskOf(c.timers, Field(f, OnTimer));
    assert t in T.Live(c.timers);
    T.CurIsEarliest(c.timers);
    CurrentOwner(c);
  }

  /** The first event of the batch is the first socket's: by now its read has timed out. */
  lemma FirstTimesOut(s: L.State, n: int, ch: Choice)
    requires TwoReads(s, n) && s.core.now == n + 9 && T.PicksEarliest(ch.pick)
    requires ch.result == WouldBlock && ch.next == 0
    ensures var a := EventRead(SOCKET_1, true, false, ch);
      && Legal(s, a)
      && var s' := Step(s, a);
         && SecondAlone(s', n)
         && s'.ops[0].status == Done(TimedOutCode, 0)
         && s'.net == s.net
  {
    hide L.Inv, Awaiters.Inv, Step, Legal, Release, T.PicksEarliest, ResumeInner, HasExpired, VerdictOf, SlotsFree,
      Dispatchable;
    CoreInv(s);
    FirstIsCurrent(s, n);
    FirstOp(s, n);
    TimedOutIff(s.core, 0);
    assert VerdictOf(s.core, 0, FIRST) == TimedOut;
    EventResumesOwner(s, SOCKET_1, ch);
    EndedShape(s, 0, ch);
    ResumeKeepsInv(s, 0, ch);
    FirstReleased(s, n, ch);
  }

  lemma FirstOp(s: L.State, n: int)
    requires TwoReads(s, n)
    ensures s.ops[0].job == FIRST && s.ops[1].job == SECOND && s.ops[1].status.Waiting?
  {
    hide L.Inv, OpOk;
    Own(s, 0);
    Own(s, 1);
    CountsOf(s, 0);
  }

  /** A read whose buffer is as it began has moved nothing. */
  lemma CountsOf(s: L.State, o: nat)
    requires L.Inv(s) && o in s.ops
    ensures CountsOk(s.ops[o])
  {
    hide Awaiters.Inv, Linked, NetOk, LatchedOk, FiredOk, ResumedOk, OnRecord, PlaceOk, CountsOk;
    assert OpOk(s.ops[o], s.net);
  }

  lemma FirstReleased(s: L.State, n: int, ch: Choice)
    requires TwoReads(s, n) && T.PicksEarliest(ch.pick) && VerdictOf(s.core, 0, FIRST) == TimedOut
    ensures var c' := Release(s.core, 0, FIRST, ch.pick);
      && c'.suspended.Keys == {1} && c'.suspended[1] == s.core.suspended[1]
      && c'.now == s.core.now && c'.tokens == s.core.tokens
  {
    hide L.Inv, Awaiters.Inv, Release, T.PicksEarliest, VerdictOf;
    CoreInv(s);
    ReleaseKeepsInv(s.core, 0, ch.pick);
  }

  /** Only the second read is left, ten ticks before its deadline. */
  ghost predicate SecondAlone(s: L.State, n: int) {
    && L.Inv(s) && s.latched == Null && s.core.tokens == map[] && s.core.now == n + 9
    && s.core.suspended.Keys == {1}
    && s.core.suspended[1] == Suspension(1, SECOND, Some(n + 19))
    && s.ops.Keys == {0, 1} && s.ops[1].buf == ROOM
  }

  lemma SecondIsCurrent(s: L.State, n: int)
    requires SecondAlone(s, n)
    ensures Awaiters.Inv(s.core)
    ensures s.core.timers.cur.read == Field(1, OnTimer) && s.core.timers.cur.due == n + 19
    ensures I.ReadSlot(s.core.sched, TimerFd) == Field(1, OnTimer)
    ensures s.ops[1].job == SECOND && s.ops[1].status.Waiting?
    ensures VerdictOf(s.core, 1, SECOND) == Ready
  {
    hide L.Inv, Awaiters.Inv, OpOk, HasExpired;
    CoreInv(s);
    OwnsCurrent(s.core, 1);
    TimerSlotOf(s.core);
    Own(s, 1);
    TimedOutIff(s.core, 1);
  }

  lemma TimerSlotOf(c: Awaiters.State)
    requires Awaiters.Inv(c) && c.timers.cur.read != Null
    ensures I.ReadSlot(c.sched, TimerFd) == c.timers.cur.read && TimerFd in c.sched.table
  {
    hide Registered, Backed, Timed, JobsOk, T.Inv, T.Live, T.Settled, I.Inv, I.Readers, I.Writers;
    T.CurIsEarliest(c.timers);
    I.Slots(c.sched, TimerFd);
  }

  /** The second is the timerfd's, now armed for the other read. */
  lemma SecondReadsEarly(s: L.State, n: int, ch: Choice)
    requires SecondAlone(s, n)
    requires T.PicksEarliest(ch.pick) && ch.result == WouldBlock && ch.next == 1
    ensures var a := EventRead(TimerFd, true, false, ch);
      && Legal(s, a)
      && var s' := Step(s, a);
         s'.ops.Keys == {0, 1} && s'.ops[1].status == Done(Ok, 0) && s'.ops[1].last == Some(WouldBlock)
         && s'.core.now == n + 9 && s'.ops[0] == s.ops[0] && s'.net.into == s.net.into
  {
    hide L.Inv, Awaiters.Inv, Step, Legal, Release, T.PicksEarliest, ResumeInner, HasExpired, VerdictOf, SlotsFree,
      Dispatchable;
    SecondIsCurrent(s, n);
    EventResumesOwner(s, TimerFd, ch);
    IoShape(s, 1, ch);
    ReleaseKeepsInv(s.core, 1, ch.pick);
  }

  /** A byte arrives for the first read just as its deadline passes. */
  lemma BothReady(init: L.State, started: seq<Action>) returns (before: seq<Action>)
    requires Initial(init) && 1 !in init.net.peer.Values
    requires LegalRun(init, started) && TwoReads(Exec(init, started), init.core.now)
    requires Exec(init, started).core.now == init.core.now && Exec(init, started).net == init.net
    ensures LegalRun(init, before) && TwoReads(Exec(init, before), init.core.now)
    ensures Exec(init, before).core.now == init.core.now + 9
    ensures At(Exec(init, before).net.wire, 1) != [] && At(Exec(init, before).net.into, 2) == []
  {
    hide L.Inv, Step, Legal, Initial, Exec, LegalRun, Deliver;
    var s := Exec(init, started);
    var n := init.core.now;
    var arrive, tick := Arrive(1, [7]), Tick(9);
    ArriveAndTick(s, n);
    ByteDelivered(s.net);
    EnvironmentSteps(s);
    EnvironmentSteps(Step(s, arrive));
    OneMore(init, started, arrive);
    OneMore(init, started + [arrive], tick);
    before := started + [arrive] + [tick];
    NothingArrived(init);
  }

  lemma NothingArrived(init: L.State)
    requires Initial(init)
    ensures init.net.into == map[]
  {
  }

  function AfterBoth(s: L.State): L.State {
    s.(net := Deliver(s.net, 1, [7]), core := s.core.(now := s.core.now + 9))
  }

  lemma ArriveAndTick(s: L.State, n: int)
    requires TwoReads(s, n) && s.core.now == n && 1 !in s.net.peer.Values
    ensures TwoReads(AfterBoth(s), n)
  {
    hide L.Inv, Legal, Step, Deliver;
    EnvironmentSteps(s);
    var s1 := Step(s, Arrive(1, [7]));
    EnvironmentSteps(s1);
    StepKeepsInv(s, Arrive(1, [7]));
    StepKeepsInv(s1, Tick(9));
  }

  lemma ByteDelivered(net: Net)
    ensures At(Deliver(net, 1, [7]).wire, 1) != [] && At(Deliver(net, 1, [7]).into, 2) == At(net.into, 2)
  {
  }

  lemma EnvironmentSteps(s: L.State)
    ensures 1 !in s.net.peer.Values ==>
      Legal(s, Arrive(1, [7])) && Step(s, Arrive(1, [7])) == s.(net := Deliver(s.net, 1, [7]))
    ensures Legal(s, Tick(9)) && Step(s, Tick(9)) == s.(core := s.core.(now := s.core.now + 9))
  {
  }

  lemma BothAreWatched(s: L.State, n: int)
    requires TwoReads(s, n) && s.core.now == n + 9
    ensures T.Readable(s.core.timers, s.core.now) && TimerFd in s.core.sched.table && SOCKET_1 in s.core.sched.table
  {
    hide L.Inv, Awaiters.Inv;
    CoreInv(s);
    FirstIsCurrent(s, n);
    OwnerOfCurrent(s.core);
    TimerSlotOf(s.core);
  }

  /** That a timer event leads to no recv or send before the deadline fails under batching: in this legal run
      both events are ready when the batch is taken, and the timer event makes the second read attempt its
      recv and end, with success and no bytes, ten ticks before its deadline. A fresh timer event never does so:
      the exact condition is Theorems.TimerEventOutcome. */
  lemma StaleTimerEventEndsReadEarly(init: L.State, pick: T.Pick) returns (before: seq<Action>, batch: seq<Action>)
    requires Initial(init) && 1 !in init.net.peer.Values && T.PicksEarliest(pick)
    ensures LegalRun(init, before) && LegalRun(init, before + batch)
    ensures var s := Exec(init, before);
      && T.Readable(s.core.timers, s.core.now) && TimerFd in s.core.sched.table
      && SOCKET_1 in s.core.sched.table && At(s.net.wire, 1) != []
    ensures batch == [EventRead(SOCKET_1, true, false, Choice(pick, WouldBlock, 0)),
                      EventRead(TimerFd, true, false, Choice(pick, WouldBlock, 1))]
    ensures var s' := Exec(init, before + batch);
      && 1 in s'.ops && s'.ops[1].status == Done(Ok, 0) && s'.ops[1].last == Some(WouldBlock)
      && 0 in s'.ops && s'.ops[0].status == Done(TimedOutCode, 0)
      && s'.core.now == init.core.now + 9 < init.core.now + 19
      && At(s'.net.into, 2) == []
  {
    hide L.Inv, Step, Legal, Initial, Exec, LegalRun, T.PicksEarliest;
    var n := init.core.now;
    var started := StartBoth(init, pick);
    before := BothReady(init, started);
    var s := Exec(init, before);
    FirstIsCurrent(s, n);
    BothAreWatched(s, n);
    var c1, c2 := Choice(pick, WouldBlock, 0), Choice(pick, WouldBlock, 1);
    var e1, e2 := EventRead(SOCKET_1, true, false, c1), EventRead(TimerFd, true, false, c2);
    batch := [e1, e2];
    FirstTimesOut(s, n, c1);
    OneMore(init, before, e1);
    var s' := Step(s, e1);
    SecondReadsEarly(s', n, c2);
    OneMore(init, before + [e1], e2);
    assert before + [e1] + [e2] == before + batch;
  }
}
