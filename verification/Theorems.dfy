/**
 What holds in every run of the event loop: any interleaving of new operations, dispatched
 events, fresh or stale, cancellations, clock steps and arriving bytes.
 */
module Theorems {
  import opened Handles
  import T = Timers
  import TR = TimerRuns
  import I = Interest
  import opened Awaiters
  import opened Transfer
  import L = Loop
  import B = ByteLoops

  ghost predicate Reachable(s: L.State) {
    exists init: L.State, run: seq<L.Action> ::
      L.Initial(init) && L.LegalRun(init, run) && s == L.Exec(init, run)
  }

  lemma ReachableInv(s: L.State)
    requires Reachable(s)
    ensures L.Inv(s)
  {
    hide L.Inv, L.Initial;
    var init: L.State, run: seq<L.Action> :|
      L.Initial(init) && L.LegalRun(init, run) && s == L.Exec(init, run);
    L.Safety(init, run);
  }

  // ------------------------------------------------------------------ timers

  /** The timerfd is registered exactly while some timer is live; its read slot is `cur`'s operation, and
      `cur` is an untombstoned earliest timer at whose deadline the kernel is armed. */
  lemma TimerfdFollowsEarliestTimer(s: L.State)
    requires Reachable(s)
    ensures var timers := s.core.timers;
      var live := T.Live(timers);
      && (TimerFd in s.core.sched.table <==> live != {})
      && timers.cur.id !in timers.cancelled
      && (live == {} ==> timers.fd.armed == None)
      && (live != {} ==>
            && I.ReadSlot(s.core.sched, TimerFd) == timers.cur.read
            && T.Earliest(timers.cur, live)
            && timers.fd == T.Timerfd(Some(timers.cur.due), false))
  {
    ReachableInv(s);
    var sched, timers := s.core.sched, s.core.timers;
    T.CurIsEarliest(timers);
    I.Slots(sched, TimerFd);
    hide T.Live, T.Earliest, I.Readers, I.Writers, I.Inv, Registered, Timed, JobsOk, L.Linked, L.OpsOk, L.NetOk,
      L.LatchedOk, L.FiredOk, L.ResumedOk, L.OnRecord;
    NoTimerfdWriter(s.core);
    if TimerFd in sched.table {
      assert I.EntryOk(TimerFd, sched.table[TimerFd]);
    }
  }

  lemma NoTimerfdWriter(c: State)
    requires Awaiters.Inv(c)
    ensures TimerFd !in I.Writers(c.sched)
  {
    hide I.Inv, T.Inv, T.Live, T.Settled, I.Readers, I.Writers, Registered, TimerSlot, Timed, JobsOk;
  }

  /** The timerfd is readable exactly when some live timer is due, `cur` or not: no expired timer waits unnoticed. */
  lemma ReadableIffSomeTimerDue(s: L.State)
    requires Reachable(s)
    ensures T.Readable(s.core.timers, s.core.now) <==> exists t <- T.Live(s.core.timers) :: t.due <= s.core.now
  {
    hide Reachable, T.Live;
    TimerfdFollowsEarliestTimer(s);
  }

  /** The live timers are one for one those of the suspended awaiters with a deadline, and no tombstone leaks. */
  lemma TimersAreThoseOfTheSuspended(s: L.State)
    requires Reachable(s)
    ensures forall f <- s.core.suspended :: s.core.suspended[f].due.Some? ==>
      exists t <- T.Live(s.core.timers) :: t.read == Field(f, OnTimer) && t.due == s.core.suspended[f].due.value
    ensures forall t <- T.Live(s.core.timers) ::
      && t.read.Field? && t.read.part == OnTimer && t.read.frame in s.core.suspended
      && s.core.suspended[t.read.frame].due == Some(t.due)
    ensures var timers := s.core.timers;
      |timers.active| + |timers.cancelled| == (if T.EmptyTask(timers.cur) then 0 else 1) + |timers.queue|
  {
    ReachableInv(s);
    var timers := s.core.timers;
    TR.Conservation(timers);
    LiveIsActive(timers);
    hide T.Live, T.Inv, I.Inv, I.Readers, I.Writers, Registered, Backed, JobsOk, TimerSlot, L.Linked, L.OpsOk,
      L.NetOk, L.LatchedOk, L.FiredOk, L.ResumedOk, L.OnRecord, T.TaskOf;
    forall f <- s.core.suspended | s.core.suspended[f].due.Some?
      ensures exists t <- T.Live(timers) :: t.read == Field(f, OnTimer) && t.due == s.core.suspended[f].due.value
    {
      var t := T.TaskOf(timers, Field(f, OnTimer));
      assert t in T.Live(timers);
    }
  }

  // ------------------------------------------------------------------ the table

  /** The kernel watches exactly the table's descriptors with the table's bits, which say which slots are
      taken; no epoll_ctl call was ever refused. */
  lemma TableAgreesWithKernel(s: L.State)
    requires Reachable(s)
    ensures var sched := s.core.sched;
      && !sched.refused && sched.interest.Keys == sched.table.Keys
      && forall fd <- sched.table ::
           var e := sched.table[fd];
           && sched.interest[fd] == e.events && e.events != I.NONE
           && (e.events.readable <==> e.read != Null)
           && (e.events.writable <==> e.write != Null)
           && (e.events.edge <==> fd == TimerFd && e.read != Null)
  {
    ReachableInv(s);
    var sched := s.core.sched;
    forall fd <- sched.table ensures I.EntryOk(fd, sched.table[fd]) && sched.interest[fd] == sched.table[fd].events {
    }
  }

  /** No pointer is stale: every slot of the table, and the pointer kept over an event's first half, is the one
      that a suspended awaiter, of an operation still waiting, registered at that very descriptor; the
      timerfd's is that of the owner of `cur`. Nothing was ever completed otherwise. */
  lemma NoStalePointer(s: L.State)
    requires Reachable(s)
    ensures !s.broken
    ensures forall fd <- s.core.sched.table :: I.ReadSlot(s.core.sched, fd) != Null ==>
      L.Dispatchable(s, I.ReadSlot(s.core.sched, fd)) && ReadsAt(s.core, fd, I.ReadSlot(s.core.sched, fd))
    ensures forall fd <- s.core.sched.table :: I.WriteSlot(s.core.sched, fd) != Null ==>
      L.Dispatchable(s, I.WriteSlot(s.core.sched, fd)) && WritesAt(s.core, fd, I.WriteSlot(s.core.sched, fd))
    ensures s.latched != Null ==>
      && L.Dispatchable(s, s.latched)
      && exists n: nat ::
           I.WriteSlot(s.core.sched, SocketFd(n)) == s.latched && WritesAt(s.core, SocketFd(n), s.latched)
  {
    ReachableInv(s);
    hide L.Dispatchable, Awaiters.Inv, L.Linked, L.OpsOk, L.NetOk, L.FiredOk, L.ResumedOk, L.OnRecord, ReadsAt,
      WritesAt;
    forall fd <- s.core.sched.table | I.ReadSlot(s.core.sched, fd) != Null
      ensures L.Dispatchable(s, I.ReadSlot(s.core.sched, fd)) && ReadsAt(s.core, fd, I.ReadSlot(s.core.sched, fd))
    {
      L.ReadSlotIsDispatchable(s, fd);
      SlotsAreOwn(s.core, fd);
    }
    forall fd <- s.core.sched.table | I.WriteSlot(s.core.sched, fd) != Null
      ensures L.Dispatchable(s, I.WriteSlot(s.core.sched, fd)) && WritesAt(s.core, fd, I.WriteSlot(s.core.sched, fd))
    {
      L.WriteSlotOwner(s, fd);
      L.SuspendedIsDispatchable(s, I.WriteSlot(s.core.sched, fd));
      SlotsAreOwn(s.core, fd);
    }
    if s.latched != Null {
      L.LatchedIsDispatchable(s);
      var n := s.core.suspended[s.latched.frame].job.socket;
      WriterIsRegistered(s.core, s.latched.frame);
      SlotsAreOwn(s.core, SocketFd(n));
      assert I.WriteSlot(s.core.sched, SocketFd(n)) == s.latched && WritesAt(s.core, SocketFd(n), s.latched);
    }
  }

  // ------------------------------------------------------------------ one resumption

  /** The step a resumes the awaiter at f: by whichever half of whichever event. */
  ghost predicate ResumedBy(s: L.State, a: L.Action, f: nat) {
    Reachable(s) && L.Legal(s, a) && L.Resumes(s, a, f) && f in s.core.suspended
  }

  lemma ResumedByShape(s: L.State, a: L.Action, f: nat)
    requires ResumedBy(s, a, f)
    ensures a.EventRead? || a.EventWrite?
    ensures L.Resumable(s, f, a.choice)
    ensures var s' := L.Step(s, a); s' == L.ResumeInner(s, f, a.choice).(latched := s'.latched)
    ensures var o := s.core.suspended[f].op; o in s.ops && o in L.Step(s, a).ops && s.ops[o].status.Waiting?
  {
    hide L.Inv, L.ResumeInner, Reachable, T.PicksEarliest, L.Step, L.Resumes, L.Legal;
    ReachableInv(s);
    L.StepIsResumption(s, a, f);
    L.Own(s, f);
    StillThere(s, f, a.choice);
  }

  lemma StillThere(s: L.State, f: nat, ch: L.Choice)
    requires L.Resumable(s, f, ch)
    ensures s.core.suspended[f].op in L.ResumeInner(s, f, ch).ops
  {
    hide L.Inv, L.ResumeInner, T.PicksEarliest, VerdictOf, Release, Suspend, L.Round, L.Traffic, L.Transmit;
    if VerdictOf(s.core, f, s.core.suspended[f].job) == Ready {
      L.VerdictReadyIsIo(s.core, f);
      L.IoShape(s, f, ch);
    } else {
      L.EndedShape(s, f, ch);
    }
  }

  /** Anywhere the loop could hold the address f. */
  ghost predicate Forgotten(c: State, f: nat) {
    && (forall fd <- I.Readers(c.sched) :: I.Readers(c.sched)[fd].Field? && I.Readers(c.sched)[fd].frame != f)
    && (forall fd <- I.Writers(c.sched) :: I.Writers(c.sched)[fd].Field? && I.Writers(c.sched)[fd].frame != f)
    && (forall t <- T.Live(c.timers) :: t.read.Field? && t.read.frame != f)
    && (c.timers.cur.read.Field? ==> c.timers.cur.read.frame != f)
  }

  /** When await_resume is done, on every exit, no slot, no live timer and no `cur` refers to the awaiter's
      address. The step ends there, or with the suspension of the loop's next awaiter, at that address or
      another; only then may something refer to it again, and any timer that does is a new one. */
  lemma NothingLeftBehind(s: L.State, a: L.Action, f: nat)
    requires ResumedBy(s, a, f)
    ensures var susp := s.core.suspended[f];
      var next, pick := a.choice.next, a.choice.pick;
      && T.PicksEarliest(pick)
      && (susp.job.Wait? ==> s.core.timers.fd.armed.Some? && !s.core.timers.fd.drained)
      && var c1 := Release(s.core, f, susp.job, pick);
         var c' := L.Step(s, a).core;
         && Forgotten(c1, f)
         && (c' == c1 || c' == Suspend(c1, next, susp.op, susp.job, pick))
         && (f !in c'.suspended ==> Forgotten(c', f))
         && (forall t <- T.Live(c'.timers) :: t.read == Field(f, OnTimer) ==> t !in T.Live(s.core.timers))
  {
    hide Awaiters.Inv, L.ResumeInner, I.Readers, I.Writers, T.Live, Reachable, L.Step, L.Legal, L.Resumes, Release,
      Suspend, T.PicksEarliest, Forgotten, VerdictOf;
    ResumedByShape(s, a, f);
    var susp := s.core.suspended[f];
    var ch := a.choice;
    ReleaseKeepsInv(s.core, f, ch.pick);
    var c1 := Release(s.core, f, susp.job, ch.pick);
    ForgottenIf(c1, f);
    var c' := L.Step(s, a).core;
    L.ResumeKeepsInv(s, f, ch);
    if f !in c'.suspended { ForgottenIf(c', f); }
    OldTimerGone(s, f, ch);
  }

  lemma ForgottenIf(c: State, f: nat)
    requires Awaiters.Inv(c) && f !in c.suspended
    ensures Forgotten(c, f)
  {
    hide Awaiters.Inv, I.Readers, I.Writers, T.Live;
    NoTrace(c, f);
  }

  lemma OldTimerGone(s: L.State, f: nat, ch: L.Choice)
    requires L.Resumable(s, f, ch)
    ensures var susp := s.core.suspended[f];
      var c1, c' := Release(s.core, f, susp.job, ch.pick), L.ResumeInner(s, f, ch).core;
      && (c' == c1 || c' == Suspend(c1, ch.next, susp.op, susp.job, ch.pick))
      && forall t <- T.Live(c'.timers) :: t.read == Field(f, OnTimer) ==> t !in T.Live(s.core.timers)
  {
    hide Awaiters.Inv, L.Linked, L.OpsOk, L.NetOk, L.LatchedOk, L.FiredOk, L.ResumedOk, L.OnRecord, T.Live,
      L.ResumeInner, VerdictOf, T.PicksEarliest, Release, Suspend, L.Round, L.Traffic, L.Transmit;
    ReleaseKeepsInv(s.core, f, ch.pick);
    var susp := s.core.suspended[f];
    if VerdictOf(s.core, f, susp.job) == Ready {
      L.VerdictReadyIsIo(s.core, f);
      L.IoShape(s, f, ch);
      L.AgainCore(s, f, ch);
      L.NewTimerIsNew(s, f, ch);
    } else {
      L.EndedShape(s, f, ch);
    }
  }

  /** `running` returns exactly when every operation is finished, those whose timer waits behind `cur` included. */
  lemma LoopExitsIffAllDone(s: L.State)
    requires Reachable(s)
    ensures s.core.sched.table.Keys == {} <==> forall o <- s.ops :: s.ops[o].status.Done?
  {
    ReachableInv(s);
    IdleIffAllDone(s);
  }

  lemma IdleIffAllDone(s: L.State)
    requires L.Inv(s)
    ensures s.core.sched.table.Keys == {} <==> forall o <- s.ops :: s.ops[o].status.Done?
  {
    EmptyTableIffIdle(s.core);
    hide Awaiters.Inv, L.OpsOk, L.NetOk, L.LatchedOk, L.FiredOk, L.ResumedOk, L.OnRecord;
    if s.core.suspended.Keys != {} {
      var f :| f in s.core.suspended;
      assert L.LinkOk(f, s.core.suspended[f], s.ops[s.core.suspended[f].op]);
    }
  }

  // ------------------------------------------------------------------ completion

  lemma ReachableOp(s: L.State, o: nat)
    requires Reachable(s) && o in s.ops
    ensures L.OpOk(s.ops[o], s.net)
  {
    ReachableInv(s);
    hide Awaiters.Inv, L.Linked, L.NetOk, L.LatchedOk, L.FiredOk, L.OnRecord, L.ResumedOk, L.OpOk;
  }

  /** Every suspension of an operation is resumed once when its round is over and not before, and the
      outer coroutine is resumed exactly once when an operation that suspended is done, and never otherwise. */
  lemma ExactlyOnce(s: L.State, o: nat)
    requires Reachable(s) && o in s.ops
    ensures forall i, j | 0 <= i < j < |s.resumed| :: s.resumed[i] != s.resumed[j]
    ensures forall k: nat | 1 <= k <= s.ops[o].suspensions ::
      (o, k) in s.resumed <==> (s.ops[o].status.Done? || k < s.ops[o].suspensions)
    ensures s.ops[o].outerResumes == if s.ops[o].status.Done? && s.ops[o].suspensions > 0 then 1 else 0
  {
    hide L.ResumedOk, L.ResumesOk, CountsOk, PlaceOk, Awaiters.Inv, Reachable, L.Linked, L.OpsOk, L.NetOk,
      L.LatchedOk, L.FiredOk, L.OnRecord;
    ReachableInv(s);
    ReachableOp(s, o);
    LogOf(s.resumed, s.ops, o);
  }

  lemma LogOf(resumed: seq<(nat, nat)>, ops: map<nat, Op>, o: nat)
    requires L.ResumedOk(resumed, ops) && o in ops && L.ResumesOk(ops[o])
    ensures forall i, j | 0 <= i < j < |resumed| :: resumed[i] != resumed[j]
    ensures forall k: nat | 1 <= k <= ops[o].suspensions ::
      (o, k) in resumed <==> (ops[o].status.Done? || k < ops[o].suspensions)
    ensures ops[o].outerResumes == if ops[o].status.Done? && ops[o].suspensions > 0 then 1 else 0
  {
  }

  /** A finished operation is never resumed again: no suspended awaiter, and so no slot, is its own. */
  lemma DoneStaysDone(s: L.State, f: nat)
    requires Reachable(s) && f in s.core.suspended
    ensures s.core.suspended[f].op in s.ops && s.ops[s.core.suspended[f].op].status.Waiting?
    ensures forall g <- s.core.suspended :: s.core.suspended[g].op == s.core.suspended[f].op ==> g == f
  {
    ReachableInv(s);
    hide Awaiters.Inv, L.OpsOk, L.NetOk, L.LatchedOk, L.FiredOk, L.ResumedOk, L.OnRecord;
    assert L.LinkOk(f, s.core.suspended[f], s.ops[s.core.suspended[f].op]);
    forall g <- s.core.suspended | s.core.suspended[g].op == s.core.suspended[f].op ensures g == f {
      assert L.LinkOk(g, s.core.suspended[g], s.ops[s.core.suspended[g].op]);
    }
  }

  // ------------------------------------------------------------------ deadlines

  /** No timeout and no delay is reported early, even on a stale event; reports come in the order of their
      deadlines; no live timer has an earlier deadline than one already reported; and the reports are, one for
      one, those of the operations that timed out or whose delay elapsed, each with that operation's own deadline. */
  lemma DeadlinesInOrder(s: L.State)
    requires Reachable(s)
    ensures forall i | 0 <= i < |s.fired| :: s.fired[i].due <= s.fired[i].at <= s.core.now
    ensures forall i, j | 0 <= i < j < |s.fired| :: s.fired[i].due <= s.fired[j].due
    ensures forall i, t | 0 <= i < |s.fired| && t in T.Live(s.core.timers) :: s.fired[i].due <= t.due
    ensures forall o <- s.ops :: L.Expired(s.ops[o]) ==> exists i | 0 <= i < |s.fired| :: s.fired[i].op == o
    ensures forall i | 0 <= i < |s.fired| ::
      && s.fired[i].op in s.ops && L.Expired(s.ops[s.fired[i].op])
      && s.ops[s.fired[i].op].due == Some(s.fired[i].due)
    ensures forall i, j | 0 <= i < j < |s.fired| :: s.fired[i].op != s.fired[j].op
  {
    ReachableInv(s);
    hide Awaiters.Inv, L.Linked, L.OpsOk, L.NetOk, L.LatchedOk, L.ResumedOk, T.Live;
  }

  /** A resumption reports a deadline exactly if it comes out as timed out or elapsed; it is then the
      operation's own, it has come, and it is the earliest of all live ones. */
  lemma FiresItsOwnEarliestDeadline(s: L.State, a: L.Action, f: nat)
    requires ResumedBy(s, a, f)
    ensures var s' := L.Step(s, a);
      var susp := s.core.suspended[f];
      var verdict := VerdictOf(s.core, f, susp.job);
      if verdict == TimedOut || verdict == Elapsed then
        && susp.due.Some?
        && s'.fired == s.fired + [L.Fire(susp.op, susp.due.value, s'.core.now)]
        && s'.core.now >= susp.due.value
        && forall t <- T.Live(s.core.timers) :: susp.due.value <= t.due
      else s'.fired == s.fired
  {
    hide Awaiters.Inv, L.Linked, L.OpsOk, L.NetOk, L.LatchedOk, L.FiredOk, L.ResumedOk, L.OnRecord, T.Live,
      L.ResumeInner, VerdictOf, T.PicksEarliest, Reachable, L.Step, L.Legal, L.Resumes;
    ResumedByShape(s, a, f);
    var ch := a.choice;
    var verdict := VerdictOf(s.core, f, s.core.suspended[f].job);
    if verdict == Ready {
      L.VerdictReadyIsIo(s.core, f);
      L.IoShape(s, f, ch);
    } else {
      L.FireCore(s, f, ch);
      if verdict != Cancelled {
        WhoFires(s.core, f);
        LastFire(L.ResumeInner(s, f, ch), s.fired);
      }
    }
  }

  lemma LastFire(s: L.State, before: seq<L.Fire>)
    requires L.FiredOk(s.fired, s.core.now, T.Live(s.core.timers)) && |s.fired| == |before| + 1
    ensures s.fired[|before|].due <= s.core.now
  {
  }

  lemma WhoFires(c: State, f: nat)
    requires Awaiters.Inv(c) && f in c.suspended
    requires c.suspended[f].job.Wait? ==> c.timers.cur.read == Field(f, OnTimer)
    requires VerdictOf(c, f, c.suspended[f].job) == TimedOut || VerdictOf(c, f, c.suspended[f].job) == Elapsed
    ensures c.suspended[f].due == Some(c.timers.cur.due) && T.Earliest(c.timers.cur, T.Live(c.timers))
  {
    TimedOutIff(c, f);
    hide Awaiters.Inv, T.Earliest, T.Live;
    OwnerOfCurrent(c);
    CurrentOwner(c);
  }

  /** Resuming one awaiter, whatever the outcome, leaves every other awaiter suspended as it was and every
      other live timer with its operation and its deadline. */
  lemma OthersUndisturbed(s: L.State, a: L.Action, f: nat)
    requires ResumedBy(s, a, f)
    ensures var c' := L.Step(s, a).core;
      && (forall g <- s.core.suspended :: g != f ==> g in c'.suspended && c'.suspended[g] == s.core.suspended[g])
      && (forall t <- T.Live(s.core.timers) :: t.read != Field(f, OnTimer) ==> t in T.Live(c'.timers))
      && (forall t <- T.Live(c'.timers) :: t.read != Field(a.choice.next, OnTimer) ==> t in T.Live(s.core.timers))
  {
    hide Awaiters.Inv, L.Linked, L.OpsOk, L.NetOk, L.LatchedOk, L.FiredOk, L.ResumedOk, L.OnRecord, T.Live,
      L.ResumeInner, VerdictOf, T.PicksEarliest, Reachable, Release, Suspend, L.Round, L.Traffic, L.Transmit,
      L.Step, L.Legal, L.Resumes;
    ResumedByShape(s, a, f);
    var ch := a.choice;
    ReleaseKeepsInv(s.core, f, ch.pick);
    forall g <- s.core.suspended | g != f {
      L.OthersStaySuspended(s, f, ch, g);
    }
    if VerdictOf(s.core, f, s.core.suspended[f].job) == Ready {
      L.VerdictReadyIsIo(s.core, f);
      L.IoShape(s, f, ch);
      L.AgainCore(s, f, ch);
    } else {
      L.EndedShape(s, f, ch);
    }
  }

  // ------------------------------------------------------------------ cancellation

  /** A suspended operation with a real token is always in the read slot of the token's eventfd, which is
      readable once cancellation was requested. */
  lemma CancellationIsWatched(s: L.State, f: nat)
    requires Reachable(s) && f in s.core.suspended
    requires s.core.suspended[f].job.Io? && s.core.suspended[f].job.token.Some?
    ensures var k := s.core.suspended[f].job.token.value;
      && I.ReadSlot(s.core.sched, EventFd(k)) == Field(f, OnCancel)
      && (TokenOf(s.core, k).cancelled ==> TokenOf(s.core, k).counter > 0)
  {
    hide L.Linked, L.OpsOk, L.NetOk, L.LatchedOk, L.FiredOk, L.ResumedOk, L.OnRecord, Awaiters.Inv, Reachable;
    ReachableInv(s);
    TokenIsWatched(s.core, f);
  }

  /** Once cancellation of a suspended operation was requested, its next resumption, by whichever half of
      whichever event, ends it as cancelled with no recv and no send, and reads the eventfd empty. */
  lemma NoLostCancellation(s: L.State, a: L.Action, f: nat, k: nat)
    requires ResumedBy(s, a, f) && s.core.suspended[f].job.Io? && s.core.suspended[f].job.token == Some(k)
    requires TokenOf(s.core, k).cancelled
    ensures var o := s.core.suspended[f].op;
      var s' := L.Step(s, a);
      && o in s.ops && o in s'.ops
      && s'.net == s.net
      && s'.ops[o].status == Done(OperationCanceled, CountOf(s.ops[o]))
      && s'.ops[o].buf == s.ops[o].buf
      && TokenOf(s'.core, k) == Token(true, 0)
  {
    hide Awaiters.Inv, L.Linked, L.OpsOk, L.NetOk, L.LatchedOk, L.FiredOk, L.ResumedOk, L.OnRecord, T.Live,
      L.ResumeInner, T.PicksEarliest, Reachable, L.Step, L.Legal, L.Resumes, Release;
    ResumedByShape(s, a, f);
    L.EndedShape(s, f, a.choice);
    ReleaseKeepsInv(s.core, f, a.choice.pick);
  }

  /** A request is for good: no step takes it back. */
  lemma CancellationIsForGood(s: L.State, a: L.Action, k: nat)
    requires Reachable(s) && L.Legal(s, a)
    requires TokenOf(s.core, k).cancelled
    ensures TokenOf(L.Step(s, a).core, k).cancelled
  {
    hide Reachable;
    L.FlagsStay(s, a, k);
  }

  /** The count an operation would return now: its offset for a read, its total for a write. */
  function CountOf(op: Op): nat {
    if op.job.Io? && op.job.dir == Outbound then op.total else op.buf.offset
  }

  // ------------------------------------------------------------------ bytes

  /** End to end: what was sent through one socket is what its peer received so far followed by what is still
      on the wire, in order. */
  lemma BytesConserved(s: L.State, w: nat)
    requires Reachable(s) && w in s.net.peer
    ensures L.At(s.net.out, w) == L.At(s.net.got, s.net.peer[w]) + L.At(s.net.wire, s.net.peer[w])
  {
    ReachableInv(s);
    hide Awaiters.Inv, L.Linked, L.OpsOk, L.LatchedOk, L.FiredOk, L.ResumedOk, L.OnRecord;
    assert L.At(s.net.out, w) == L.At(s.net.into, s.net.peer[w]);
  }

  /** What each operation, finished or not, has in its buffer between its initial and its present offset is
      what the socket's stream holds from the point where the operation began; the rest of a reader's
      buffer is untouched; and an operation still waiting ends where the stream ends. */
  lemma BuffersHoldTheStream(s: L.State, o: nat)
    requires Reachable(s) && o in s.ops && s.ops[o].job.Io?
    ensures var op := s.ops[o];
      var stream := L.StreamOf(s.net, op.job);
      && op.initial.offset <= op.buf.offset <= |op.buf.data| == |op.initial.data|
      && var moved := op.buf.offset - op.initial.offset;
         && op.base + moved <= |stream|
         && stream[op.base..op.base + moved] == op.buf.data[op.initial.offset..op.buf.offset]
         && op.buf.data[..op.initial.offset] == op.initial.data[..op.initial.offset]
         && op.buf.data[op.buf.offset..] == op.initial.data[op.buf.offset..]
         && (op.status.Waiting? ==> op.base + moved == |stream|)
  {
    ReachableOp(s, o);
  }

  /** A timeout, like a cancellation, consumes no byte and leaves the buffer alone. */
  lemma TimeoutMovesNothing(s: L.State, a: L.Action, f: nat)
    requires ResumedBy(s, a, f) && VerdictOf(s.core, f, s.core.suspended[f].job) == TimedOut
    ensures var o := s.core.suspended[f].op;
      var s' := L.Step(s, a);
      && o in s.ops && o in s'.ops
      && s'.net == s.net
      && s'.ops[o].status == Done(TimedOutCode, CountOf(s.ops[o]))
      && s'.ops[o].buf == s.ops[o].buf
  {
    hide Awaiters.Inv, L.Linked, L.OpsOk, L.NetOk, L.LatchedOk, L.FiredOk, L.ResumedOk, L.OnRecord, T.Live,
      L.ResumeInner, T.PicksEarliest, Reachable, L.Step, L.Legal, L.Resumes, Release;
    ResumedByShape(s, a, f);
    L.EndedShape(s, f, a.choice);
  }

  /** Results and bounds of the loops. A read awaits at most max(1, room) times and returns its final
      offset; a write makes at most max(1, remaining) sends that do not block, and returns the bytes it sent, on
      every exit. A read succeeds exactly if its last recv filled the buffer, returned zero or would have
      blocked, a write exactly if its last send emptied the buffer or returned zero. Either returns an errno
      exactly when its last call failed with it; every other end is that of a token or a timer. */
  lemma LoopResults(s: L.State, o: nat)
    requires Reachable(s) && o in s.ops && s.ops[o].job.Io? && s.ops[o].status.Done?
    ensures var op := s.ops[o];
      var room := |op.initial.data| - op.initial.offset;
      && (op.status.code.Errno? <==> Failed(op)) && (Failed(op) ==> op.status.code.errno == op.last.value.errno)
      && if op.job.dir == Inbound then
        && op.awaits <= Max(1, room)
        && op.status.count == op.buf.offset
        && (op.status.code == Ok <==>
              && op.last.Some?
              && (op.last.value == Zero || op.last.value == WouldBlock
                  || (op.last.value.Moved? && op.buf.offset == |op.buf.data|)))
      else
        && op.sends <= Max(1, room)
        && op.status.count == op.buf.offset - op.initial.offset == op.total
        && (op.status.code == Ok <==>
              && op.last.Some?
              && (op.last.value == Zero || (op.last.value.Moved? && op.buf.offset == |op.buf.data|)))
  {
    ReachableOp(s, o);
  }

  /** A loop that still waits has seen no reason to stop: its last recv moved bytes and left room; its last
      send moved bytes and left some, or would have blocked. */
  lemma WaitingLoops(s: L.State, o: nat)
    requires Reachable(s) && o in s.ops && s.ops[o].job.Io? && s.ops[o].status.Waiting?
    ensures var op := s.ops[o];
      op.last.Some? ==>
        || (op.last.value.Moved? && op.buf.offset < |op.buf.data|)
        || (op.last.value == WouldBlock && op.job.dir == Outbound)
  {
    ReachableOp(s, o);
  }

  /** What its awaiter's verdict and the environment make of one co_await of a read or write. */
  function AwaitOf(verdict: Verdict, r: Syscall): B.Await {
    match verdict
    case Ready => B.IsReady(r)
    case Cancelled => B.Reports(OperationCanceled)
    case _ => B.Reports(TimedOutCode)
  }

  /** op with the suspension record of another: how often suspended and resumed, where, until when. */
  function Unrecorded(op: Op, other: Op): Op {
    op.(suspensions := other.suspensions, outerResumes := other.outerResumes, frame := other.frame, due := other.due)
  }

  /** In the running loop, each resumption of a read or write is one round of its coroutine as module
      ByteLoops has it, on the wire as it is then; only the record of suspensions differs. */
  lemma ResumptionIsOneRound(s: L.State, a: L.Action, f: nat)
    requires ResumedBy(s, a, f) && s.core.suspended[f].job.Io?
    ensures var susp := s.core.suspended[f];
      && susp.op in s.ops
      && var op, wire := s.ops[susp.op], L.At(s.net.wire, susp.job.socket);
         var await_ := AwaitOf(VerdictOf(s.core, f, susp.job), a.choice.result);
         var s' := L.Step(s, a);
         && op.status.Waiting? && op.job == susp.job
         && B.AwaitAllowed(op, wire, await_) && susp.op in s'.ops
         && B.OneRound(op, wire, await_) == Unrecorded(s'.ops[susp.op], op)
         && (susp.job.dir == Inbound ==> L.At(s'.net.wire, susp.job.socket) == B.WireAfter(op, wire, await_))
  {
    hide Awaiters.Inv, L.Linked, L.OpsOk, L.NetOk, L.LatchedOk, L.FiredOk, L.ResumedOk, L.OnRecord, L.OpOk,
      L.ResumeInner, VerdictOf, T.PicksEarliest, Reachable, L.Round, L.Traffic, L.Transmit, L.Settle, L.Ended,
      B.OneRound, B.WireAfter, RecvAllowed, SendAllowed, Release, Suspend, L.Step, L.Legal, L.Resumes, Unrecorded;
    ResumedByShape(s, a, f);
    L.Own(s, f);
    var ch := a.choice;
    var susp := s.core.suspended[f];
    var op, wire := s.ops[susp.op], L.At(s.net.wire, susp.job.socket);
    if VerdictOf(s.core, f, susp.job) == Ready {
      L.IoShape(s, f, ch);
      ReadyRound(s.net, op, ch.result, ch.next, s.core.now);
    } else {
      VerdictOfIo(s.core, f);
      EndedRound(op, wire, VerdictOf(s.core, f, susp.job));
      L.EndedShape(s, f, ch);
    }
  }

  lemma ReadyRound(net: L.Net, op: Op, r: Syscall, next: nat, now: int)
    requires op.job.Io? && op.buf.Valid() && op.status.Waiting?
    requires var wire := L.At(net.wire, op.job.socket);
      if op.job.dir == Inbound then RecvAllowed(op.buf, wire, r) else SendAllowed(op.buf, r)
    ensures var wire := L.At(net.wire, op.job.socket);
      var op' := L.Settle(L.Round(op, wire, r), next, now);
      && B.OneRound(op, wire, B.IsReady(r)) ==
           Unrecorded(op', op)
      && (op.job.dir == Inbound ==>
            L.At(L.Transmit(net, op.job, L.Traffic(op, wire, r)).wire, op.job.socket)
              == B.WireAfter(op, wire, B.IsReady(r)))
  {
  }

  lemma EndedRound(op: Op, wire: seq<Byte>, verdict: Verdict)
    requires op.job.Io? && op.buf.Valid() && (verdict == Cancelled || verdict == TimedOut)
    ensures var a := AwaitOf(verdict, Zero);
      && B.AwaitAllowed(op, wire, a) && B.WireAfter(op, wire, a) == wire
      && B.OneRound(op, wire, a) ==
           Unrecorded(L.Ended(op, verdict), op)
  {
  }

  lemma VerdictOfIo(c: State, f: nat)
    requires f in c.suspended && c.suspended[f].job.Io?
    ensures VerdictOf(c, f, c.suspended[f].job) != Elapsed
  {
  }

  // ------------------------------------------------------------------ timer events

  /** A timer event that is fresh at dispatch ends the operation it resumes, as timed out, cancelled or
      elapsed, and moves no byte; and the blocking read of the timerfd returns at once. A stale one does
      so exactly if the operation is a delay or was cancelled; otherwise a recv or send is attempted
      before the deadline. */
  lemma TimerEventOutcome(s: L.State, ch: L.Choice)
    requires Reachable(s) && s.latched == Null && TimerFd in s.core.sched.table
    requires L.LegalChoice(s, I.ReadSlot(s.core.sched, TimerFd), ch)
    ensures var p := I.ReadSlot(s.core.sched, TimerFd);
      && L.Dispatchable(s, p)
      && var susp := s.core.suspended[p.frame];
         var s' := L.Complete(s, p, ch);
         && susp.op in s.ops && susp.op in s'.ops
         && (s'.ops[susp.op].last == s.ops[susp.op].last && s'.net == s.net && s'.ops[susp.op].status.Done?
               <== T.Readable(s.core.timers, s.core.now))
         && (T.Readable(s.core.timers, s.core.now) ==>
               s'.core.now == s.core.now && s'.ops[susp.op].status.code ==
                 if susp.job.Wait? then Ok
                 else if CancelRequested(s.core, susp.job) then OperationCanceled else TimedOutCode)
         && (VerdictOf(s.core, p.frame, susp.job) == Ready <==>
               susp.job.Io? && !CancelRequested(s.core, susp.job) && !T.Readable(s.core.timers, s.core.now))
  {
    TimerSlotFacts(s, ch);
    hide Awaiters.Inv, I.Inv, L.Linked, L.OpsOk, L.NetOk, L.LatchedOk, L.FiredOk, L.ResumedOk, L.OnRecord, T.Live,
      L.ResumeInner, L.Complete, T.PicksEarliest, L.Dispatchable, T.Readable;
    var p := I.ReadSlot(s.core.sched, TimerFd);
    ReachableInv(s);
    L.CompleteKeepsInv(s, p, ch);
    if VerdictOf(s.core, p.frame, s.core.suspended[p.frame].job) != Ready {
      L.EndedShape(s, p.frame, ch);
      ReleaseKeepsInv(s.core, p.frame, ch.pick);
    } else {
      L.VerdictReadyIsIo(s.core, p.frame);
      L.IoShape(s, p.frame, ch);
    }
  }

  lemma TimerSlotFacts(s: L.State, ch: L.Choice)
    requires Reachable(s) && s.latched == Null && TimerFd in s.core.sched.table
    requires L.LegalChoice(s, I.ReadSlot(s.core.sched, TimerFd), ch)
    ensures var p := I.ReadSlot(s.core.sched, TimerFd);
      && L.Dispatchable(s, p) && L.Resumable(s, p.frame, ch)
      && var job := s.core.suspended[p.frame].job;
         && (VerdictOf(s.core, p.frame, job) == Ready <==>
               job.Io? && !CancelRequested(s.core, job) && !T.Readable(s.core.timers, s.core.now))
         && (T.Readable(s.core.timers, s.core.now) <==> s.core.timers.cur.due <= s.core.now)
         && (VerdictOf(s.core, p.frame, job) == Cancelled <==> job.Io? && CancelRequested(s.core, job))
         && (VerdictOf(s.core, p.frame, job) == Elapsed <==> job.Wait?)
  {
    TimerfdFollowsEarliestTimer(s);
    ReachableInv(s);
    I.Slots(s.core.sched, TimerFd);
    T.CurIsEarliest(s.core.timers);
    hide Awaiters.Inv, I.Inv, L.Linked, L.OpsOk, L.NetOk, L.LatchedOk, L.FiredOk, L.ResumedOk, L.OnRecord, T.Live,
      T.PicksEarliest, T.Earliest;
    L.ReadSlotIsDispatchable(s, TimerFd);
    TimerEventIsStaleIff(s.core);
  }
}
