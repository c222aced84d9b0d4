/**
 One cancel token attached to two pending operations. The design notes promise that both observe
 a cancellation; the table has one cancel slot per token, and the later operation takes it.
 */
module SharedTokens {
  import opened Handles
  import T = Timers
  import I = Interest
  import opened Awaiters

  /** What any suspension does to the registrations, whether or not the token is taken already. */
  lemma SuspendShape(c: State, g: nat, op: nat, job: Job, pick: T.Pick)
    requires T.PicksEarliest(pick) && Inv(c) && g !in c.suspended && !CancelRequested(c, job)
    ensures var c' := Suspend(c, g, op, job, pick);
      && Enrolled(c, g, job, c') && c'.tokens == c.tokens && c'.now == c.now
      && c'.suspended == c.suspended[g := Suspension(op, job, DueOf(job, c.now))]
  {
    hide I.Inv, T.Inv, T.Live, T.Settled, I.Readers, I.Writers, Registered, Backed, TimerSlot, Timed, SuspendIo,
      SuspendWait, ReadClaims, WriteClaims, SameSlots, JobsOk;
    NewFrameHasNoTimer(c, g);
    if job.Io? {
      SuspendIoLemma(c, g, job, pick);
    } else {
      SuspendWaitLemma(c, g, job, pick);
    }
  }

  /** The reader of a cancel descriptor after a suspension. */
  lemma CancelSlotAfter(r: map<Fd, Ptr>, r': map<Fd, Ptr>, g: nat, job: Job, k: nat)
    requires SameSlots(r', r + ReadClaims(g, job)) && EventFd(k) in r
    ensures EventFd(k) in r'
    ensures r'[EventFd(k)] == if job.Io? && job.token == Some(k) then Field(g, OnCancel) else r[EventFd(k)]
  {
    var fd := EventFd(k);
    var all := r + ReadClaims(g, job);
    assert fd in all - {TimerFd};
    assert fd in r' - {TimerFd};
    assert r'[fd] == (r' - {TimerFd})[fd] == (all - {TimerFd})[fd];
  }

  /** Starting an operation, as far as the shared state goes: await_suspend registers it, or declines because
      its token is cancelled already, and await_resume runs at once. */
  function Started(c: State, g: nat, op: nat, job: Job, pick: T.Pick): State
    requires T.PicksEarliest(pick)
  {
    if CancelRequested(c, job) then Release(c, g, job, pick) else Suspend(c, g, op, job, pick)
  }

  /** A pending operation keeps its cancel registration through the start of another one, declined or not,
      exactly if the two have different tokens. */
  lemma RegistrationSurvivesIff(c: State, f: nat, g: nat, op: nat, job: Job, pick: T.Pick)
    requires T.PicksEarliest(pick) && Inv(c) && f in c.suspended && g !in c.suspended
    requires c.suspended[f].job.Io? && c.suspended[f].job.token.Some?
    ensures var fd := EventFd(c.suspended[f].job.token.value);
      var c' := Started(c, g, op, job, pick);
      I.ReadSlot(c'.sched, fd) == Field(f, OnCancel) <==> !(job.Io? && job.token == c.suspended[f].job.token)
  {
    hide I.Inv, T.Inv, T.Live, T.Settled, I.Readers, I.Writers, Backed, TimerSlot, Timed, JobsOk, Suspend, Release,
      SameSlots;
    var k := c.suspended[f].job.token.value;
    var c' := Started(c, g, op, job, pick);
    assert Contains(I.Readers(c.sched), ReadClaims(f, c.suspended[f].job));
    assert EventFd(k) in ReadClaims(f, c.suspended[f].job);
    if CancelRequested(c, job) {
      DeclinedShape(c, g, job, pick);
      CancelSlotKept(I.Readers(c.sched), I.Readers(c'.sched), g, job, k);
    } else {
      SuspendShape(c, g, op, job, pick);
      CancelSlotAfter(I.Readers(c.sched), I.Readers(c'.sched), g, job, k);
    }
    I.Slots(c'.sched, EventFd(k));
  }

  /** The reader of a cancel descriptor after a declined start. */
  lemma CancelSlotKept(r: map<Fd, Ptr>, r': map<Fd, Ptr>, g: nat, job: Job, k: nat)
    requires SameSlots(r', r - ReadClaims(g, job).Keys) && EventFd(k) in r && job.Io?
    ensures EventFd(k) in r' <==> job.token != Some(k)
    ensures EventFd(k) in r' ==> r'[EventFd(k)] == r[EventFd(k)]
  {
    var fd := EventFd(k);
    var rest := r - ReadClaims(g, job).Keys;
    assert fd in rest - {TimerFd} <==> fd in rest;
    assert fd in r' - {TimerFd} <==> fd in r';
    assert fd in ReadClaims(g, job) <==> job.token == Some(k);
    if fd in r' {
      assert r'[fd] == (r' - {TimerFd})[fd] == (rest - {TimerFd})[fd];
    }
  }

  /** An operation started on the cancelled token of a pending one declines, reads the eventfd empty and takes
      the registration away: the pending one is no longer woken. */
  lemma DeclinedStartLosesCancellation(c: State, f: nat, g: nat, job: Job, pick: T.Pick)
    requires T.PicksEarliest(pick) && Inv(c) && f in c.suspended && g !in c.suspended
    requires job.Io? && job.token.Some? && CancelRequested(c, job)
    requires c.suspended[f].job.Io? && c.suspended[f].job.token == job.token
    ensures var k := job.token.value;
      && I.ReadSlot(c.sched, EventFd(k)) == Field(f, OnCancel) && TokenOf(c, k).counter > 0
      && var after := Release(c, g, job, pick);
         && f in after.suspended && after.suspended[f] == c.suspended[f]
         && CancelRequested(after, after.suspended[f].job)
         && EventFd(k) !in after.sched.table && EventFd(k) !in after.sched.interest
         && TokenOf(after, k).counter == 0
  {
    hide I.Inv, T.Inv, T.Live, T.Settled, I.Readers, I.Writers, TimerSlot, Timed, JobsOk, Release, SameSlots,
      Registered, Backed;
    var k := job.token.value;
    TokenIsWatched(c, f);
    RegisteredOn(c, f, k);
    DeclinedShape(c, g, job, pick);
    var after := Release(c, g, job, pick);
    CancelSlotKept(I.Readers(c.sched), I.Readers(after.sched), g, job, k);
    NoCancelWriter(c, k);
    I.TableIsTwoMaps(after.sched);
    I.Slots(after.sched, EventFd(k));
  }

  /** With one token for both, a cancellation request wakes the later operation alone. When that has
      gone through await_resume, the earlier one is still suspended, although its token is cancelled;
      the cancel descriptor is no longer watched, and no longer readable. */
  lemma SharedTokenLosesCancellation(c: State, f: nat, g: nat, op: nat, job: Job, pick: T.Pick)
    requires T.PicksEarliest(pick) && Inv(c) && f in c.suspended && g !in c.suspended
    requires job.Io? && job.token.Some? && !CancelRequested(c, job)
    requires c.suspended[f].job.Io? && c.suspended[f].job.token == job.token
    ensures var k := job.token.value;
      var requested := RequestCancel(Suspend(c, g, op, job, pick), k);
      && I.ReadSlot(requested.sched, EventFd(k)) == Field(g, OnCancel) && TokenOf(requested, k).counter > 0
      && VerdictOf(requested, g, job) == Cancelled
      && var after := Release(requested, g, job, pick);
         && f in after.suspended && after.suspended[f] == c.suspended[f]
         && CancelRequested(after, after.suspended[f].job)
         && EventFd(k) !in after.sched.table && EventFd(k) !in after.sched.interest
         && TokenOf(after, k).counter == 0
  {
    hide I.Inv, T.Inv, T.Live, T.Settled, I.Readers, I.Writers, TimerSlot, Timed, JobsOk, Suspend, Release, SameSlots,
      Registered, Backed;
    var k := job.token.value;
    var c1 := Suspend(c, g, op, job, pick);
    var requested := RequestCancel(c1, k);
    SuspendShape(c, g, op, job, pick);
    NewFrameHasNoTimer(c, g);
    RegisteredOn(c, f, k);
    CancelSlotAfter(I.Readers(c.sched), I.Readers(c1.sched), g, job, k);
    I.Slots(c1.sched, EventFd(k));
    NoCancelWriter(c, k);
    ReleaseShape(requested, g, job, pick);
    var after := Release(requested, g, job, pick);
    CancelSlotGone(I.Readers(requested.sched), I.Readers(after.sched), g, job, k);
    WriterGone(I.Writers(c.sched), I.Writers(c1.sched), I.Writers(after.sched), g, job, k);
    I.TableIsTwoMaps(after.sched);
    I.Slots(after.sched, EventFd(k));
  }

  const FIRST: Job := Io(Inbound, 1, None, Some(0))
  const SECOND: Job := Io(Inbound, 2, None, Some(0))

  /** The smallest case: two reads on different sockets with one token, cancelled once. */
  lemma TwoReadsOneToken(c: State, pick: T.Pick)
    requires T.PicksEarliest(pick) && Inv(c) && c.suspended == map[] && c.tokens == map[]
    ensures var both := Suspend(Suspend(c, 0, 0, FIRST, pick), 1, 1, SECOND, pick);
      var after := Release(RequestCancel(both, 0), 1, SECOND, pick);
      && 0 in after.suspended && CancelRequested(after, FIRST) && after.suspended[0].job == FIRST
      && EventFd(0) !in after.sched.table
  {
    hide Inv, Suspend, Release, T.PicksEarliest;
    SuspendKeepsInv(c, 0, 0, FIRST, pick);
    var c1 := Suspend(c, 0, 0, FIRST, pick);
    SharedTokenLosesCancellation(c1, 0, 1, 1, SECOND, pick);
  }

  lemma RegisteredOn(c: State, f: nat, k: nat)
    requires Inv(c) && f in c.suspended && c.suspended[f].job.Io? && c.suspended[f].job.token == Some(k)
    ensures EventFd(k) in I.Readers(c.sched)
  {
    hide I.Inv, T.Inv, T.Live, T.Settled, I.Readers, I.Writers, Backed, TimerSlot, Timed, JobsOk;
    assert Contains(I.Readers(c.sched), ReadClaims(f, c.suspended[f].job));
    assert EventFd(k) in ReadClaims(f, c.suspended[f].job);
  }

  lemma NoCancelWriter(c: State, k: nat)
    requires Inv(c)
    ensures EventFd(k) !in I.Writers(c.sched)
  {
    hide I.Inv, T.Inv, T.Live, T.Settled, I.Readers, I.Writers, Registered, TimerSlot, Timed, JobsOk;
  }

  lemma CancelSlotGone(r: map<Fd, Ptr>, r': map<Fd, Ptr>, g: nat, job: Job, k: nat)
    requires SameSlots(r', r - ReadClaims(g, job).Keys) && job.Io? && job.token == Some(k)
    ensures EventFd(k) !in r'
  {
    assert EventFd(k) in ReadClaims(g, job);
    assert EventFd(k) in r' ==> EventFd(k) in r' - {TimerFd};
  }

  lemma WriterGone(w: map<Fd, Ptr>, w1: map<Fd, Ptr>, w2: map<Fd, Ptr>, g: nat, job: Job, k: nat)
    requires w1 == w + WriteClaims(g, job) && w2 == w1 - WriteClaims(g, job).Keys && EventFd(k) !in w
    ensures EventFd(k) !in w2
  {
  }
}
