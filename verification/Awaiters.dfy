/**
 The awaiters: what await_suspend registers and what await_resume takes back, for plain and
 timed reads and writes (async_read.h, async_write.h), and for wait_for (wait_for.h).
 Reads and writes are written as near-duplicates in the source; here one description serves
 both, with the direction as a parameter.
 */
module Awaiters {
  import opened Handles
  import T = Timers
  import I = Interest

  datatype Direction = Inbound | Outbound

  /** What is awaited: one recv or send on a socket, with or without a timeout and a cancel token, or a delay. */
  datatype Job =
    | Io(dir: Direction, socket: nat, delay: Option<nat>, token: Option<nat>)
    | Wait(span: nat)

  /** A cancel_token's shared state: the sticky flag and the eventfd counter. */
  datatype Token = Token(cancelled: bool, counter: nat)

  /** A suspended awaiter: the operation it belongs to, what it waits for and, when it has a timer, until when. */
  datatype Suspension = Suspension(op: nat, job: Job, due: Option<int>)

  /** The loop's shared state; `suspended` is keyed by the address of the awaiter. */
  datatype State = State(
    sched: I.State,
    timers: T.State,
    now: int,
    tokens: map<nat, Token>,
    suspended: map<nat, Suspension>)

  /** How an await_resume comes out, before any recv or send. */
  datatype Verdict = Cancelled | TimedOut | Ready | Elapsed

  // ------------------------------------------------------------------ tokens

  function TokenOf(c: State, k: nat): Token {
    if k in c.tokens then c.tokens[k] else Token(false, 0)
  }

  /** The first request sets the flag and makes the eventfd readable; later ones do nothing. */
  function Requested(t: Token): Token {
    if t.cancelled then t else Token(true, t.counter + 1)
  }

  /** Reading the non-blocking eventfd resets its counter; the flag stays. */
  function Drained(t: Token): Token {
    t.(counter := 0)
  }

  function RequestCancel(c: State, k: nat): State {
    c.(tokens := c.tokens[k := Requested(TokenOf(c, k))])
  }

  function ConsumeToken(c: State, k: nat): State {
    c.(tokens := c.tokens[k := Drained(TokenOf(c, k))])
  }

  predicate CancelRequested(c: State, job: Job) {
    job.Io? && job.token.Some? && TokenOf(c, job.token.value).cancelled
  }

  // ------------------------------------------------------------------ registrations

  /** refresh_timer_registration */
  function RefreshRegistration(c: State, pick: T.Pick): State
    requires T.PicksEarliest(pick)
  {
    var timers := T.Refresh(c.timers, pick);
    var sched := if T.EmptyTask(timers.cur) then I.RemoveTimer(c.sched)
                 else I.SubmitTimer(c.sched, timers.cur.read);
    c.(timers := timers, sched := sched)
  }

  function SubmitSocket(c: State, f: nat, job: Job): State
    requires job.Io?
  {
    if job.dir == Inbound then c.(sched := I.SubmitRead(c.sched, SocketFd(job.socket), Field(f, OnSocket)))
    else c.(sched := I.SubmitWrite(c.sched, SocketFd(job.socket), Field(f, OnSocket)))
  }

  function RemoveSocket(c: State, job: Job): State
    requires job.Io?
  {
    if job.dir == Inbound then c.(sched := I.RemoveRead(c.sched, SocketFd(job.socket)))
    else c.(sched := I.RemoveWrite(c.sched, SocketFd(job.socket)))
  }

  /** cancel_slot::submit; the slot of a noop token does nothing. */
  function SubmitCancel(c: State, f: nat, job: Job): State
    requires job.Io?
  {
    if job.token.None? || CancelRequested(c, job) then c
    else c.(sched := I.SubmitRead(c.sched, EventFd(job.token.value), Field(f, OnCancel)))
  }

  function RemoveCancel(c: State, job: Job): State
    requires job.Io?
  {
    if job.token.None? then c else c.(sched := I.RemoveRead(c.sched, EventFd(job.token.value)))
  }

  function SetTimer(c: State, f: nat, delay: nat, pick: T.Pick): State
    requires T.PicksEarliest(pick)
  {
    c.(timers := T.SetTimer(c.timers, Field(f, OnTimer), c.now + delay, pick))
  }

  function CancelTimer(c: State, f: nat): State {
    c.(timers := T.Cancel(c.timers, Field(f, OnTimer)))
  }

  // ------------------------------------------------------------------ await_suspend

  /** await_suspend of the read and write awaiters; it declines when the token is already cancelled. */
  function SuspendIo(c: State, f: nat, job: Job, pick: T.Pick): State
    requires T.PicksEarliest(pick) && job.Io?
  {
    var submitted := SubmitSocket(c, f, job);
    var timed := if job.delay.None? then submitted
                 else RefreshRegistration(SetTimer(submitted, f, job.delay.value, pick), pick);
    SubmitCancel(timed, f, job)
  }

  /** await_suspend of timer_awaiter */
  function SuspendWait(c: State, f: nat, job: Job, pick: T.Pick): State
    requires T.PicksEarliest(pick) && job.Wait?
  {
    var set_ := SetTimer(c, f, job.span, pick);
    set_.(sched := I.SubmitTimer(set_.sched, set_.timers.cur.read))
  }

  function DueOf(job: Job, now: int): Option<int> {
    match job
    case Io(_, _, delay, _) => if delay.Some? then Some(now + delay.value) else None
    case Wait(span) => Some(now + span)
  }

  function Suspend(c: State, f: nat, op: nat, job: Job, pick: T.Pick): State
    requires T.PicksEarliest(pick)
  {
    var registered := if job.Io? then SuspendIo(c, f, job, pick) else SuspendWait(c, f, job, pick);
    registered.(suspended := c.suspended[f := Suspension(op, job, DueOf(job, c.now))])
  }

  // ------------------------------------------------------------------ await_resume

  predicate HasExpired(c: State, f: nat) {
    T.IsCurrent(c.timers, Field(f, OnTimer)) && T.Remaining(c.timers, c.now) == 0
  }

  function ReleaseCancelled(c: State, f: nat, job: Job, pick: T.Pick): State
    requires T.PicksEarliest(pick) && job.Io? && job.token.Some?
  {
    var consumed := ConsumeToken(c, job.token.value);
    var untimed := if job.delay.Some? then CancelTimer(consumed, f) else consumed;
    var removed := RemoveCancel(RemoveSocket(untimed, job), job);
    if job.delay.Some? then RefreshRegistration(removed, pick) else removed
  }

  function ReleaseTimedOut(c: State, f: nat, job: Job, pick: T.Pick): State
    requires T.PicksEarliest(pick) && job.Io?
  {
    var uncancelled := RemoveCancel(c, job);
    var consumed := uncancelled.(timers := T.Consume(uncancelled.timers));
    RefreshRegistration(RemoveSocket(CancelTimer(consumed, f), job), pick)
  }

  function ReleaseReady(c: State, f: nat, job: Job, pick: T.Pick): State
    requires T.PicksEarliest(pick) && job.Io?
  {
    var uncancelled := RemoveCancel(c, job);
    var untimed := if job.delay.Some? then RefreshRegistration(CancelTimer(uncancelled, f), pick) else uncancelled;
    RemoveSocket(untimed, job)
  }

  /** await_resume of timer_awaiter. Its read of the expiration count blocks until the armed deadline. */
  function ReleaseWait(c: State, pick: T.Pick): State
    requires T.PicksEarliest(pick) && c.timers.fd.armed.Some? && !c.timers.fd.drained
  {
    var read_ := c.(now := T.ConsumeReturnsAt(c.timers, c.now), timers := T.Consume(c.timers));
    RefreshRegistration(read_.(timers := T.Advance(read_.timers, pick)), pick)
  }

  function VerdictOf(c: State, f: nat, job: Job): Verdict {
    if job.Wait? then Elapsed
    else if CancelRequested(c, job) then Cancelled
    else if job.delay.Some? && HasExpired(c, f) then TimedOut
    else Ready
  }

  /** The awaiter is gone afterwards, and its address free. */
  function Release(c: State, f: nat, job: Job, pick: T.Pick): State
    requires T.PicksEarliest(pick)
    requires job.Wait? ==> c.timers.fd.armed.Some? && !c.timers.fd.drained
  {
    var released :=
      match VerdictOf(c, f, job)
      case Elapsed => ReleaseWait(c, pick)
      case Cancelled => ReleaseCancelled(c, f, job, pick)
      case TimedOut => ReleaseTimedOut(c, f, job, pick)
      case Ready => ReleaseReady(c, f, job, pick);
    released.(suspended := released.suspended - {f})
  }

  // ------------------------------------------------------------------ the invariant

  /** The slots a suspended awaiter occupies, besides the shared timerfd. */
  ghost function ReadClaims(f: nat, job: Job): map<Fd, Ptr> {
    if job.Wait? then map[]
    else
      (if job.dir == Inbound then map[SocketFd(job.socket) := Field(f, OnSocket)] else map[]) +
      (if job.token.Some? then map[EventFd(job.token.value) := Field(f, OnCancel)] else map[])
  }

  ghost function WriteClaims(f: nat, job: Job): map<Fd, Ptr> {
    if job.Io? && job.dir == Outbound then map[SocketFd(job.socket) := Field(f, OnSocket)] else map[]
  }

  ghost predicate Contains(m: map<Fd, Ptr>, part: map<Fd, Ptr>) {
    forall fd <- part :: fd in m && m[fd] == part[fd]
  }

  /** Every slot of a suspended awaiter is registered for it. */
  ghost predicate Registered(readers: map<Fd, Ptr>, writers: map<Fd, Ptr>, suspended: map<nat, Suspension>) {
    forall f <- suspended ::
      Contains(readers, ReadClaims(f, suspended[f].job)) && Contains(writers, WriteClaims(f, suspended[f].job))
  }

  /** Every registered pointer belongs to a suspended awaiter that registered it there. */
  ghost predicate Backed(readers: map<Fd, Ptr>, writers: map<Fd, Ptr>, suspended: map<nat, Suspension>) {
    && (forall fd <- readers :: fd != TimerFd ==>
          && readers[fd].Field? && readers[fd].frame in suspended
          && var slots := ReadClaims(readers[fd].frame, suspended[readers[fd].frame].job);
             fd in slots && slots[fd] == readers[fd])
    && (forall fd <- writers ::
          && writers[fd].Field? && writers[fd].frame in suspended
          && var slots := WriteClaims(writers[fd].frame, suspended[writers[fd].frame].job);
             fd in slots && slots[fd] == writers[fd])
  }

  /** The timerfd is watched, for `cur`, exactly while there is a current timer. */
  ghost predicate TimerSlot(readers: map<Fd, Ptr>, cur: T.Task) {
    && (TimerFd in readers <==> !T.EmptyTask(cur))
    && (TimerFd in readers ==> readers[TimerFd] == cur.read)
  }

  /** The live timers are, one for one, those of the suspended awaiters that have a deadline. */
  ghost predicate Timed(timers: T.State, suspended: map<nat, Suspension>) {
    && (forall p <- timers.active ::
          p.Field? && p.part == OnTimer && p.frame in suspended && suspended[p.frame].due.Some?)
    && (forall f <- suspended :: suspended[f].due.Some? ==> Field(f, OnTimer) in timers.active)
    && (forall t <- T.Live(timers) ::
          t.read.Field? && t.read.frame in suspended && suspended[t.read.frame].due == Some(t.due))
  }

  /** Deadlines are those of timed awaiters, and a requested cancellation is still readable. */
  ghost predicate JobOk(tokens: map<nat, Token>, s: Suspension) {
    && (s.due.Some? <==> s.job.Wait? || s.job.delay.Some?)
    && (s.job.Io? && s.job.token.Some? && s.job.token.value in tokens && tokens[s.job.token.value].cancelled ==>
          tokens[s.job.token.value].counter > 0)
  }

  ghost predicate JobsOk(tokens: map<nat, Token>, suspended: map<nat, Suspension>) {
    forall f <- suspended :: JobOk(tokens, suspended[f])
  }

  ghost predicate Inv(c: State) {
    && c.now > 0
    && I.Inv(c.sched)
    && T.Inv(c.timers) && T.Settled(c.timers)
    && Registered(I.Readers(c.sched), I.Writers(c.sched), c.suspended)
    && Backed(I.Readers(c.sched), I.Writers(c.sched), c.suspended)
    && TimerSlot(I.Readers(c.sched), c.timers.cur)
    && Timed(c.timers, c.suspended)
    && JobsOk(c.tokens, c.suspended)
  }

  // ------------------------------------------------------------------ slots

  /** Maps that agree everywhere but at the timerfd. */
  ghost predicate SameSlots(a: map<Fd, Ptr>, b: map<Fd, Ptr>) {
    a - {TimerFd} == b - {TimerFd}
  }

  lemma SlotsShape(f: nat, job: Job)
    ensures TimerFd !in ReadClaims(f, job) && TimerFd !in WriteClaims(f, job)
    ensures forall fd <- ReadClaims(f, job) :: ReadClaims(f, job)[fd].Field? && ReadClaims(f, job)[fd].frame == f
    ensures forall fd <- WriteClaims(f, job) :: WriteClaims(f, job)[fd].Field? && WriteClaims(f, job)[fd].frame == f
  {
  }

  /** Taking the slots of one awaiter away leaves all others registered and none of its own. */
  lemma Unregister(r: map<Fd, Ptr>, w: map<Fd, Ptr>, suspended: map<nat, Suspension>, f: nat,
                   r': map<Fd, Ptr>, w': map<Fd, Ptr>)
    requires Registered(r, w, suspended) && Backed(r, w, suspended) && f in suspended
    requires SameSlots(r', r - ReadClaims(f, suspended[f].job).Keys)
    requires w' == w - WriteClaims(f, suspended[f].job).Keys
    ensures Registered(r', w', suspended - {f}) && Backed(r', w', suspended - {f})
  {
    hide ReadClaims, WriteClaims, Contains, Backed;
    forall g <- suspended - {f}
      ensures Contains(r', ReadClaims(g, suspended[g].job)) && Contains(w', WriteClaims(g, suspended[g].job))
    {
      assert Contains(r, ReadClaims(g, suspended[g].job)) && Contains(w, WriteClaims(g, suspended[g].job));
      assert Contains(r, ReadClaims(f, suspended[f].job)) && Contains(w, WriteClaims(f, suspended[f].job));
      KeepsSlots(r, w, suspended[g].job, g, suspended[f].job, f, r', w');
    }
    UnregisterBacked(r, w, suspended, f, r', w');
  }

  /** Two awaiters registered at the same time share no slot, so one's slots outlive the other's. */
  lemma KeepsSlots(r: map<Fd, Ptr>, w: map<Fd, Ptr>, job: Job, g: nat, other: Job, f: nat,
                   r': map<Fd, Ptr>, w': map<Fd, Ptr>)
    requires g != f && Contains(r, ReadClaims(g, job)) && Contains(w, WriteClaims(g, job))
    requires Contains(r, ReadClaims(f, other)) && Contains(w, WriteClaims(f, other))
    requires SameSlots(r', r - ReadClaims(f, other).Keys) && w' == w - WriteClaims(f, other).Keys
    ensures Contains(r', ReadClaims(g, job)) && Contains(w', WriteClaims(g, job))
  {
    SlotsShape(g, job);
    SlotsShape(f, other);
    hide ReadClaims, WriteClaims;
    var gone := r - ReadClaims(f, other).Keys;
    forall fd <- ReadClaims(g, job) ensures fd in r' && r'[fd] == ReadClaims(g, job)[fd] {
      assert fd in gone - {TimerFd};
      assert fd in r' - {TimerFd};
      assert r'[fd] == (r' - {TimerFd})[fd];
    }
  }

  lemma UnregisterBacked(r: map<Fd, Ptr>, w: map<Fd, Ptr>, suspended: map<nat, Suspension>, f: nat,
                         r': map<Fd, Ptr>, w': map<Fd, Ptr>)
    requires Backed(r, w, suspended) && f in suspended
    requires SameSlots(r', r - ReadClaims(f, suspended[f].job).Keys)
    requires w' == w - WriteClaims(f, suspended[f].job).Keys
    ensures Backed(r', w', suspended - {f})
  {
    hide ReadClaims, WriteClaims;
    var gone := r - ReadClaims(f, suspended[f].job).Keys;
    forall fd <- r' | fd != TimerFd
      ensures r'[fd].Field? && r'[fd].frame in suspended - {f}
      ensures var slots := ReadClaims(r'[fd].frame, suspended[r'[fd].frame].job); fd in slots && slots[fd] == r'[fd]
    {
      assert fd in r' - {TimerFd};
      assert fd in gone - {TimerFd};
      assert r'[fd] == (r' - {TimerFd})[fd] == r[fd];
    }
  }

  /** Adding an awaiter whose slots are free keeps everything registered and backed. */
  lemma Register(r: map<Fd, Ptr>, w: map<Fd, Ptr>, suspended: map<nat, Suspension>, f: nat, s: Suspension,
                 r': map<Fd, Ptr>, w': map<Fd, Ptr>)
    requires Registered(r, w, suspended) && Backed(r, w, suspended) && f !in suspended
    requires r.Keys !! ReadClaims(f, s.job).Keys && w.Keys !! WriteClaims(f, s.job).Keys
    requires SameSlots(r', r + ReadClaims(f, s.job))
    requires w' == w + WriteClaims(f, s.job)
    ensures Registered(r', w', suspended[f := s]) && Backed(r', w', suspended[f := s])
  {
    var more := r + ReadClaims(f, s.job);
    var all := suspended[f := s];
    SlotsShape(f, s.job);
    assert forall fd | fd != TimerFd ::
        (fd in r' <==> fd in r' - {TimerFd}) && (fd in more <==> fd in more - {TimerFd});
    forall g <- all
      ensures Contains(r', ReadClaims(g, all[g].job)) && Contains(w', WriteClaims(g, all[g].job))
    {
      SlotsShape(g, all[g].job);
      forall fd <- ReadClaims(g, all[g].job)
        ensures fd in r' && r'[fd] == ReadClaims(g, all[g].job)[fd]
      {
        if g != f { assert Contains(r, ReadClaims(g, suspended[g].job)); }
        assert fd in more - {TimerFd};
        assert r'[fd] == (r' - {TimerFd})[fd];
      }
      forall fd <- WriteClaims(g, all[g].job)
        ensures fd in w' && w'[fd] == WriteClaims(g, all[g].job)[fd]
      {
        if g != f { assert Contains(w, WriteClaims(g, suspended[g].job)); }
      }
    }
    forall fd <- r' | fd != TimerFd
      ensures r'[fd].Field? && r'[fd].frame in all
      ensures var slots := ReadClaims(r'[fd].frame, all[r'[fd].frame].job); fd in slots && slots[fd] == r'[fd]
    {
      assert fd in r' - {TimerFd};
      assert r'[fd] == (r' - {TimerFd})[fd] == more[fd];
    }
  }

  // ------------------------------------------------------------------ what the registrations do

  ghost predicate Sound(c: State) {
    I.Inv(c.sched) && T.Inv(c.timers)
  }

  /** Nothing but the scheduler and the timers differs. */
  ghost predicate SameRest(c: State, c': State) {
    c' == c.(sched := c'.sched, timers := c'.timers)
  }

  lemma RefreshRegistrationLemma(c: State, pick: T.Pick)
    requires T.PicksEarliest(pick) && Sound(c)
    ensures var c' := RefreshRegistration(c, pick);
      && Sound(c') && T.Settled(c'.timers) && SameRest(c, c')
      && T.Live(c'.timers) == T.Live(c.timers) && c'.timers.active == c.timers.active
      && c'.timers.nextId == c.timers.nextId
      && SameSlots(I.Readers(c'.sched), I.Readers(c.sched)) && I.Writers(c'.sched) == I.Writers(c.sched)
      && TimerSlot(I.Readers(c'.sched), c'.timers.cur)
  {
    hide I.Inv, T.Inv, T.Live, I.Readers, I.Writers, I.RemoveTimer, I.SubmitTimer, T.Refresh;
    T.RefreshLemma(c.timers, pick);
    var timers := T.Refresh(c.timers, pick);
    T.CurIsEarliest(timers);
    if T.EmptyTask(timers.cur) {
      I.RemoveTimerLemma(c.sched);
    } else {
      I.SubmitTimerLemma(c.sched, timers.cur.read);
    }
  }

  lemma RemoveSocketLemma(c: State, f: nat, job: Job)
    requires Sound(c) && job.Io?
    ensures var c' := RemoveSocket(c, job);
      && Sound(c') && c' == c.(sched := c'.sched)
      && I.Readers(c'.sched) == I.Readers(c.sched) - ReadClaims(f, job.(token := None)).Keys
      && I.Writers(c'.sched) == I.Writers(c.sched) - WriteClaims(f, job).Keys
  {
    hide I.Inv, T.Inv, I.Readers, I.Writers, I.RemoveRead, I.RemoveWrite;
    if job.dir == Inbound {
      I.RemoveReadLemma(c.sched, SocketFd(job.socket));
    } else {
      I.RemoveWriteLemma(c.sched, SocketFd(job.socket));
    }
  }

  lemma RemoveCancelLemma(c: State, f: nat, job: Job)
    requires Sound(c) && job.Io?
    ensures var c' := RemoveCancel(c, job);
      && Sound(c') && c' == c.(sched := c'.sched)
      && I.Readers(c'.sched) == I.Readers(c.sched) - CancelClaims(f, job).Keys
      && I.Writers(c'.sched) == I.Writers(c.sched)
  {
    hide I.Inv, T.Inv, I.Readers, I.Writers, I.RemoveRead;
    if job.token.Some? {
      I.RemoveReadLemma(c.sched, EventFd(job.token.value));
    }
  }

  ghost function CancelClaims(f: nat, job: Job): map<Fd, Ptr>
    requires job.Io?
  {
    if job.token.Some? then map[EventFd(job.token.value) := Field(f, OnCancel)] else map[]
  }

  /** The two kinds of read slots can be taken away in either order. */
  lemma TwoRemovals(r: map<Fd, Ptr>, f: nat, job: Job)
    requires job.Io?
    ensures var bare := ReadClaims(f, job.(token := None));
      && (r - bare.Keys) - CancelClaims(f, job).Keys == r - ReadClaims(f, job).Keys
      && (r - CancelClaims(f, job).Keys) - bare.Keys == r - ReadClaims(f, job).Keys
  {
    assert ReadClaims(f, job).Keys == ReadClaims(f, job.(token := None)).Keys + CancelClaims(f, job).Keys;
  }

  // ------------------------------------------------------------------ await_resume, shape

  /** What every exit of await_resume leaves: no slot and no live timer of this awaiter, all else as it was. */
  ghost predicate Released(c: State, f: nat, job: Job, c': State) {
    && Sound(c') && T.Settled(c'.timers)
    && SameSlots(I.Readers(c'.sched), I.Readers(c.sched) - ReadClaims(f, job).Keys)
    && I.Writers(c'.sched) == I.Writers(c.sched) - WriteClaims(f, job).Keys
    && TimerSlot(I.Readers(c'.sched), c'.timers.cur)
    && c'.timers.active == c.timers.active - {Field(f, OnTimer)} && c'.timers.nextId == c.timers.nextId
    && T.Live(c'.timers) == (set t <- T.Live(c.timers) | t.read != Field(f, OnTimer))
  }

  /** What await_resume may rely on about its own timer. */
  ghost predicate OwnTimer(c: State, f: nat, job: Job) {
    && (job.Io? && job.delay.None? ==> Field(f, OnTimer) !in c.timers.active)
    && (job.Wait? ==> c.timers.cur.read == Field(f, OnTimer))
  }

  lemma NoTimerToDrop(timers: T.State, p: Ptr)
    requires T.Inv(timers) && p !in timers.active
    ensures timers.active - {p} == timers.active
    ensures T.Live(timers) == (set t <- T.Live(timers) | t.read != p)
  {
  }

  lemma ReleaseCancelledLemma(c: State, f: nat, job: Job, pick: T.Pick)
    requires T.PicksEarliest(pick) && Sound(c) && T.Settled(c.timers) && OwnTimer(c, f, job)
    requires TimerSlot(I.Readers(c.sched), c.timers.cur)
    requires job.Io? && job.token.Some?
    ensures var c' := ReleaseCancelled(c, f, job, pick);
      && Released(c, f, job, c') && SameRest(ConsumeToken(c, job.token.value), c')
  {
    hide I.Inv, T.Inv, T.Live, T.Settled, I.Readers, I.Writers, RefreshRegistration, RemoveSocket, RemoveCancel,
      T.Cancel;
    var consumed := ConsumeToken(c, job.token.value);
    var untimed := if job.delay.Some? then CancelTimer(consumed, f) else consumed;
    T.CancelLemma(c.timers, Field(f, OnTimer));
    if job.delay.None? { NoTimerToDrop(c.timers, Field(f, OnTimer)); }
    var bare := RemoveSocket(untimed, job);
    RemoveSocketLemma(untimed, f, job);
    RemoveCancelLemma(bare, f, job);
    TwoRemovals(I.Readers(c.sched), f, job);
    var removed := RemoveCancel(bare, job);
    if job.delay.Some? {
      RefreshRegistrationLemma(removed, pick);
    } else {
      assert TimerFd !in ReadClaims(f, job);
    }
  }

  lemma ReleaseReadyLemma(c: State, f: nat, job: Job, pick: T.Pick)
    requires T.PicksEarliest(pick) && Sound(c) && T.Settled(c.timers) && OwnTimer(c, f, job)
    requires TimerSlot(I.Readers(c.sched), c.timers.cur)
    requires job.Io?
    ensures var c' := ReleaseReady(c, f, job, pick);
      Released(c, f, job, c') && SameRest(c, c')
  {
    hide I.Inv, T.Inv, T.Live, T.Settled, I.Readers, I.Writers, RefreshRegistration, RemoveSocket, RemoveCancel,
      T.Cancel;
    var uncancelled := RemoveCancel(c, job);
    RemoveCancelLemma(c, f, job);
    if job.delay.Some? {
      T.CancelLemma(c.timers, Field(f, OnTimer));
      RefreshRegistrationLemma(CancelTimer(uncancelled, f), pick);
      RemoveSocketLemma(RefreshRegistration(CancelTimer(uncancelled, f), pick), f, job);
    } else {
      NoTimerToDrop(c.timers, Field(f, OnTimer));
      RemoveSocketLemma(uncancelled, f, job);
    }
    TwoRemovals(I.Readers(c.sched), f, job);
    var untimed := if job.delay.Some? then RefreshRegistration(CancelTimer(uncancelled, f), pick) else uncancelled;
    SameSlotsMinus(I.Readers(untimed.sched), I.Readers(uncancelled.sched), ReadClaims(f, job.(token := None)).Keys);
    assert TimerFd !in ReadClaims(f, job.(token := None));
  }

  lemma SameSlotsMinus(a: map<Fd, Ptr>, b: map<Fd, Ptr>, gone: set<Fd>)
    requires SameSlots(a, b)
    ensures SameSlots(a - gone, b - gone)
  {
    assert (a - gone) - {TimerFd} == (a - {TimerFd}) - gone;
    assert (b - gone) - {TimerFd} == (b - {TimerFd}) - gone;
  }

  lemma ReleaseTimedOutLemma(c: State, f: nat, job: Job, pick: T.Pick)
    requires T.PicksEarliest(pick) && Sound(c) && T.Settled(c.timers)
    requires job.Io? && c.timers.cur.read == Field(f, OnTimer)
    ensures var c' := ReleaseTimedOut(c, f, job, pick);
      Released(c, f, job, c') && SameRest(c, c')
  {
    var uncancelled := RemoveCancel(c, job);
    var bare := RemoveSocket(uncancelled, job);
    var direct := RefreshRegistration(CancelTimer(bare, f), pick);
    hide I.Inv, T.Inv, T.Live, T.Settled, I.Readers, I.Writers, T.Cancel, T.Refresh, T.Consume, I.SubmitTimer,
      I.RemoveTimer, T.Earliest;
    T.CurIsEarliest(c.timers);
    T.RefreshAfterConsume(c.timers, pick);
    assert ReleaseTimedOut(c, f, job, pick) == direct by {
      assert RemoveSocket(CancelTimer(uncancelled.(timers := T.Consume(c.timers)), f), job)
          == bare.(timers := T.Cancel(T.Consume(c.timers), Field(f, OnTimer)));
    }
    hide RemoveSocket, RemoveCancel, RefreshRegistration, ReleaseTimedOut;
    RemoveCancelLemma(c, f, job);
    RemoveSocketLemma(uncancelled, f, job);
    TwoRemovals(I.Readers(c.sched), f, job);
    T.CancelLemma(c.timers, Field(f, OnTimer));
    RefreshRegistrationLemma(CancelTimer(bare, f), pick);
  }

  lemma ReleaseWaitLemma(c: State, f: nat, job: Job, pick: T.Pick)
    requires T.PicksEarliest(pick) && Sound(c) && T.Settled(c.timers)
    requires job.Wait? && c.timers.cur.read == Field(f, OnTimer)
    ensures c.timers.fd == T.Timerfd(Some(c.timers.cur.due), false)
    ensures var c' := ReleaseWait(c, pick);
      && Released(c, f, job, c')
      && c'.now == (if c.now < c.timers.cur.due then c.timers.cur.due else c.now)
      && SameRest(c.(now := c'.now), c')
  {
    hide I.Inv, T.Inv, T.Live, T.Settled, I.Readers, I.Writers, T.Advance, RefreshRegistration, T.Earliest;
    T.CurIsEarliest(c.timers);
    T.AdvanceAfterConsume(c.timers, pick);
    T.AdvanceLemma(c.timers, pick);
    WaitDropsOwn(c.timers, Field(f, OnTimer));
    var now := T.ConsumeReturnsAt(c.timers, c.now);
    RefreshRegistrationLemma(c.(now := now, timers := T.Advance(c.timers, pick)), pick);
  }

  lemma WaitDropsOwn(timers: T.State, p: Ptr)
    requires T.Inv(timers) && T.Settled(timers) && timers.cur.read == p && p != Null
    ensures T.Live(timers) - {timers.cur} == (set t <- T.Live(timers) | t.read != p)
  {
    T.CurIsEarliest(timers);
    assert timers.cur in T.Pending(timers);
  }

  // ------------------------------------------------------------------ await_resume, invariant

  lemma TimedWithout(timers: T.State, suspended: map<nat, Suspension>, f: nat, timers': T.State)
    requires Timed(timers, suspended)
    requires timers'.active == timers.active - {Field(f, OnTimer)}
    requires T.Live(timers') == (set t <- T.Live(timers) | t.read != Field(f, OnTimer))
    requires forall t <- T.Live(timers) :: t.read in timers.active
    ensures Timed(timers', suspended - {f})
  {
    hide T.Live;
    forall t <- T.Live(timers')
      ensures t.read.Field? && t.read.frame in suspended - {f} && (suspended - {f})[t.read.frame].due == Some(t.due)
    {
      assert t in T.Live(timers) && t.read in timers.active;
    }
  }

  lemma LiveIsActive(timers: T.State)
    requires T.Inv(timers)
    ensures forall t <- T.Live(timers) :: t.read in timers.active
    ensures !T.EmptyTask(timers.cur) && T.Settled(timers) ==> timers.cur in T.Live(timers)
  {
  }

  /** A token has one waiter: the one its eventfd is registered for. */
  lemma OneWaiterPerToken(r: map<Fd, Ptr>, w: map<Fd, Ptr>, suspended: map<nat, Suspension>, f: nat, g: nat)
    requires Registered(r, w, suspended) && f in suspended && g in suspended
    requires suspended[f].job.Io? && suspended[g].job.Io?
    requires suspended[f].job.token.Some? && suspended[f].job.token == suspended[g].job.token
    ensures f == g
  {
    var fd := EventFd(suspended[f].job.token.value);
    assert Contains(r, ReadClaims(f, suspended[f].job)) && Contains(r, ReadClaims(g, suspended[g].job));
    assert fd in ReadClaims(f, suspended[f].job) && fd in ReadClaims(g, suspended[g].job);
  }

  /** The token half of await_resume: only a cancelled token is touched, and nobody else waits on it. */
  lemma TokensStayOk(c: State, f: nat, tokens: map<nat, Token>)
    requires Inv(c) && f in c.suspended
    requires tokens == c.tokens || (c.suspended[f].job.Io? && c.suspended[f].job.token.Some?
               && tokens == ConsumeToken(c, c.suspended[f].job.token.value).tokens)
    ensures JobsOk(tokens, c.suspended - {f})
  {
    hide I.Inv, T.Inv, T.Live, T.Settled, I.Readers, I.Writers, Backed, Timed, TimerSlot, Registered;
    forall g <- c.suspended - {f} ensures JobOk(tokens, c.suspended[g]) {
      assert JobOk(c.tokens, c.suspended[g]);
      if tokens != c.tokens && c.suspended[g].job.Io? && c.suspended[g].job.token == c.suspended[f].job.token {
        OneWaiterPerToken(I.Readers(c.sched), I.Writers(c.sched), c.suspended, f, g);
        assert false;
      }
    }
  }

  /** The pieces of Release put together. */
  lemma ReleaseShape(c: State, f: nat, job: Job, pick: T.Pick)
    requires T.PicksEarliest(pick) && Sound(c) && T.Settled(c.timers) && OwnTimer(c, f, job)
    requires TimerSlot(I.Readers(c.sched), c.timers.cur)
    ensures job.Wait? ==> c.timers.fd == T.Timerfd(Some(c.timers.cur.due), false)
    ensures var c' := Release(c, f, job, pick);
      var verdict := VerdictOf(c, f, job);
      && Released(c, f, job, c')
      && c'.suspended == c.suspended - {f}
      && c'.now == (if job.Wait? && c.now < c.timers.cur.due then c.timers.cur.due else c.now)
      && (if verdict == Cancelled then
            job.Io? && job.token.Some? && c'.tokens == ConsumeToken(c, job.token.value).tokens
          else c'.tokens == c.tokens)
  {
    hide I.Inv, T.Inv, T.Live, T.Settled, I.Readers, I.Writers, Released, TimerSlot, T.Remaining, ReleaseWait,
      ReleaseCancelled, ReleaseTimedOut, ReleaseReady;
    match VerdictOf(c, f, job)
    case Elapsed =>
      ReleaseWaitLemma(c, f, job, pick);
      ReleasedIgnores(c, f, job, ReleaseWait(c, pick));
    case Cancelled =>
      ReleaseCancelledLemma(c, f, job, pick);
      ReleasedIgnores(c, f, job, ReleaseCancelled(c, f, job, pick));
    case TimedOut =>
      ReleaseTimedOutLemma(c, f, job, pick);
      ReleasedIgnores(c, f, job, ReleaseTimedOut(c, f, job, pick));
    case Ready =>
      ReleaseReadyLemma(c, f, job, pick);
      ReleasedIgnores(c, f, job, ReleaseReady(c, f, job, pick));
  }

  lemma ReleasedIgnores(c: State, f: nat, job: Job, c': State)
    requires Released(c, f, job, c')
    ensures Released(c, f, job, c'.(suspended := c'.suspended - {f}))
  {
  }

  /** A suspended awaiter's own timer: none, some live one, or, when resumed by the timerfd, `cur`. */
  lemma OwnTimerLemma(c: State, f: nat)
    requires Inv(c) && f in c.suspended
    requires c.suspended[f].job.Wait? ==> c.timers.cur.read == Field(f, OnTimer)
    ensures OwnTimer(c, f, c.suspended[f].job) && Sound(c)
  {
    hide I.Inv, T.Inv, T.Live, T.Settled, I.Readers, I.Writers, Backed, Registered, TimerSlot;
    assert JobOk(c.tokens, c.suspended[f]);
  }

  /** Every exit of await_resume tidies all of the awaiter's registrations and disturbs nobody else. */
  lemma ReleaseKeepsInv(c: State, f: nat, pick: T.Pick)
    requires T.PicksEarliest(pick) && Inv(c) && f in c.suspended
    requires c.suspended[f].job.Wait? ==> c.timers.cur.read == Field(f, OnTimer)
    ensures c.suspended[f].job.Wait? ==> c.timers.fd == T.Timerfd(Some(c.timers.cur.due), false)
    ensures var c' := Release(c, f, c.suspended[f].job, pick);
      && Inv(c') && c'.suspended == c.suspended - {f}
      && c'.now == (if c.suspended[f].job.Wait? && c.now < c.timers.cur.due then c.timers.cur.due else c.now)
      && (VerdictOf(c, f, c.suspended[f].job) != Cancelled ==> c'.tokens == c.tokens)
      && (VerdictOf(c, f, c.suspended[f].job) == Cancelled ==>
            && c.suspended[f].job.Io? && c.suspended[f].job.token.Some?
            && c'.tokens == ConsumeToken(c, c.suspended[f].job.token.value).tokens)
      && c'.timers.nextId == c.timers.nextId
      && T.Live(c'.timers) == (set t <- T.Live(c.timers) | t.read != Field(f, OnTimer))
  {
    var job := c.suspended[f].job;
    OwnTimerLemma(c, f);
    hide I.Inv, T.Inv, T.Live, T.Settled, I.Readers, I.Writers, Backed, Registered, TimerSlot, Timed, JobsOk, Release,
      VerdictOf, ReadClaims, WriteClaims, OwnTimer, SameSlots;
    ReleaseShape(c, f, job, pick);
    var c' := Release(c, f, job, pick);
    Unregister(I.Readers(c.sched), I.Writers(c.sched), c.suspended, f, I.Readers(c'.sched), I.Writers(c'.sched));
    LiveIsActive(c.timers);
    TimedWithout(c.timers, c.suspended, f, c'.timers);
    TokensStayOk(c, f, c'.tokens);
  }

  // ------------------------------------------------------------------ await_suspend

  /** What await_suspend leaves: the awaiter's slots and, if it has a deadline, one more live timer. */
  ghost predicate Enrolled(c: State, f: nat, job: Job, c': State) {
    && Sound(c') && T.Settled(c'.timers)
    && SameSlots(I.Readers(c'.sched), I.Readers(c.sched) + ReadClaims(f, job))
    && I.Writers(c'.sched) == I.Writers(c.sched) + WriteClaims(f, job)
    && TimerSlot(I.Readers(c'.sched), c'.timers.cur)
    && match DueOf(job, c.now)
       case None => c'.timers == c.timers
       case Some(due) =>
         && c'.timers.active == c.timers.active[Field(f, OnTimer) := c.timers.nextId]
         && T.Live(c'.timers) == T.Live(c.timers) + {T.Task(Field(f, OnTimer), due, c.timers.nextId)}
  }

  lemma SubmitSocketLemma(c: State, f: nat, job: Job)
    requires Sound(c) && job.Io?
    ensures var c' := SubmitSocket(c, f, job);
      && Sound(c') && c' == c.(sched := c'.sched)
      && I.Readers(c'.sched) == I.Readers(c.sched) + ReadClaims(f, job.(token := None))
      && I.Writers(c'.sched) == I.Writers(c.sched) + WriteClaims(f, job)
  {
    hide I.Inv, T.Inv, I.Readers, I.Writers, I.SubmitRead, I.SubmitWrite;
    if job.dir == Inbound {
      I.SubmitReadLemma(c.sched, SocketFd(job.socket), Field(f, OnSocket));
    } else {
      I.SubmitWriteLemma(c.sched, SocketFd(job.socket), Field(f, OnSocket));
    }
  }

  lemma SubmitCancelLemma(c: State, f: nat, job: Job)
    requires Sound(c) && job.Io? && !CancelRequested(c, job)
    ensures var c' := SubmitCancel(c, f, job);
      && Sound(c') && c' == c.(sched := c'.sched)
      && I.Readers(c'.sched) == I.Readers(c.sched) + CancelClaims(f, job)
      && I.Writers(c'.sched) == I.Writers(c.sched)
  {
    hide I.Inv, T.Inv, I.Readers, I.Writers, I.SubmitRead;
    if job.token.Some? {
      I.SubmitReadLemma(c.sched, EventFd(job.token.value), Field(f, OnCancel));
    }
  }

  lemma SameSlotsPlus(a: map<Fd, Ptr>, b: map<Fd, Ptr>, more: map<Fd, Ptr>)
    requires SameSlots(a, b)
    ensures SameSlots(a + more, b + more)
  {
    assert (a + more) - {TimerFd} == (a - {TimerFd}) + (more - {TimerFd});
    assert (b + more) - {TimerFd} == (b - {TimerFd}) + (more - {TimerFd});
  }

  lemma SuspendIoLemma(c: State, f: nat, job: Job, pick: T.Pick)
    requires T.PicksEarliest(pick) && Sound(c) && T.Settled(c.timers) && c.now > 0
    requires TimerSlot(I.Readers(c.sched), c.timers.cur)
    requires job.Io? && Field(f, OnTimer) !in c.timers.active && !CancelRequested(c, job)
    ensures var c' := SuspendIo(c, f, job, pick);
      && Enrolled(c, f, job, c') && SameRest(c, c')
  {
    hide I.Inv, T.Inv, T.Live, T.Settled, I.Readers, I.Writers, SubmitSocket, SubmitCancel, RefreshRegistration,
      T.SetTimer;
    var submitted := SubmitSocket(c, f, job);
    SubmitSocketLemma(c, f, job);
    var timed := submitted;
    if job.delay.Some? {
      var set_ := SetTimer(submitted, f, job.delay.value, pick);
      T.SetTimerLemma(c.timers, Field(f, OnTimer), c.now + job.delay.value, pick);
      RefreshRegistrationLemma(set_, pick);
      timed := RefreshRegistration(set_, pick);
    }
    hide SetTimer;
    SubmitCancelLemma(timed, f, job);
    TwoAdditions(I.Readers(c.sched), I.Readers(timed.sched), f, job);
  }

  /** The socket slot first, then, after the timer was set, the token slot. */
  lemma TwoAdditions(r: map<Fd, Ptr>, timed: map<Fd, Ptr>, f: nat, job: Job)
    requires job.Io? && SameSlots(timed, r + ReadClaims(f, job.(token := None)))
    ensures SameSlots(timed + CancelClaims(f, job), r + ReadClaims(f, job))
    ensures TimerFd !in CancelClaims(f, job) && TimerFd !in ReadClaims(f, job.(token := None))
  {
    SameSlotsPlus(timed, r + ReadClaims(f, job.(token := None)), CancelClaims(f, job));
    assert (r + ReadClaims(f, job.(token := None))) + CancelClaims(f, job) == r + ReadClaims(f, job);
  }

  lemma SuspendWaitLemma(c: State, f: nat, job: Job, pick: T.Pick)
    requires T.PicksEarliest(pick) && Sound(c) && T.Settled(c.timers) && c.now > 0
    requires job.Wait? && Field(f, OnTimer) !in c.timers.active
    ensures var c' := SuspendWait(c, f, job, pick);
      && Enrolled(c, f, job, c') && SameRest(c, c')
  {
    hide I.Inv, T.Inv, T.Live, T.Settled, I.Readers, I.Writers, T.SetTimer, I.SubmitTimer, T.Earliest;
    var timers := T.SetTimer(c.timers, Field(f, OnTimer), c.now + job.span, pick);
    T.SetTimerLemma(c.timers, Field(f, OnTimer), c.now + job.span, pick);
    T.CurIsEarliest(timers);
    assert T.Task(Field(f, OnTimer), c.now + job.span, c.timers.nextId) in T.Live(timers);
    I.SubmitTimerLemma(c.sched, timers.cur.read);
  }

  /** The slots a job wants are free: no other awaiter reads, or writes, this socket or waits on this token. */
  ghost predicate SlotsFree(c: State, job: Job) {
    forall g <- c.suspended :: NoClash(job, c.suspended[g].job)
  }

  predicate NoClash(a: Job, b: Job) {
    a.Io? && b.Io? ==>
      && !(a.dir == b.dir && a.socket == b.socket)
      && !(a.token.Some? && a.token == b.token)
  }

  lemma FreeSlots(c: State, f: nat, job: Job)
    requires Inv(c) && SlotsFree(c, job)
    ensures I.Readers(c.sched).Keys !! ReadClaims(f, job).Keys
    ensures I.Writers(c.sched).Keys !! WriteClaims(f, job).Keys
  {
    hide I.Inv, T.Inv, T.Live, T.Settled, I.Readers, I.Writers, Registered, TimerSlot, Timed, JobsOk;
    var r, w := I.Readers(c.sched), I.Writers(c.sched);
    forall fd <- r ensures fd !in ReadClaims(f, job) {
      assert fd != TimerFd ==> NoClash(job, c.suspended[r[fd].frame].job);
    }
    forall fd <- w ensures fd !in WriteClaims(f, job) {
      assert NoClash(job, c.suspended[w[fd].frame].job);
    }
  }

  lemma TimedWith(timers: T.State, suspended: map<nat, Suspension>, f: nat, s: Suspension, timers': T.State)
    requires Timed(timers, suspended) && f !in suspended
    requires s.due.None? ==> timers' == timers
    requires s.due.Some? ==>
      && timers'.active == timers.active[Field(f, OnTimer) := timers.nextId]
      && T.Live(timers') == T.Live(timers) + {T.Task(Field(f, OnTimer), s.due.value, timers.nextId)}
    ensures Timed(timers', suspended[f := s])
  {
    hide T.Live;
  }

  lemma NewFrameHasNoTimer(c: State, f: nat)
    requires Inv(c) && f !in c.suspended
    ensures Field(f, OnTimer) !in c.timers.active
  {
    hide I.Inv, T.Inv, T.Live, T.Settled, I.Readers, I.Writers, Registered, TimerSlot, Backed, JobsOk;
  }

  /** Suspending on free slots, at any address not in use, keeps the invariant. */
  lemma SuspendKeepsInv(c: State, f: nat, op: nat, job: Job, pick: T.Pick)
    requires T.PicksEarliest(pick) && Inv(c) && f !in c.suspended && SlotsFree(c, job)
    requires !CancelRequested(c, job)
    ensures var c' := Suspend(c, f, op, job, pick);
      && Inv(c') && c'.suspended == c.suspended[f := Suspension(op, job, DueOf(job, c.now))]
      && c'.now == c.now && c'.tokens == c.tokens
      && (forall t <- T.Live(c'.timers) ::
            || t in T.Live(c.timers)
            || (t.read == Field(f, OnTimer) && Some(t.due) == DueOf(job, c.now) && t.id == c.timers.nextId))
      && T.Live(c.timers) <= T.Live(c'.timers)
  {
    var s := Suspension(op, job, DueOf(job, c.now));
    NewFrameHasNoTimer(c, f);
    FreeSlots(c, f, job);
    hide I.Inv, T.Inv, T.Live, T.Settled, I.Readers, I.Writers, Registered, Backed, TimerSlot, Timed, SuspendIo,
      SuspendWait, ReadClaims, WriteClaims, SameSlots, JobsOk;
    var c1 := if job.Io? then SuspendIo(c, f, job, pick) else SuspendWait(c, f, job, pick);
    if job.Io? {
      SuspendIoLemma(c, f, job, pick);
    } else {
      SuspendWaitLemma(c, f, job, pick);
    }
    Register(I.Readers(c.sched), I.Writers(c.sched), c.suspended, f, s, I.Readers(c1.sched), I.Writers(c1.sched));
    TimedWith(c.timers, c.suspended, f, s, c1.timers);
    JobsOkPlus(c, f, s);
  }

  /** Suspending keeps the shared state good exactly if the slots it takes are free. */
  lemma SuspendNeedsFreeSlots(c: State, f: nat, op: nat, job: Job, pick: T.Pick)
    requires T.PicksEarliest(pick) && Inv(c) && f !in c.suspended && !CancelRequested(c, job)
    ensures Inv(Suspend(c, f, op, job, pick)) <==> SlotsFree(c, job)
  {
    hide Inv, Suspend, SlotsFree, NoClash, T.PicksEarliest;
    if SlotsFree(c, job) {
      SuspendKeepsInv(c, f, op, job, pick);
    } else {
      var g := Clashing(c, job);
      var c' := Suspend(c, f, op, job, pick);
      SuspendedAfter(c, f, op, job, pick);
      if Inv(c') {
        SingleWaiter(c', f, g);
      }
    }
  }

  ghost function Clashing(c: State, job: Job): (g: nat)
    requires !SlotsFree(c, job)
    ensures g in c.suspended && !NoClash(job, c.suspended[g].job)
  {
    var g :| g in c.suspended && !NoClash(job, c.suspended[g].job); g
  }

  lemma SuspendedAfter(c: State, f: nat, op: nat, job: Job, pick: T.Pick)
    requires T.PicksEarliest(pick)
    ensures Suspend(c, f, op, job, pick).suspended == c.suspended[f := Suspension(op, job, DueOf(job, c.now))]
  {
    hide SuspendIo, SuspendWait, T.PicksEarliest;
  }

  lemma JobsOkPlus(c: State, f: nat, s: Suspension)
    requires JobsOk(c.tokens, c.suspended) && !CancelRequested(c, s.job)
    requires s.due == DueOf(s.job, c.now)
    ensures JobsOk(c.tokens, c.suspended[f := s])
  {
    var all := c.suspended[f := s];
    forall g <- all ensures JobOk(c.tokens, all[g]) {
      if g != f { assert JobOk(c.tokens, c.suspended[g]); }
    }
  }

  // ------------------------------------------------------------------ declined suspensions, tokens, clock

  lemma SameSlotsKeep(r: map<Fd, Ptr>, w: map<Fd, Ptr>, suspended: map<nat, Suspension>, r': map<Fd, Ptr>)
    requires Registered(r, w, suspended) && Backed(r, w, suspended) && SameSlots(r', r)
    ensures Registered(r', w, suspended) && Backed(r', w, suspended)
  {
    assert forall fd | fd != TimerFd ::
        (fd in r' <==> fd in r' - {TimerFd}) && (fd in r <==> fd in r - {TimerFd});
    assert forall fd <- r | fd != TimerFd :: r'[fd] == (r' - {TimerFd})[fd];
    forall f <- suspended
      ensures Contains(r', ReadClaims(f, suspended[f].job)) && Contains(w, WriteClaims(f, suspended[f].job))
    {
      SlotsShape(f, suspended[f].job);
    }
  }

  /** A release that takes nothing back leaves the registrations as they were. */
  lemma NothingReleased(c: State, f: nat, job: Job, c': State)
    requires Inv(c) && f !in c.suspended && Released(c, f, job, c')
    requires I.Readers(c.sched).Keys !! ReadClaims(f, job).Keys
    requires I.Writers(c.sched).Keys !! WriteClaims(f, job).Keys
    ensures SameSlots(I.Readers(c'.sched), I.Readers(c.sched)) && I.Writers(c'.sched) == I.Writers(c.sched)
    ensures Registered(I.Readers(c'.sched), I.Writers(c'.sched), c.suspended)
    ensures Backed(I.Readers(c'.sched), I.Writers(c'.sched), c.suspended)
    ensures T.Live(c'.timers) == T.Live(c.timers) && Timed(c'.timers, c.suspended)
  {
    hide I.Inv, T.Inv, T.Live, T.Settled, I.Readers, I.Writers, Registered, Backed, TimerSlot, Timed, JobsOk,
      ReadClaims, WriteClaims, SameSlots;
    NewFrameHasNoTimer(c, f);
    LiveIsActive(c.timers);
    NoTimerToDrop(c.timers, Field(f, OnTimer));
    var r, w := I.Readers(c.sched), I.Writers(c.sched);
    assert r - ReadClaims(f, job).Keys == r && w - WriteClaims(f, job).Keys == w;
    SameSlotsKeep(r, w, c.suspended, I.Readers(c'.sched));
    assert c.suspended - {f} == c.suspended;
    TimedWithout(c.timers, c.suspended, f, c'.timers);
  }

  /** When await_suspend declines, await_resume runs on an awaiter that registered nothing, and finds
      nothing to take back: its removals hit no one else's registration. */
  lemma DeclinedKeepsInv(c: State, f: nat, job: Job, pick: T.Pick)
    requires T.PicksEarliest(pick) && Inv(c) && f !in c.suspended && SlotsFree(c, job)
    requires CancelRequested(c, job)
    ensures var c' := Release(c, f, job, pick);
      && Inv(c') && c'.suspended == c.suspended && c'.now == c.now
      && T.Live(c'.timers) == T.Live(c.timers)
      && SameSlots(I.Readers(c'.sched), I.Readers(c.sched)) && I.Writers(c'.sched) == I.Writers(c.sched)
      && c'.tokens == ConsumeToken(c, job.token.value).tokens
  {
    NewFrameHasNoTimer(c, f);
    FreeSlots(c, f, job);
    hide I.Inv, T.Inv, T.Live, T.Settled, I.Readers, I.Writers, Registered, Backed, TimerSlot, Timed, JobsOk, Release,
      ReadClaims, WriteClaims, SlotsFree, SameSlots;
    ReleaseShape(c, f, job, pick);
    assert c.suspended - {f} == c.suspended;
    NothingReleased(c, f, job, Release(c, f, job, pick));
    NobodyWaitsOn(c, job);
  }

  /** The await_resume after a declined await_suspend keeps the shared state good exactly if the slots it
      clears are free. */
  lemma DeclineNeedsFreeSlots(c: State, f: nat, job: Job, pick: T.Pick)
    requires T.PicksEarliest(pick) && Inv(c) && f !in c.suspended && CancelRequested(c, job)
    ensures Inv(Release(c, f, job, pick)) <==> SlotsFree(c, job)
  {
    hide Inv, Release, SlotsFree, NoClash, T.PicksEarliest;
    if SlotsFree(c, job) {
      DeclinedKeepsInv(c, f, job, pick);
    } else {
      var g := Clashing(c, job);
      var c' := Release(c, f, job, pick);
      DeclinedShape(c, f, job, pick);
      if Inv(c') {
        SlotTaken(c', f, g, job, c.suspended[g].job);
      }
    }
  }

  /** What a declined start clears, whether or not it is its own. */
  lemma DeclinedShape(c: State, f: nat, job: Job, pick: T.Pick)
    requires T.PicksEarliest(pick) && Inv(c) && f !in c.suspended && CancelRequested(c, job)
    ensures var c' := Release(c, f, job, pick);
      && Released(c, f, job, c') && c'.suspended == c.suspended
      && c'.tokens == ConsumeToken(c, job.token.value).tokens
      && (forall fd <- ReadClaims(f, job) :: fd !in I.Readers(c'.sched))
      && (forall fd <- WriteClaims(f, job) :: fd !in I.Writers(c'.sched))
  {
    hide I.Inv, T.Inv, T.Live, T.Settled, I.Readers, I.Writers, Registered, Backed, TimerSlot, Timed, JobsOk,
      Release, T.PicksEarliest;
    NewFrameHasNoTimer(c, f);
    ReleaseShape(c, f, job, pick);
    assert c.suspended - {f} == c.suspended;
    var c' := Release(c, f, job, pick);
    forall fd <- ReadClaims(f, job) ensures fd !in I.Readers(c'.sched) {
      assert fd !in (I.Readers(c.sched) - ReadClaims(f, job).Keys) - {TimerFd};
      assert fd in I.Readers(c'.sched) ==> fd in I.Readers(c'.sched) - {TimerFd};
    }
  }

  lemma SlotTaken(c: State, f: nat, g: nat, job: Job, other: Job)
    requires Inv(c) && g in c.suspended && c.suspended[g].job == other && !NoClash(job, other)
    ensures (exists fd :: fd in ReadClaims(f, job) && fd in I.Readers(c.sched))
         || (exists fd :: fd in WriteClaims(f, job) && fd in I.Writers(c.sched))
  {
    hide I.Inv, T.Inv, T.Live, T.Settled, I.Readers, I.Writers, Backed, TimerSlot, Timed, JobsOk;
    assert Contains(I.Readers(c.sched), ReadClaims(g, other)) && Contains(I.Writers(c.sched), WriteClaims(g, other));
    var socket, token := SocketFd(job.socket), if job.token.Some? then EventFd(job.token.value) else TimerFd;
    if job.dir == other.dir && job.socket == other.socket {
      assert (socket in ReadClaims(f, job) && socket in ReadClaims(g, other))
          || (socket in WriteClaims(f, job) && socket in WriteClaims(g, other));
    } else {
      assert token in ReadClaims(f, job) && token in ReadClaims(g, other);
    }
  }

  lemma NobodyWaitsOn(c: State, job: Job)
    requires JobsOk(c.tokens, c.suspended) && SlotsFree(c, job) && job.Io? && job.token.Some?
    ensures JobsOk(ConsumeToken(c, job.token.value).tokens, c.suspended)
  {
    var tokens := ConsumeToken(c, job.token.value).tokens;
    forall g <- c.suspended ensures JobOk(tokens, c.suspended[g]) {
      assert JobOk(c.tokens, c.suspended[g]) && NoClash(job, c.suspended[g].job);
    }
  }

  lemma RequestCancelKeepsInv(c: State, k: nat)
    requires Inv(c)
    ensures Inv(RequestCancel(c, k)) && CancelRequested(RequestCancel(c, k), Io(Inbound, 0, None, Some(k)))
  {
    hide I.Inv, T.Inv, T.Live, T.Settled, I.Readers, I.Writers, Registered, Backed, TimerSlot, Timed;
    var tokens := RequestCancel(c, k).tokens;
    forall g <- c.suspended ensures JobOk(tokens, c.suspended[g]) {
      assert JobOk(c.tokens, c.suspended[g]);
    }
  }

  // ------------------------------------------------------------------ consequences

  /** Nothing the loop stores refers to an address at which no awaiter is suspended. */
  lemma NoTrace(c: State, f: nat)
    requires Inv(c) && f !in c.suspended
    ensures forall fd <- I.Readers(c.sched) :: I.Readers(c.sched)[fd].Field? && I.Readers(c.sched)[fd].frame != f
    ensures forall fd <- I.Writers(c.sched) :: I.Writers(c.sched)[fd].Field? && I.Writers(c.sched)[fd].frame != f
    ensures forall t <- T.Live(c.timers) :: t.read.Field? && t.read.frame != f
    ensures c.timers.cur.read.Field? ==> c.timers.cur.read.frame != f
  {
    LiveIsActive(c.timers);
    T.CurIsEarliest(c.timers);
    hide I.Inv, T.Inv, T.Live, T.Settled, I.Readers, I.Writers, Registered, JobsOk, ReadClaims, WriteClaims;
  }

  /** A suspended awaiter keeps the loop running: one of its descriptors, or the timerfd, is in the table. */
  lemma SuspendedIsWatched(c: State, f: nat)
    requires Inv(c) && f in c.suspended
    ensures I.Readers(c.sched).Keys + I.Writers(c.sched).Keys != {}
  {
    hide I.Inv, T.Inv, T.Live, T.Settled, I.Readers, I.Writers, Backed, T.TaskOf;
    assert JobOk(c.tokens, c.suspended[f]);
    var job := c.suspended[f].job;
    var r, w := I.Readers(c.sched), I.Writers(c.sched);
    assert Contains(r, ReadClaims(f, job)) && Contains(w, WriteClaims(f, job));
    if job.Io? {
      var fd := SocketFd(job.socket);
      assert fd in ReadClaims(f, job) || fd in WriteClaims(f, job);
      assert fd in r.Keys + w.Keys;
    } else {
      assert Field(f, OnTimer) in c.timers.active;
      assert T.TaskOf(c.timers, Field(f, OnTimer)) in T.Live(c.timers);
      T.CurIsEarliest(c.timers);
      assert TimerFd in r;
    }
  }

  lemma IdleIsUnwatched(c: State)
    requires Inv(c) && c.suspended.Keys == {}
    ensures I.Readers(c.sched).Keys == {} && I.Writers(c.sched).Keys == {}
  {
    LiveIsActive(c.timers);
    hide I.Inv, T.Inv, T.Live, T.Settled, I.Readers, I.Writers, JobsOk, Registered;
  }

  /** fd_to_op is empty exactly when nothing is suspended, timers behind `cur` included. */
  lemma EmptyTableIffIdle(c: State)
    requires Inv(c)
    ensures c.sched.table.Keys == {} <==> c.suspended.Keys == {}
  {
    I.TableIsTwoMaps(c.sched);
    if f :| f in c.suspended {
      SuspendedIsWatched(c, f);
    } else {
      IdleIsUnwatched(c);
    }
  }

  /** The owner of `cur`: its deadline is the armed one, and the earliest of all. */
  lemma CurrentOwner(c: State)
    requires Inv(c) && !T.EmptyTask(c.timers.cur)
    ensures c.timers.cur.read.Field? && c.timers.cur.read.part == OnTimer
    ensures c.timers.cur.read.frame in c.suspended
    ensures c.suspended[c.timers.cur.read.frame].due == Some(c.timers.cur.due)
    ensures T.Earliest(c.timers.cur, T.Live(c.timers))
    ensures c.timers.fd == T.Timerfd(Some(c.timers.cur.due), false)
  {
    hide I.Inv, T.Inv, T.Live, T.Settled, I.Readers, I.Writers, Registered, Backed, JobsOk, T.Earliest;
    LiveIsActive(c.timers);
    T.CurIsEarliest(c.timers);
  }

  /** A timeout is reported exactly to the owner of `cur`, uncancelled, at or after its deadline. */
  lemma TimedOutIff(c: State, f: nat)
    requires Inv(c) && f in c.suspended
    ensures var s := c.suspended[f];
      VerdictOf(c, f, s.job) == TimedOut <==>
        && s.job.Io? && !CancelRequested(c, s.job)
        && c.timers.cur.read == Field(f, OnTimer) && s.due.Some? && s.due.value <= c.now
  {
    T.CurIsEarliest(c.timers);
    hide I.Inv, T.Inv, T.Live, T.Settled, I.Readers, I.Writers, Registered, Backed, TimerSlot, Timed, T.Earliest;
    assert JobOk(c.tokens, c.suspended[f]);
    if c.timers.cur.read == Field(f, OnTimer) {
      OwnerOfCurrent(c);
    }
  }

  lemma OwnerOfCurrent(c: State)
    requires Inv(c) && c.timers.cur.read != Null
    ensures !T.EmptyTask(c.timers.cur) && c.timers.cur.read.Field? && c.timers.cur.read.frame in c.suspended
    ensures c.suspended[c.timers.cur.read.frame].due == Some(c.timers.cur.due)
    ensures c.timers.fd == T.Timerfd(Some(c.timers.cur.due), false)
  {
    T.CurIsEarliest(c.timers);
    CurrentOwner(c);
  }

  /** A timer event resumes the owner of `cur`; it comes out as an I/O attempt exactly when the event is
      stale, that is when the deadline the timerfd is now armed at is still ahead, and the owner is a read
      or write that was not cancelled. Then, too, a wait_for's read of the timerfd would block. */
  lemma TimerEventIsStaleIff(c: State)
    requires Inv(c) && TimerFd in I.Readers(c.sched)
    ensures var p := I.Readers(c.sched)[TimerFd];
      && p == c.timers.cur.read && p.Field? && p.frame in c.suspended
      && var job := c.suspended[p.frame].job;
         && (VerdictOf(c, p.frame, job) == Ready <==>
               job.Io? && !CancelRequested(c, job) && !T.Readable(c.timers, c.now))
         && (T.Readable(c.timers, c.now) <==> c.timers.cur.due <= c.now)
         && (T.ConsumeReturnsAt(c.timers, c.now) == c.now <==> c.timers.cur.due <= c.now)
  {
    CurrentOwner(c);
    TimedOutIff(c, c.timers.cur.read.frame);
    hide I.Inv, T.Inv, T.Live, T.Settled, I.Readers, I.Writers, Registered, Backed, Timed, JobsOk, T.Earliest;
  }

  /** The pointer p is in the read slot of fd because the awaiter it leads to registered it there; at the
      timerfd, because that awaiter owns `cur`. */
  ghost predicate ReadsAt(c: State, fd: Fd, p: Ptr) {
    && p.Field? && p.frame in c.suspended
    && if fd == TimerFd then
         p == Field(p.frame, OnTimer) == c.timers.cur.read && c.suspended[p.frame].due == Some(c.timers.cur.due)
       else
         var slots := ReadClaims(p.frame, c.suspended[p.frame].job);
         fd in slots && slots[fd] == p
  }

  ghost predicate WritesAt(c: State, fd: Fd, p: Ptr) {
    && p.Field? && p.frame in c.suspended
    && var slots := WriteClaims(p.frame, c.suspended[p.frame].job);
       fd in slots && slots[fd] == p
  }

  /** Whatever a slot holds was put there by the awaiter it leads to. */
  lemma SlotsAreOwn(c: State, fd: Fd)
    requires Inv(c)
    ensures I.ReadSlot(c.sched, fd) != Null ==> ReadsAt(c, fd, I.ReadSlot(c.sched, fd))
    ensures I.WriteSlot(c.sched, fd) != Null ==> WritesAt(c, fd, I.WriteSlot(c.sched, fd))
  {
    hide I.Inv, T.Inv, T.Live, T.Settled, I.Readers, I.Writers, Registered, Timed, JobsOk, ReadClaims, WriteClaims;
    I.Slots(c.sched, fd);
    if fd == TimerFd && fd in I.Readers(c.sched) {
      CurrentOwner(c);
    }
  }

  lemma WriterIsRegistered(c: State, f: nat)
    requires Inv(c) && f in c.suspended && c.suspended[f].job.Io? && c.suspended[f].job.dir == Outbound
    ensures I.WriteSlot(c.sched, SocketFd(c.suspended[f].job.socket)) == Field(f, OnSocket)
  {
    hide I.Inv, T.Inv, T.Live, T.Settled, I.Readers, I.Writers, Backed, TimerSlot, Timed, JobsOk;
    var fd := SocketFd(c.suspended[f].job.socket);
    I.Slots(c.sched, fd);
    assert Contains(I.Writers(c.sched), WriteClaims(f, c.suspended[f].job));
    assert fd in WriteClaims(f, c.suspended[f].job);
  }

  lemma TokenIsWatched(c: State, f: nat)
    requires Inv(c) && f in c.suspended && c.suspended[f].job.Io? && c.suspended[f].job.token.Some?
    ensures var k := c.suspended[f].job.token.value;
      && I.ReadSlot(c.sched, EventFd(k)) == Field(f, OnCancel)
      && (TokenOf(c, k).cancelled ==> TokenOf(c, k).counter > 0)
  {
    hide I.Inv, T.Inv, T.Live, T.Settled, I.Readers, I.Writers, Backed, TimerSlot, Timed;
    var job := c.suspended[f].job;
    assert JobOk(c.tokens, c.suspended[f]);
    assert Contains(I.Readers(c.sched), ReadClaims(f, job));
    assert EventFd(job.token.value) in ReadClaims(f, job);
    I.Slots(c.sched, EventFd(job.token.value));
  }

  /** No await_suspend, await_resume or request clears a token's flag. */
  lemma FlagStaysSet(c: State, f: nat, op: nat, job: Job, pick: T.Pick, k: nat)
    requires T.PicksEarliest(pick) && TokenOf(c, k).cancelled
    ensures TokenOf(Suspend(c, f, op, job, pick), k).cancelled
    ensures (job.Wait? ==> c.timers.fd.armed.Some? && !c.timers.fd.drained) ==>
      TokenOf(Release(c, f, job, pick), k).cancelled
  {
    hide T.PicksEarliest, T.Refresh, T.Cancel, T.SetTimer, T.Advance, HasExpired, I.RemoveRead, I.RemoveWrite,
      I.RemoveTimer, I.SubmitTimer, I.SubmitRead, I.SubmitWrite;
  }

  /** A requested cancellation is never lost: it is registered for this awaiter, its eventfd is readable,
      and whatever event resumes the awaiter next, the outcome is Cancelled. */
  lemma CancellationIsNotLost(c: State, f: nat)
    requires Inv(c) && f in c.suspended && CancelRequested(c, c.suspended[f].job)
    ensures var job := c.suspended[f].job;
      var fd := EventFd(job.token.value);
      && fd in I.Readers(c.sched) && I.Readers(c.sched)[fd] == Field(f, OnCancel)
      && TokenOf(c, job.token.value).counter > 0
      && VerdictOf(c, f, job) == Cancelled
  {
    hide I.Inv, T.Inv, T.Live, T.Settled, I.Readers, I.Writers, Backed, Timed, TimerSlot;
    var job := c.suspended[f].job;
    assert JobOk(c.tokens, c.suspended[f]);
    assert Contains(I.Readers(c.sched), ReadClaims(f, job));
    assert EventFd(job.token.value) in ReadClaims(f, job);
  }

  /** At most one awaiter waits for each direction of a socket, and for each token. */
  lemma SingleWaiter(c: State, f: nat, g: nat)
    requires Inv(c) && f in c.suspended && g in c.suspended && f != g
    ensures NoClash(c.suspended[f].job, c.suspended[g].job)
  {
    hide I.Inv, T.Inv, T.Live, T.Settled, I.Readers, I.Writers, Backed, Timed, TimerSlot, JobsOk;
    var a, b := c.suspended[f].job, c.suspended[g].job;
    var r, w := I.Readers(c.sched), I.Writers(c.sched);
    assert Contains(r, ReadClaims(f, a)) && Contains(r, ReadClaims(g, b));
    assert Contains(w, WriteClaims(f, a)) && Contains(w, WriteClaims(g, b));
    assert a.Io? && a.dir == Inbound ==> SocketFd(a.socket) in ReadClaims(f, a);
    assert a.Io? && a.dir == Outbound ==> SocketFd(a.socket) in WriteClaims(f, a);
    if a.Io? && b.Io? && a.token.Some? && a.token == b.token {
      OneWaiterPerToken(r, w, c.suspended, f, g);
    }
  }
}
