/**
 The awaiters as the source has them: await_suspend and await_resume as sequences of calls on
 the shared scheduler, timer queue and tokens. Each is tied to its function in module Awaiters,
 and keeps the loop's invariant.
 */
module Reactors {
  import opened Handles
  import T = Timers
  import I = Interest
  import opened TimerEvents
  import opened Schedulers
  import A = Awaiters
  import opened Awaiters

  /** cancel_token's shared state: a sticky flag and an eventfd. */
  class CancelToken {
    var cancelled: bool
    var counter: nat

    ghost function View(): Token
      reads this
    {
      Token(cancelled, counter)
    }

    constructor ()
      ensures View() == Token(false, 0)
    {
      cancelled := false;
      counter := 0;
    }

    /** The compare-exchange lets only the first request write to the eventfd. */
    method Request()
      modifies this
      ensures View() == Requested(old(View())) && cancelled
      ensures counter == old(counter) + if old(cancelled) then 0 else 1
    {
      if !cancelled {
        cancelled := true;
        counter := counter + 1;
      }
    }

    method ConsumeEvent()
      modifies this`counter
      ensures View() == Drained(old(View())) && counter == 0
    {
      counter := 0;
    }
  }

  /** An awaiter that owns `cur` finds the timerfd armed and its count unread. */
  lemma Expiry(c: A.State, f: nat)
    requires A.Inv(c)
    ensures c.timers.cur.read == Field(f, OnTimer) ==> c.timers.fd == T.Timerfd(Some(c.timers.cur.due), false)
  {
    T.CurIsEarliest(c.timers);
  }

  /** The end of a delay, as far as AwaitResumeWait reports it. */
  lemma WaitReleased(c: A.State, f: nat, pick: T.Pick)
    requires T.PicksEarliest(pick) && A.Inv(c) && f in c.suspended && c.suspended[f].job.Wait?
    requires c.timers.cur.read == Field(f, OnTimer)
    ensures c.timers.fd.armed.Some? && !c.timers.fd.drained
    ensures var c' := Release(c, f, c.suspended[f].job, pick); A.Inv(c') && c'.now >= c.timers.cur.due
  {
    hide A.Inv, Release, T.PicksEarliest;
    ReleaseKeepsInv(c, f, pick);
  }

  lemma FreeForWait(c: A.State, job: Job)
    requires job.Wait?
    ensures SlotsFree(c, job) && !CancelRequested(c, job)
  {
  }

  class Reactor {
    const scheduler: Scheduler
    const timer: TimerEvent
    var now: int
    var tokens: map<nat, Token>
    var suspended: map<nat, Suspension>

    ghost function View(): A.State
      reads this, scheduler, scheduler.epoll, timer
    {
      A.State(scheduler.View(), timer.View(), now, tokens, suspended)
    }

    constructor (start: int)
      requires start > 0
      ensures fresh(scheduler) && fresh(scheduler.epoll) && fresh(timer)
      ensures View() == A.State(I.INITIAL, T.INITIAL, start, map[], map[]) && A.Inv(View())
    {
      scheduler := new Scheduler();
      timer := new TimerEvent();
      now := start;
      tokens := map[];
      suspended := map[];
    }

    /** refresh_timer_registration */
    method RefreshTimerRegistration(pick: T.Pick)
      requires T.PicksEarliest(pick)
      modifies timer, scheduler, scheduler.epoll
      ensures View() == RefreshRegistration(old(View()), pick)
    {
      timer.RefreshCurrentTimer(pick);
      var empty := timer.CurrentEmpty();
      if empty {
        scheduler.RemoveTimerOp();
      } else {
        scheduler.SubmitTimerOp(timer.cur.read);
      }
    }

    method TokenCancelled(job: Job) returns (yes: bool)
      ensures yes <==> CancelRequested(View(), job)
    {
      yes := job.Io? && job.token.Some? && job.token.value in tokens && tokens[job.token.value].cancelled;
    }

    method SubmitSocketOp(f: nat, job: Job)
      requires job.Io?
      modifies scheduler, scheduler.epoll
      ensures View() == SubmitSocket(old(View()), f, job)
    {
      if job.dir == Inbound {
        scheduler.SubmitReader(SocketFd(job.socket), Field(f, OnSocket));
      } else {
        scheduler.SubmitWriter(SocketFd(job.socket), Field(f, OnSocket));
      }
    }

    method RemoveSocketOp(job: Job)
      requires job.Io?
      modifies scheduler, scheduler.epoll
      ensures View() == RemoveSocket(old(View()), job)
    {
      if job.dir == Inbound {
        scheduler.RemoveReader(SocketFd(job.socket));
      } else {
        scheduler.RemoveWriter(SocketFd(job.socket));
      }
    }

    /** cancel_slot::submit */
    method SubmitCancelSlot(f: nat, job: Job)
      requires job.Io?
      modifies scheduler, scheduler.epoll
      ensures View() == SubmitCancel(old(View()), f, job)
    {
      if job.token.Some? {
        var yes := TokenCancelled(job);
        if !yes {
          scheduler.SubmitReader(EventFd(job.token.value), Field(f, OnCancel));
        }
      }
    }

    /** cancel_slot::remove */
    method RemoveCancelSlot(job: Job)
      requires job.Io?
      modifies scheduler, scheduler.epoll
      ensures View() == RemoveCancel(old(View()), job)
    {
      if job.token.Some? {
        scheduler.RemoveReader(EventFd(job.token.value));
      }
    }

    /** set_timer and the registration that follows it. */
    method ArmTimeout(f: nat, delay: nat, pick: T.Pick)
      requires T.PicksEarliest(pick)
      modifies timer, scheduler, scheduler.epoll
      ensures View() == RefreshRegistration(SetTimer(old(View()), f, delay, pick), pick)
    {
      hide T.SetTimer, RefreshRegistration, T.Inv, T.Live;
      timer.SetTimerAt(Field(f, OnTimer), now + delay, pick);
      RefreshTimerRegistration(pick);
    }

    /** What await_suspend registers. */
    method RegisterIo(f: nat, job: Job, pick: T.Pick)
      requires T.PicksEarliest(pick) && job.Io?
      modifies timer, scheduler, scheduler.epoll
      ensures View() == SuspendIo(old(View()), f, job, pick)
    {
      hide SetTimer, RefreshRegistration, SubmitSocket, SubmitCancel, T.PicksEarliest;
      SubmitSocketOp(f, job);
      if job.delay.Some? {
        ArmTimeout(f, job.delay.value, pick);
      }
      SubmitCancelSlot(f, job);
    }

    /** await_suspend of the read and write awaiters: false if it declines. */
    method AwaitSuspendIo(f: nat, op: nat, job: Job, pick: T.Pick) returns (suspends: bool)
      requires T.PicksEarliest(pick) && job.Io?
      modifies this`suspended, timer, scheduler, scheduler.epoll
      ensures suspends <==> !CancelRequested(old(View()), job)
      ensures View() == if suspends then Suspend(old(View()), f, op, job, pick) else old(View())
      ensures old(A.Inv(View()) && f !in suspended) ==>
        (A.Inv(View()) <==> !suspends || SlotsFree(old(View()), job))
    {
      hide A.Inv, SlotsFree, SuspendIo, T.PicksEarliest;
      ghost var before := View();
      var yes := TokenCancelled(job);
      if yes {
        return false;
      }
      if A.Inv(before) && f !in before.suspended { SuspendNeedsFreeSlots(before, f, op, job, pick); }
      RegisterIo(f, job, pick);
      suspended := suspended[f := Suspension(op, job, DueOf(job, now))];
      suspends := true;
    }

    /** await_suspend of timer_awaiter */
    method AwaitSuspendWait(f: nat, op: nat, job: Job, pick: T.Pick)
      requires T.PicksEarliest(pick) && job.Wait?
      modifies this`suspended, timer, scheduler, scheduler.epoll
      ensures View() == Suspend(old(View()), f, op, job, pick)
      ensures old(A.Inv(View()) && f !in suspended) ==> A.Inv(View())
    {
      hide A.Inv, SlotsFree, T.SetTimer, T.Inv, T.Live, T.PicksEarliest;
      ghost var before := View();
      if A.Inv(before) && f !in before.suspended {
        FreeForWait(before, job);
        SuspendKeepsInv(before, f, op, job, pick);
      }
      timer.SetTimerAt(Field(f, OnTimer), now + job.span, pick);
      scheduler.SubmitTimerOp(timer.cur.read);
      suspended := suspended[f := Suspension(op, job, DueOf(job, now))];
    }

    /** await_resume of the read and write awaiters, up to the recv or send: of a suspended awaiter, or of
        one whose await_suspend declined. The read of the timerfd never blocks. */
    method AwaitResumeIo(f: nat, job: Job, pick: T.Pick) returns (verdict: Verdict)
      requires T.PicksEarliest(pick) && job.Io? && A.Inv(View())
      requires (f in suspended && suspended[f].job == job)
            || (f !in suspended && CancelRequested(View(), job) && SlotsFree(View(), job))
      modifies this`suspended, this`tokens, timer, scheduler, scheduler.epoll
      ensures verdict == VerdictOf(old(View()), f, job) != Elapsed
      ensures View() == Release(old(View()), f, job, pick) && A.Inv(View())
    {
      ghost var before := View();
      hide A.Inv, SlotsFree, T.PicksEarliest, ReleaseCancelled, ReleaseTimedOut, ReleaseReady;
      if f in suspended {
        ReleaseKeepsInv(before, f, pick);
      } else {
        DeclinedKeepsInv(before, f, job, pick);
      }
      Expiry(before, f);
      var yes := TokenCancelled(job);
      if yes {
        ResumeCancelled(f, job, pick);
        verdict := Cancelled;
      } else if job.delay.Some? && timer.cur.read == Field(f, OnTimer) && RemainingIsZero() {
        ResumeTimedOut(f, job, pick);
        verdict := TimedOut;
      } else {
        ResumeReady(f, job, pick);
        verdict := Ready;
      }
      suspended := suspended - {f};
    }

    method ResumeTimedOut(f: nat, job: Job, pick: T.Pick)
      requires T.PicksEarliest(pick) && job.Io?
      requires timer.timerfd.armed.Some? && !timer.timerfd.drained && timer.timerfd.armed.value <= now
      modifies timer, scheduler, scheduler.epoll
      ensures View() == ReleaseTimedOut(old(View()), f, job, pick)
    {
      hide RefreshRegistration, RemoveSocket, RemoveCancel, T.Cancel, T.Inv, T.Live, T.PicksEarliest;
      RemoveCancelSlot(job);
      var after := timer.ConsumeExpirations(now);
      assert after == Some(now);
      timer.CancelTimer(Field(f, OnTimer));
      RemoveSocketOp(job);
      RefreshTimerRegistration(pick);
    }

    method ResumeReady(f: nat, job: Job, pick: T.Pick)
      requires T.PicksEarliest(pick) && job.Io?
      modifies timer, scheduler, scheduler.epoll
      ensures View() == ReleaseReady(old(View()), f, job, pick)
    {
      hide RefreshRegistration, RemoveSocket, RemoveCancel, T.Cancel, T.Inv, T.Live, T.PicksEarliest;
      RemoveCancelSlot(job);
      if job.delay.Some? {
        timer.CancelTimer(Field(f, OnTimer));
        RefreshTimerRegistration(pick);
      }
      RemoveSocketOp(job);
    }

    /** timer.get_timer().count() == 0 */
    predicate RemainingIsZero()
      reads this, timer
    {
      timer.timerfd.armed.None? || timer.timerfd.armed.value <= now
    }

    method ResumeCancelled(f: nat, job: Job, pick: T.Pick)
      requires T.PicksEarliest(pick) && job.Io? && job.token.Some? && job.token.value in tokens
      modifies this`tokens, timer, scheduler, scheduler.epoll
      ensures View() == ReleaseCancelled(old(View()), f, job, pick)
    {
      hide A.Inv, RefreshRegistration, RemoveSocket, RemoveCancel, T.Cancel, T.Inv, T.Live, T.PicksEarliest;
      tokens := tokens[job.token.value := Drained(tokens[job.token.value])];
      if job.delay.Some? {
        timer.CancelTimer(Field(f, OnTimer));
      }
      RemoveSocketOp(job);
      RemoveCancelSlot(job);
      if job.delay.Some? {
        RefreshTimerRegistration(pick);
      }
    }

    /** await_resume of timer_awaiter */
    method AwaitResumeWait(f: nat, job: Job, pick: T.Pick)
      requires T.PicksEarliest(pick) && job.Wait?
      requires timer.timerfd.armed.Some? && !timer.timerfd.drained
      modifies this`suspended, this`now, timer, scheduler, scheduler.epoll
      ensures View() == Release(old(View()), f, job, pick)
      ensures old(A.Inv(View()) && f in suspended && suspended[f].job == job && timer.cur.read == Field(f, OnTimer)) ==>
        A.Inv(View()) && now >= old(timer.cur.due)
    {
      hide A.Inv, RefreshRegistration, T.Advance, T.Inv, T.Live, T.PicksEarliest, T.Earliest;
      ghost var before := View();
      if A.Inv(before) && f in before.suspended && before.suspended[f].job == job
         && before.timers.cur.read == Field(f, OnTimer) {
        WaitReleased(before, f, pick);
      }
      var after := timer.ConsumeExpirations(now);
      now := after.value;
      timer.Next(pick);
      RefreshTimerRegistration(pick);
      suspended := suspended - {f};
    }

    method RequestCancellation(k: nat)
      modifies this`tokens
      ensures View() == RequestCancel(old(View()), k)
      ensures old(A.Inv(View())) ==> A.Inv(View())
    {
      ghost var before := View();
      if A.Inv(before) { RequestCancelKeepsInv(before, k); }
      tokens := tokens[k := Requested(if k in tokens then tokens[k] else Token(false, 0))];
    }
  }
}
