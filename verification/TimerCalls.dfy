/**
 The timer calls a run of the event loop makes, and that they are a legal run of the timer queue: what is
 proved of all runs of timer calls holds of the loop's timers.
 */
module TimerCalls {
  import opened Handles
  import T = Timers
  import TR = TimerRuns
  import I = Interest
  import opened Awaiters
  import opened Transfer
  import L = Loop
  import H = Histories

  /** What await_suspend calls, at clock `now`. */
  function SuspendCalls(now: int, f: nat, job: Job, pick: T.Pick): seq<TR.Call> {
    match job
    case Wait(span) => [TR.Set(Field(f, OnTimer), now + span, pick)]
    case Io(_, _, delay, _) =>
      if delay.None? then [] else [TR.Set(Field(f, OnTimer), now + delay.value, pick), TR.Renew(pick)]
  }

  /** What await_resume calls. */
  function ReleaseCalls(f: nat, job: Job, pick: T.Pick): seq<TR.Call> {
    match job
    case Wait(_) => [TR.Step(pick), TR.Renew(pick)]
    case Io(_, _, delay, _) => if delay.None? then [] else [TR.Drop(Field(f, OnTimer)), TR.Renew(pick)]
  }

  /** What one step of the loop calls: starting, resuming and suspending again are all that touches the timers. */
  ghost function CallsIn(s: L.State, a: L.Action): seq<TR.Call>
    requires L.Legal(s, a)
  {
    if a.Start? then
      if CancelRequested(s.core, a.job) then ReleaseCalls(a.frame, a.job, a.pick)
      else SuspendCalls(s.core.now, a.frame, a.job, a.pick)
    else
      var p := L.Completed(s, a);
      if p.Field? && p.frame in s.core.suspended then
        var susp, s' := s.core.suspended[p.frame], L.Step(s, a);
        ReleaseCalls(p.frame, susp.job, a.choice.pick) +
        if susp.op in s'.ops && s'.ops[susp.op].status.Waiting? then
          SuspendCalls(s.core.now, a.choice.next, susp.job, a.choice.pick)
        else []
      else []
  }

  ghost function CallsOf(init: L.State, run: seq<L.Action>): seq<TR.Call>
    requires L.LegalRun(init, run)
    decreases |run|
  {
    if run == [] then []
    else
      var before := run[..|run| - 1];
      CallsOf(init, before) + CallsIn(L.Exec(init, before), run[|run| - 1])
  }

  /** These calls are legal, and end in this queue. */
  ghost predicate Tracks(calls: seq<TR.Call>, timers: T.State) {
    TR.LegalRun(calls) && TR.Exec(calls).state == timers
  }

  // ------------------------------------------------------------------ one call more

  lemma OneCall(calls: seq<TR.Call>, c: TR.Call)
    requires TR.LegalRun(calls) && TR.Legal(TR.Exec(calls), c)
    ensures TR.LegalRun(calls + [c]) && TR.Exec(calls + [c]) == TR.Apply(TR.Exec(calls), c)
  {
    hide TR.Legal, TR.Apply;
    assert (calls + [c])[..|calls|] == calls;
  }

  lemma SetTracks(calls: seq<TR.Call>, timers: T.State, read: Ptr, due: int, pick: T.Pick)
    requires Tracks(calls, timers) && T.PicksEarliest(pick) && read != Null && due > 0 && read !in timers.active
    ensures Tracks(calls + [TR.Set(read, due, pick)], T.SetTimer(timers, read, due, pick))
  {
    hide T.PicksEarliest, T.SetTimer, TR.RefreshWork, TR.Partitioned, TR.Tombstones, TR.Bounded, T.Live, T.Inv,
      TR.LegalRun, TR.Exec;
    TR.QueueRefinesPlainSet(calls);
    LiveIsActive(timers);
    OneCall(calls, TR.Set(read, due, pick));
  }

  lemma DropTracks(calls: seq<TR.Call>, timers: T.State, read: Ptr)
    requires Tracks(calls, timers)
    ensures Tracks(calls + [TR.Drop(read)], T.Cancel(timers, read))
  {
    hide T.Cancel, TR.LegalRun, TR.Exec;
    OneCall(calls, TR.Drop(read));
  }

  lemma RenewTracks(calls: seq<TR.Call>, timers: T.State, pick: T.Pick)
    requires Tracks(calls, timers) && T.PicksEarliest(pick)
    ensures Tracks(calls + [TR.Renew(pick)], T.Refresh(timers, pick))
  {
    hide T.PicksEarliest, T.Refresh, TR.RefreshWork, TR.LegalRun, TR.Exec;
    OneCall(calls, TR.Renew(pick));
  }

  lemma StepTracks(calls: seq<TR.Call>, timers: T.State, pick: T.Pick)
    requires Tracks(calls, timers) && T.PicksEarliest(pick) && T.Settled(timers)
    ensures Tracks(calls + [TR.Step(pick)], T.Advance(timers, pick))
  {
    hide T.PicksEarliest, T.Advance, TR.ActivationWork, TR.LegalRun, TR.Exec;
    OneCall(calls, TR.Step(pick));
  }

  // ------------------------------------------------------------------ suspending and resuming

  lemma SuspendTimers(c: State, f: nat, op: nat, job: Job, pick: T.Pick)
    requires T.PicksEarliest(pick)
    ensures var p := Field(f, OnTimer);
      Suspend(c, f, op, job, pick).timers == match job
        case Wait(span) => T.SetTimer(c.timers, p, c.now + span, pick)
        case Io(_, _, delay, _) =>
          if delay.None? then c.timers else T.Refresh(T.SetTimer(c.timers, p, c.now + delay.value, pick), pick)
  {
    hide T.PicksEarliest, T.SetTimer, T.Refresh, I.SubmitRead, I.SubmitWrite, I.SubmitTimer, I.RemoveTimer;
  }

  lemma SuspendTracks(calls: seq<TR.Call>, c: State, f: nat, op: nat, job: Job, pick: T.Pick)
    requires Tracks(calls, c.timers) && T.PicksEarliest(pick) && Awaiters.Inv(c) && f !in c.suspended
    ensures Tracks(calls + SuspendCalls(c.now, f, job, pick), Suspend(c, f, op, job, pick).timers)
  {
    hide Tracks, Awaiters.Inv, T.PicksEarliest, Suspend, T.SetTimer, T.Refresh;
    NewFrameHasNoTimer(c, f);
    ClockPastOrigin(c);
    SuspendTimers(c, f, op, job, pick);
    match job
    case Wait(span) => SetTracks(calls, c.timers, Field(f, OnTimer), c.now + span, pick);
    case Io(_, _, delay, _) =>
      if delay.Some? {
        var set_ := TR.Set(Field(f, OnTimer), c.now + delay.value, pick);
        SetTracks(calls, c.timers, Field(f, OnTimer), c.now + delay.value, pick);
        RenewTracks(calls + [set_], T.SetTimer(c.timers, Field(f, OnTimer), c.now + delay.value, pick), pick);
        assert calls + [set_] + [TR.Renew(pick)] == calls + [set_, TR.Renew(pick)];
      } else {
        assert calls + [] == calls;
      }
  }

  lemma ClockPastOrigin(c: State)
    requires Awaiters.Inv(c)
    ensures c.now > 0 && T.Inv(c.timers) && T.Settled(c.timers)
  {
  }

  /** Whatever the verdict, await_resume takes its own timer off the queue in the same way. */
  lemma ReleaseTimers(c: State, f: nat, job: Job, pick: T.Pick)
    requires T.PicksEarliest(pick) && T.Inv(c.timers) && T.Settled(c.timers)
    requires job.Wait? ==> c.timers.cur.read == Field(f, OnTimer)
    ensures job.Wait? ==> c.timers.fd.armed.Some? && !c.timers.fd.drained
    ensures Release(c, f, job, pick).timers == match job
        case Wait(_) => T.Refresh(T.Advance(c.timers, pick), pick)
        case Io(_, _, delay, _) =>
          if delay.None? then c.timers else T.Refresh(T.Cancel(c.timers, Field(f, OnTimer)), pick)
  {
    hide T.PicksEarliest, T.Refresh, T.Advance, T.Cancel, T.Inv, T.Settled, T.Live, T.Earliest, T.Remaining,
      I.RemoveRead, I.RemoveWrite, I.SubmitTimer, I.RemoveTimer;
    T.CurIsEarliest(c.timers);
    T.AdvanceAfterConsume(c.timers, pick);
    if c.timers.cur.read == Field(f, OnTimer) {
      T.RefreshAfterConsume(c.timers, pick);
    }
  }

  lemma ReleaseTracks(calls: seq<TR.Call>, c: State, f: nat, job: Job, pick: T.Pick)
    requires Tracks(calls, c.timers) && T.PicksEarliest(pick) && T.Inv(c.timers) && T.Settled(c.timers)
    requires job.Wait? ==> c.timers.cur.read == Field(f, OnTimer)
    ensures job.Wait? ==> c.timers.fd.armed.Some? && !c.timers.fd.drained
    ensures Tracks(calls + ReleaseCalls(f, job, pick), Release(c, f, job, pick).timers)
  {
    hide Tracks, T.PicksEarliest, T.Refresh, T.Advance, T.Cancel, T.Inv, T.Settled, Release;
    ReleaseTimers(c, f, job, pick);
    match job
    case Wait(_) =>
      StepTracks(calls, c.timers, pick);
      RenewTracks(calls + [TR.Step(pick)], T.Advance(c.timers, pick), pick);
      assert calls + [TR.Step(pick)] + [TR.Renew(pick)] == calls + [TR.Step(pick), TR.Renew(pick)];
    case Io(_, _, delay, _) =>
      if delay.Some? {
        var drop := TR.Drop(Field(f, OnTimer));
        DropTracks(calls, c.timers, Field(f, OnTimer));
        RenewTracks(calls + [drop], T.Cancel(c.timers, Field(f, OnTimer)), pick);
        assert calls + [drop] + [TR.Renew(pick)] == calls + [drop, TR.Renew(pick)];
      } else {
        assert calls + [] == calls;
      }
  }

  // ------------------------------------------------------------------ steps and runs

  lemma ResumptionTracks(calls: seq<TR.Call>, s: L.State, f: nat, ch: L.Choice)
    requires L.Resumable(s, f, ch) && Tracks(calls, s.core.timers)
    ensures var susp, s' := s.core.suspended[f], L.ResumeInner(s, f, ch);
      && susp.op in s'.ops
      && var again := if s'.ops[susp.op].status.Waiting? then SuspendCalls(s.core.now, ch.next, susp.job, ch.pick)
                      else [];
         Tracks(calls + (ReleaseCalls(f, susp.job, ch.pick) + again), s'.core.timers)
  {
    hide Tracks, L.ResumeInner, T.PicksEarliest, VerdictOf, Release, Suspend, L.Round, L.Traffic, L.Transmit,
      Awaiters.Inv, L.Linked, L.OpsOk, L.NetOk, L.LatchedOk, L.FiredOk, L.ResumedOk, L.OnRecord, RecvAllowed,
      SendAllowed, T.Inv, T.Settled;
    var susp := s.core.suspended[f];
    var released := ReleaseCalls(f, susp.job, ch.pick);
    ClockPastOrigin(s.core);
    ReleaseTracks(calls, s.core, f, susp.job, ch.pick);
    ReleaseKeepsInv(s.core, f, ch.pick);
    assert calls + (released + []) == calls + released;
    if VerdictOf(s.core, f, susp.job) == Ready {
      L.VerdictReadyIsIo(s.core, f);
      L.IoShape(s, f, ch);
      var c1 := Release(s.core, f, susp.job, ch.pick);
      SuspendTracks(calls + released, c1, ch.next, susp.op, susp.job, ch.pick);
      var again := SuspendCalls(s.core.now, ch.next, susp.job, ch.pick);
      assert calls + (released + again) == calls + released + again;
    } else {
      L.EndedShape(s, f, ch);
    }
  }

  lemma StartTracks(calls: seq<TR.Call>, s: L.State, a: L.Action)
    requires L.Inv(s) && L.Legal(s, a) && a.Start? && Tracks(calls, s.core.timers)
    ensures Tracks(calls + CallsIn(s, a), L.Step(s, a).core.timers)
  {
    hide Tracks, T.PicksEarliest, Release, Suspend, Awaiters.Inv, L.Linked, L.OpsOk, L.NetOk, L.LatchedOk, L.FiredOk,
      L.ResumedOk, L.OnRecord, SlotsFree, T.Inv, T.Settled;
    ClockPastOrigin(s.core);
    if CancelRequested(s.core, a.job) {
      ReleaseTracks(calls, s.core, a.frame, a.job, a.pick);
    } else {
      SuspendTracks(calls, s.core, a.frame, a.op, a.job, a.pick);
    }
  }

  lemma StepIsTracked(calls: seq<TR.Call>, s: L.State, a: L.Action)
    requires L.Inv(s) && L.Legal(s, a) && Tracks(calls, s.core.timers)
    ensures Tracks(calls + CallsIn(s, a), L.Step(s, a).core.timers)
  {
    hide Tracks, T.PicksEarliest, L.Inv, L.ResumeInner, L.Complete, Release, Suspend, SlotsFree, L.Sane, L.Allowed;
    if a.Start? {
      StartTracks(calls, s, a);
    } else {
      var p := L.Completed(s, a);
      if p == Null {
        if a.EventRead? || a.EventWrite? { L.NothingCompleted(s, a); }
        assert calls + [] == calls;
      } else {
        H.CompletedIsSuspended(s, a);
        L.StepIsResumption(s, a, p.frame);
        ResumptionTracks(calls, s, p.frame, a.choice);
      }
    }
  }

  /** In every run of the event loop its timer queue is what the run's timer calls, a legal run of calls, lead
      to. So its live timers are the plain set those calls define, every id handed out is live, fired or
      dropped and never two of these, and all activations together pop at most one entry per timer set and
      skip at most one per timer cancelled. */
  lemma LoopTimersAreARun(init: L.State, run: seq<L.Action>)
    requires L.Initial(init) && L.LegalRun(init, run)
    ensures var calls, timers := CallsOf(init, run), L.Exec(init, run).core.timers;
      && TR.LegalRun(calls)
      && var h := TR.Exec(calls);
         && h.state == timers && T.Live(timers) == h.live
         && TR.Partitioned(T.Ids(h.live), h.fired, h.dropped, timers.nextId)
         && TR.Tombstones(timers, h.dropped)
         && timers.nextId == h.sets + 1
         && h.pops <= h.sets && h.skips <= h.drops
  {
    hide L.Initial, L.LegalRun, L.Exec, T.Live, T.Ids, TR.Partitioned, TR.Tombstones, TR.LegalRun, TR.Exec, CallsOf;
    RunIsTracked(init, run);
    TR.QueueRefinesPlainSet(CallsOf(init, run));
    TR.TotalWork(CallsOf(init, run));
  }

  lemma {:induction false} RunIsTracked(init: L.State, run: seq<L.Action>)
    requires L.Initial(init) && L.LegalRun(init, run)
    ensures Tracks(CallsOf(init, run), L.Exec(init, run).core.timers)
    decreases |run|
  {
    hide L.Step, L.Legal, L.Inv, CallsIn;
    if run == [] {
    } else {
      hide L.Initial, Tracks;
      var before := run[..|run| - 1];
      RunIsTracked(init, before);
      L.Safety(init, before);
      StepIsTracked(CallsOf(init, before), L.Exec(init, before), run[|run| - 1]);
    }
  }
}
