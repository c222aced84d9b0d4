/**
 Scheduler::running and the completions behind it, as the source has them: a batch of ready
 descriptors is walked through, each pointer found in the table is completed, and the resumed
 coroutine goes through its await_resume, its recv or send, and its next await_suspend. Each
 method is tied to its function in module Loop; what is run is a run of that step system.
 */
module EventLoops {
  import opened Handles
  import T = Timers
  import opened Awaiters
  import opened Transfer
  import opened Reactors
  import I = Interest
  import L = Loop
  import Theorems
  import SL = StepLaws

  /** One entry epoll_wait filled in, with what the environment decides when the completions it causes run,
      and what the resumed user code and the outside world do after each of the two. */
  datatype Reported = Reported(
    fd: Fd,
    readReady: bool,
    writeReady: bool,
    onRead: L.Choice,
    afterRead: seq<L.Action>,
    onWrite: L.Choice,
    afterWrite: seq<L.Action>)

  /** The steps one entry stands for. */
  ghost function StepsOf(e: Reported): seq<L.Action> {
    [L.EventRead(e.fd, e.readReady, e.writeReady, e.onRead)] + e.afterRead + [L.EventWrite(e.onWrite)] + e.afterWrite
  }

  ghost function StepsOfBatch(batch: seq<Reported>): seq<L.Action> {
    if batch == [] then [] else StepsOf(batch[0]) + StepsOfBatch(batch[1..])
  }

  /** What is not a dispatched event. */
  predicate Outside(a: L.Action) {
    a.Start? || a.Tick? || a.Request? || a.Arrive?
  }

  ghost predicate EntryOk(e: Reported) {
    && (forall i | 0 <= i < |e.afterRead| :: Outside(e.afterRead[i]))
    && (forall i | 0 <= i < |e.afterWrite| :: Outside(e.afterWrite[i]))
  }

  // ------------------------------------------------------------------ runs from a state on

  ghost predicate LegalFrom(s: L.State, steps: seq<L.Action>)
    decreases |steps|
  {
    steps == [] || (L.Legal(s, steps[0]) && LegalFrom(L.Step(s, steps[0]), steps[1..]))
  }

  ghost function ExecFrom(s: L.State, steps: seq<L.Action>): L.State
    requires LegalFrom(s, steps)
    decreases |steps|
  {
    if steps == [] then s else ExecFrom(L.Step(s, steps[0]), steps[1..])
  }

  lemma {:induction false} FromSplits(s: L.State, a: seq<L.Action>, b: seq<L.Action>)
    requires LegalFrom(s, a + b)
    ensures LegalFrom(s, a) && LegalFrom(ExecFrom(s, a), b) && ExecFrom(s, a + b) == ExecFrom(ExecFrom(s, a), b)
    decreases |a|
  {
    hide L.Legal, L.Step;
    if a == [] {
      assert a + b == b;
    } else {
      assert (a + b)[0] == a[0] && (a + b)[1..] == a[1..] + b;
      FromSplits(L.Step(s, a[0]), a[1..], b);
    }
  }

  lemma StartsReachable(s: L.State)
    requires L.Initial(s)
    ensures Theorems.Reachable(s)
  {
    hide L.Initial;
    assert L.LegalRun(s, []) && s == L.Exec(s, []);
  }

  /** Going on from a reachable state stays among the reachable ones. */
  lemma {:induction false} StaysReachable(s: L.State, steps: seq<L.Action>)
    requires Theorems.Reachable(s) && LegalFrom(s, steps)
    ensures Theorems.Reachable(ExecFrom(s, steps))
    decreases |steps|
  {
    hide L.Legal, L.Step, L.Initial;
    if steps != [] {
      var init: L.State, run: seq<L.Action> :|
        L.Initial(init) && L.LegalRun(init, run) && s == L.Exec(init, run);
      var longer := run + [steps[0]];
      assert longer[..|longer| - 1] == run;
      assert L.LegalRun(init, longer) && L.Exec(init, longer) == L.Step(s, steps[0]);
      StaysReachable(L.Step(s, steps[0]), steps[1..]);
    }
  }

  lemma NoSteps(s: L.State)
    ensures LegalFrom(s, []) && ExecFrom(s, []) == s && StepsOfBatch([]) == []
  {
  }

  /** One entry is four stretches of steps. */
  lemma EntrySteps(s: L.State, e: Reported)
    requires LegalFrom(s, StepsOf(e))
    ensures var read := L.EventRead(e.fd, e.readReady, e.writeReady, e.onRead);
      && L.Legal(s, read)
      && var s1 := L.Step(s, read);
         && LegalFrom(s1, e.afterRead)
         && var s2 := ExecFrom(s1, e.afterRead);
            && L.Legal(s2, L.EventWrite(e.onWrite))
            && var s3 := L.Step(s2, L.EventWrite(e.onWrite));
               && LegalFrom(s3, e.afterWrite) && ExecFrom(s, StepsOf(e)) == ExecFrom(s3, e.afterWrite)
  {
    hide L.Legal, L.Step;
    var read := L.EventRead(e.fd, e.readReady, e.writeReady, e.onRead);
    var write := [L.EventWrite(e.onWrite)] + e.afterWrite;
    assert StepsOf(e) == [read] + (e.afterRead + write);
    assert StepsOf(e)[1..] == e.afterRead + write;
    FromSplits(L.Step(s, read), e.afterRead, write);
    assert write[1..] == e.afterWrite;
  }

  /** Batches are delivered as long as the table is not empty. */
  ghost predicate LegalBatches(s: L.State, batches: seq<seq<Reported>>)
    decreases |batches|
  {
    batches == [] || s.core.sched.table.Keys == {} ||
    (&& LegalFrom(s, StepsOfBatch(batches[0]))
     && (forall i | 0 <= i < |batches[0]| :: EntryOk(batches[0][i]))
     && LegalBatches(ExecFrom(s, StepsOfBatch(batches[0])), batches[1..]))
  }

  ghost function AfterBatches(s: L.State, batches: seq<seq<Reported>>): L.State
    requires LegalBatches(s, batches)
    decreases |batches|
  {
    if batches == [] || s.core.sched.table.Keys == {} then s
    else AfterBatches(ExecFrom(s, StepsOfBatch(batches[0])), batches[1..])
  }

  /** Whatever `running` does is a run of the step system, so all that holds of runs holds of it. */
  lemma {:induction false} BatchesStayReachable(s: L.State, batches: seq<seq<Reported>>)
    requires Theorems.Reachable(s) && LegalBatches(s, batches)
    ensures Theorems.Reachable(AfterBatches(s, batches))
    decreases |batches|
  {
    hide Theorems.Reachable;
    if batches != [] && s.core.sched.table.Keys != {} {
      StaysReachable(s, StepsOfBatch(batches[0]));
      BatchesStayReachable(ExecFrom(s, StepsOfBatch(batches[0])), batches[1..]);
    }
  }

  lemma OneStepReachable(s: L.State, a: L.Action)
    requires Theorems.Reachable(s) && L.Legal(s, a)
    ensures Theorems.Reachable(L.Step(s, a))
  {
    hide Theorems.Reachable, L.Legal, L.Step;
    assert [a][1..] == [] && LegalFrom(L.Step(s, a), []);
    StaysReachable(s, [a]);
  }

  // ------------------------------------------------------------------ what runs and batches contain

  /** A run from a state is its first step and then the rest. */
  lemma FromOneStep(s: L.State, a: L.Action, rest: seq<L.Action>)
    ensures LegalFrom(s, [a] + rest) <==> L.Legal(s, a) && LegalFrom(L.Step(s, a), rest)
    ensures LegalFrom(s, [a] + rest) ==> ExecFrom(s, [a] + rest) == ExecFrom(L.Step(s, a), rest)
    ensures LegalFrom(s, [a]) <==> L.Legal(s, a)
    ensures LegalFrom(s, [a]) ==> ExecFrom(s, [a]) == L.Step(s, a)
  {
    hide L.Legal, L.Step;
    assert ([a] + rest)[1..] == rest && [a][1..] == [];
  }

  /** Read from the front or from the back, a run is the same. */
  lemma {:induction false} RunsAgree(init: L.State, run: seq<L.Action>)
    requires L.LegalRun(init, run)
    ensures LegalFrom(init, run) && ExecFrom(init, run) == L.Exec(init, run)
    decreases |run|
  {
    hide L.Legal, L.Step;
    if run != [] {
      var before, a := run[..|run| - 1], run[|run| - 1];
      RunsAgree(init, before);
      FromOneStep(L.Exec(init, before), a, []);
      assert run == before + [a];
      FromJoins(init, before, [a]);
    }
  }

  lemma {:induction false} FromJoins(s: L.State, a: seq<L.Action>, b: seq<L.Action>)
    requires LegalFrom(s, a) && LegalFrom(ExecFrom(s, a), b)
    ensures LegalFrom(s, a + b) && ExecFrom(s, a + b) == ExecFrom(ExecFrom(s, a), b)
    decreases |a|
  {
    hide L.Legal, L.Step;
    if a == [] {
      assert a + b == b;
    } else {
      assert (a + b)[0] == a[0] && (a + b)[1..] == a[1..] + b;
      FromJoins(L.Step(s, a[0]), a[1..], b);
    }
  }

  /** The steps of a run that are read halves, and those that are write halves, in order. */
  ghost function ReadHalves(steps: seq<L.Action>): seq<L.Action> {
    if steps == [] then [] else (if steps[0].EventRead? then [steps[0]] else []) + ReadHalves(steps[1..])
  }

  ghost function WriteHalves(steps: seq<L.Action>): seq<L.Action> {
    if steps == [] then [] else (if steps[0].EventWrite? then [steps[0]] else []) + WriteHalves(steps[1..])
  }

  lemma {:induction false} HalvesSplit(a: seq<L.Action>, b: seq<L.Action>)
    ensures ReadHalves(a + b) == ReadHalves(a) + ReadHalves(b)
    ensures WriteHalves(a + b) == WriteHalves(a) + WriteHalves(b)
    decreases |a|
  {
    if a == [] {
      assert a + b == b;
    } else {
      assert (a + b)[0] == a[0] && (a + b)[1..] == a[1..] + b;
      HalvesSplit(a[1..], b);
    }
  }

  lemma {:induction false} NoHalvesOutside(steps: seq<L.Action>)
    requires forall i | 0 <= i < |steps| :: Outside(steps[i])
    ensures ReadHalves(steps) == [] && WriteHalves(steps) == []
    decreases |steps|
  {
    if steps != [] { NoHalvesOutside(steps[1..]); }
  }

  lemma EntryHalves(e: Reported)
    requires EntryOk(e)
    ensures ReadHalves(StepsOf(e)) == [L.EventRead(e.fd, e.readReady, e.writeReady, e.onRead)]
    ensures WriteHalves(StepsOf(e)) == [L.EventWrite(e.onWrite)]
  {
    var read, write := [L.EventRead(e.fd, e.readReady, e.writeReady, e.onRead)], [L.EventWrite(e.onWrite)];
    NoHalvesOutside(e.afterRead);
    NoHalvesOutside(e.afterWrite);
    HalvesSplit(read + e.afterRead + write, e.afterWrite);
    HalvesSplit(read + e.afterRead, write);
    HalvesSplit(read, e.afterRead);
    assert read[1..] == [] && write[1..] == [];
  }

  /** Every entry of a batch is dispatched, in order: the k-th read half of its steps is that of the k-th entry,
      with its descriptor and readiness, the k-th write half likewise, and there are no more. */
  lemma {:induction false} BatchDispatchesEveryEntry(batch: seq<Reported>)
    requires forall i | 0 <= i < |batch| :: EntryOk(batch[i])
    ensures var first, second := ReadHalves(StepsOfBatch(batch)), WriteHalves(StepsOfBatch(batch));
      && |first| == |second| == |batch|
      && (forall k | 0 <= k < |batch| :: first[k] ==
            L.EventRead(batch[k].fd, batch[k].readReady, batch[k].writeReady, batch[k].onRead))
      && (forall k | 0 <= k < |batch| :: second[k] == L.EventWrite(batch[k].onWrite))
    decreases |batch|
  {
    hide EntryOk, StepsOf;
    if batch != [] {
      BatchDispatchesEveryEntry(batch[1..]);
      EntryHalves(batch[0]);
      HalvesSplit(StepsOf(batch[0]), StepsOfBatch(batch[1..]));
    }
  }

  /** The steps of a batch are those of its parts, and those of an entry are its two halves, each followed by what
      the user code and the outside world do. */
  lemma {:induction false} BatchIsItsParts(a: seq<Reported>, b: seq<Reported>)
    ensures StepsOfBatch(a + b) == StepsOfBatch(a) + StepsOfBatch(b)
    decreases |a|
  {
    hide StepsOf;
    if a == [] {
      assert a + b == b;
    } else {
      assert (a + b)[0] == a[0] && (a + b)[1..] == a[1..] + b;
      BatchIsItsParts(a[1..], b);
    }
  }

  lemma OneEntryBatch(e: Reported)
    ensures StepsOfBatch([e]) ==
      [L.EventRead(e.fd, e.readReady, e.writeReady, e.onRead)] + e.afterRead + [L.EventWrite(e.onWrite)] + e.afterWrite
  {
    assert [e][1..] == [];
    assert StepsOf(e) + [] == StepsOf(e);
  }

  /** Dispatching a batch is dispatching its first part and then, from where that leads, the rest. */
  lemma BatchSplits(s: L.State, a: seq<Reported>, b: seq<Reported>)
    requires LegalFrom(s, StepsOfBatch(a + b))
    ensures LegalFrom(s, StepsOfBatch(a))
    ensures LegalFrom(ExecFrom(s, StepsOfBatch(a)), StepsOfBatch(b))
    ensures ExecFrom(s, StepsOfBatch(a + b)) == ExecFrom(ExecFrom(s, StepsOfBatch(a)), StepsOfBatch(b))
  {
    hide LegalFrom, ExecFrom, StepsOfBatch;
    BatchIsItsParts(a, b);
    FromSplits(s, StepsOfBatch(a), StepsOfBatch(b));
  }

  /** A single batch is dispatched as a whole unless nothing is registered any more. */
  lemma OneBatch(s: L.State, batch: seq<Reported>)
    ensures LegalBatches(s, [batch]) <==>
      || s.core.sched.table.Keys == {}
      || (LegalFrom(s, StepsOfBatch(batch)) && forall i | 0 <= i < |batch| :: EntryOk(batch[i]))
    ensures LegalBatches(s, [batch]) ==>
      AfterBatches(s, [batch]) == if s.core.sched.table.Keys == {} then s else ExecFrom(s, StepsOfBatch(batch))
  {
    hide LegalFrom, ExecFrom, StepsOfBatch, EntryOk;
    assert [batch][1..] == [];
  }

  /** Running along some batches and then along others is running along all of them. */
  lemma {:induction false} BatchesSplit(s: L.State, a: seq<seq<Reported>>, b: seq<seq<Reported>>)
    requires LegalBatches(s, a + b)
    ensures LegalBatches(s, a) && LegalBatches(AfterBatches(s, a), b)
    ensures AfterBatches(s, a + b) == AfterBatches(AfterBatches(s, a), b)
    decreases |a|
  {
    hide LegalFrom, ExecFrom, StepsOfBatch, EntryOk;
    if a == [] {
      assert a + b == b;
    } else if s.core.sched.table.Keys != {} {
      assert (a + b)[0] == a[0] && (a + b)[1..] == a[1..] + b;
      BatchesSplit(ExecFrom(s, StepsOfBatch(a[0])), a[1..], b);
    }
  }

  // ------------------------------------------------------------------ the write half

  /** What happens outside dispatching leaves the kept write pointer and every suspended awaiter alone. */
  lemma {:induction false} OutsideKeeps(s: L.State, between: seq<L.Action>, f: nat)
    requires L.Inv(s) && LegalFrom(s, between) && forall i | 0 <= i < |between| :: Outside(between[i])
    requires f in s.core.suspended
    ensures var s' := ExecFrom(s, between);
      s'.latched == s.latched && f in s'.core.suspended && s'.core.suspended[f] == s.core.suspended[f]
    decreases |between|
  {
    hide L.Inv, L.Legal, L.Step;
    if between != [] {
      L.StepKeepsInv(s, between[0]);
      OutsideStepKeeps(s, between[0], f);
      OutsideKeeps(L.Step(s, between[0]), between[1..], f);
    }
  }

  lemma OutsideStepKeeps(s: L.State, a: L.Action, f: nat)
    requires L.Inv(s) && L.Legal(s, a) && Outside(a) && f in s.core.suspended
    ensures var s' := L.Step(s, a);
      s'.latched == s.latched && f in s'.core.suspended && s'.core.suspended[f] == s.core.suspended[f]
  {
    hide Awaiters.Inv, L.Linked, L.OpsOk, L.NetOk, L.LatchedOk, L.FiredOk, L.ResumedOk, L.OnRecord, Release, Suspend,
      SlotsFree, T.PicksEarliest;
    if a.Start? {
      if CancelRequested(s.core, a.job) {
        DeclinedKeepsInv(s.core, a.frame, a.job, a.pick);
      } else {
        SuspendKeepsInv(s.core, a.frame, a.op, a.job, a.pick);
      }
    }
  }

  /** A writer found in the write slot of an event that is ready to write is resumed by the event's second half,
      whatever its first half did and whatever went on in between. */
  lemma WriterIsResumed(s: L.State, fd: Fd, readReady: bool, ch: L.Choice, between: seq<L.Action>, ch2: L.Choice)
    requires L.Inv(s) && L.Legal(s, L.EventRead(fd, readReady, true, ch))
    requires fd in s.core.sched.table && s.core.sched.table[fd].write != Null
    requires var s1 := L.Step(s, L.EventRead(fd, readReady, true, ch));
      && (forall i | 0 <= i < |between| :: Outside(between[i]))
      && LegalFrom(s1, between) && L.Legal(ExecFrom(s1, between), L.EventWrite(ch2))
    ensures var w := s.core.sched.table[fd].write;
      var s2 := ExecFrom(L.Step(s, L.EventRead(fd, readReady, true, ch)), between);
      && w.Field? && w.frame in s.core.suspended && w.frame in s2.core.suspended
      && s2.core.suspended[w.frame] == s.core.suspended[w.frame]
      && L.Resumes(s2, L.EventWrite(ch2), w.frame)
  {
    hide L.Inv, L.Legal, L.Step, ExecFrom, LegalFrom;
    var w := s.core.sched.table[fd].write;
    var a := L.EventRead(fd, readReady, true, ch);
    WriterIsKept(s, fd, readReady, ch);
    L.StepKeepsInv(s, a);
    OutsideKeeps(L.Step(s, a), between, w.frame);
  }

  lemma WriterIsKept(s: L.State, fd: Fd, readReady: bool, ch: L.Choice)
    requires L.Inv(s) && L.Legal(s, L.EventRead(fd, readReady, true, ch))
    requires fd in s.core.sched.table && s.core.sched.table[fd].write != Null
    ensures var w := s.core.sched.table[fd].write;
      var s1 := L.Step(s, L.EventRead(fd, readReady, true, ch));
      && w.Field? && w.frame in s.core.suspended && s1.latched == w
      && w.frame in s1.core.suspended && s1.core.suspended[w.frame] == s.core.suspended[w.frame]
  {
    hide Awaiters.Inv, L.Linked, L.OpsOk, L.NetOk, L.FiredOk, L.ResumedOk, L.OnRecord, L.Complete, L.ResumeInner,
      T.PicksEarliest, L.Sane, L.Allowed, L.Dispatchable, L.Resumable;
    L.WriteSlotOwner(s, fd);
    var readOp := I.ReadSlot(s.core.sched, fd);
    if readReady && readOp != Null {
      L.ReadSlotIsDispatchable(s, fd);
      L.CompleteKeepsInv(s, readOp, ch);
      L.OthersStaySuspended(s, readOp.frame, ch, s.core.sched.table[fd].write.frame);
    }
  }

  /** After an event that is not ready to write, the second half completes nothing. */
  lemma NoWriterIsResumed(s: L.State, fd: Fd, readReady: bool, ch: L.Choice, between: seq<L.Action>, ch2: L.Choice)
    requires Theorems.Reachable(s) && L.Legal(s, L.EventRead(fd, readReady, false, ch))
    requires var s1 := L.Step(s, L.EventRead(fd, readReady, false, ch));
      && (forall i | 0 <= i < |between| :: Outside(between[i]))
      && LegalFrom(s1, between) && L.Legal(ExecFrom(s1, between), L.EventWrite(ch2))
    ensures var s2 := ExecFrom(L.Step(s, L.EventRead(fd, readReady, false, ch)), between);
      L.Step(s2, L.EventWrite(ch2)) == s2
  {
    hide L.Inv, L.Legal, Theorems.Reachable, L.Step, ExecFrom, LegalFrom, L.Initial;
    var a := L.EventRead(fd, readReady, false, ch);
    SL.ReadHalfLaw(s, fd, readReady, false, ch);
    OneStepReachable(s, a);
    StaysReachable(L.Step(s, a), between);
    OutsideKeepsNull(L.Step(s, a), between);
    SL.WriteHalfLaw(ExecFrom(L.Step(s, a), between), ch2);
  }

  lemma {:induction false} OutsideKeepsNull(s: L.State, between: seq<L.Action>)
    requires LegalFrom(s, between) && s.latched == Null && forall i | 0 <= i < |between| :: Outside(between[i])
    ensures ExecFrom(s, between).latched == Null
    decreases |between|
  {
    if between != [] {
      assert L.Step(s, between[0]).latched == Null by { hide Release, Suspend, SlotsFree, T.PicksEarliest; }
      OutsideKeepsNull(L.Step(s, between[0]), between[1..]);
    }
  }

  // ------------------------------------------------------------------ the loop

  /** The last part of complete: the outer coroutine is resumed if the inner one is done. */
  function OuterAfter(s: L.State, o: nat): L.State
    requires o in s.ops
  {
    if s.ops[o].status.Done? then L.Finish(s, o, s.ops[o]) else s
  }

  class EventLoop {
    const reactor: Reactor
    var ops: map<nat, Op>
    var net: L.Net
    // The local write_op of `running`, and the records the statements about runs are about.
    ghost var latched: Ptr
    ghost var fired: seq<L.Fire>
    ghost var resumed: seq<(nat, nat)>

    ghost function View(): L.State
      reads this, reactor, reactor.scheduler, reactor.scheduler.epoll, reactor.timer
    {
      L.State(reactor.View(), ops, net, latched, fired, resumed, false)
    }

    constructor (start: int, peer: map<nat, nat>)
      requires start > 0
      requires forall w <- peer, v <- peer :: peer[w] == peer[v] ==> w == v
      ensures fresh(reactor) && fresh(reactor.timer) && fresh(reactor.scheduler) && fresh(reactor.scheduler.epoll)
      ensures L.Initial(View()) && Theorems.Reachable(View()) && L.Inv(View())
      ensures reactor.now == start && net.peer == peer
    {
      reactor := new Reactor(start);
      ops := map[];
      net := L.Net(map[], map[], map[], map[], peer);
      latched := Null;
      fired := [];
      resumed := [];
      new;
      hide Theorems.Reachable, L.Inv;
      L.InitialInv(View());
      StartsReachable(View());
    }

    /** A resumed wait_for_impl. */
    method ResumeWaitFor(f: nat, ch: L.Choice)
      requires L.Resumable(View(), f, ch) && reactor.suspended[f].job.Wait?
      modifies this`ops, this`fired, this`resumed, reactor, reactor.timer, reactor.scheduler, reactor.scheduler.epoll
      ensures old(reactor.suspended[f].op) in ops
      ensures OuterAfter(View(), old(reactor.suspended[f].op)) == L.ResumeInner(old(View()), f, ch)
    {
      hide Awaiters.Inv, L.Linked, L.OpsOk, L.NetOk, L.LatchedOk, L.FiredOk, L.ResumedOk, L.OnRecord, Release,
        T.PicksEarliest;
      var susp := reactor.suspended[f];
      var o := susp.op;
      resumed := resumed + [(o, ops[o].suspensions)];
      reactor.AwaitResumeWait(f, susp.job, ch.pick);
      fired := fired + [L.Fire(o, if susp.due.Some? then susp.due.value else 0, reactor.now)];
      ops := ops[o := WaitRound(ops[o])];
    }

    /** The round of a loop whose await_resume came out ready: recv or send, then co_return or the next await. */
    method TransferRound(o: nat, pick: T.Pick, result: Syscall, next: nat)
      requires T.PicksEarliest(pick) && Awaiters.Inv(reactor.View())
      requires o in ops && ops[o].job.Io? && ops[o].buf.Valid() && CanMove(net, ops[o], result)
      requires next !in reactor.suspended && SlotsFree(reactor.View(), ops[o].job)
      requires !CancelRequested(reactor.View(), ops[o].job)
      modifies this`ops, this`net, reactor, reactor.timer, reactor.scheduler, reactor.scheduler.epoll
      ensures View() == AfterRound(old(View()), o, pick, result, next)
    {
      hide Awaiters.Inv, T.PicksEarliest, RecvAllowed, SendAllowed, SlotsFree, Suspend, L.Round, L.Traffic,
        L.Transmit;
      var op := ops[o];
      var wire := L.At(net.wire, op.job.socket);
      var op1 := L.Round(op, wire, result);
      net := L.Transmit(net, op.job, L.Traffic(op, wire, result));
      if op1.status.Waiting? {
        var suspends := reactor.AwaitSuspendIo(next, o, op.job, pick);
        op1 := op1.(suspensions := op1.suspensions + 1, frame := next,
                   due := DueOf(op.job, reactor.now));
      }
      ops := ops[o := op1];
    }

    method AwaitResumed(f: nat, o: nat, job: Job, pick: T.Pick) returns (verdict: Verdict)
      requires T.PicksEarliest(pick) && job.Io? && Awaiters.Inv(reactor.View())
      requires f in reactor.suspended && reactor.suspended[f].job == job && o in ops
      modifies this`resumed, reactor, reactor.timer, reactor.scheduler, reactor.scheduler.epoll
      ensures verdict == VerdictOf(old(reactor.View()), f, job) != Elapsed
      ensures View() == old(View()).(core := Release(old(reactor.View()), f, job, pick),
                                     resumed := old(resumed) + [(o, ops[o].suspensions)])
      ensures Awaiters.Inv(reactor.View())
    {
      hide Awaiters.Inv, Release, VerdictOf, T.PicksEarliest, SlotsFree;
      resumed := resumed + [(o, ops[o].suspensions)];
      verdict := reactor.AwaitResumeIo(f, job, pick);
    }

    /** A resumed read or write coroutine. */
    method ResumeTransfer(f: nat, ch: L.Choice)
      requires L.Resumable(View(), f, ch) && reactor.suspended[f].job.Io?
      modifies this`ops, this`net, this`fired, this`resumed,
        reactor, reactor.timer, reactor.scheduler, reactor.scheduler.epoll
      ensures old(reactor.suspended[f].op) in ops
      ensures OuterAfter(View(), old(reactor.suspended[f].op)) == L.ResumeInner(old(View()), f, ch)
    {
      ghost var before := View();
      ReadyToResume(before, f, ch);
      hide L.Resumable, L.Sane, Awaiters.Inv, Release, VerdictOf, T.PicksEarliest, CanMove, SlotsFree, AfterRound,
        L.ResumeInner, L.Allowed, OuterAfter, EndedWith, Reports, CancelRequested, HasExpired;
      var susp := reactor.suspended[f];
      var o, job := susp.op, susp.job;
      AfterRelease(before, f, ch);
      var verdict := AwaitResumed(f, o, job, ch.pick);
      if verdict != Ready {
        ReportError(susp, verdict);
        EndIsResume(before, f, ch, ops[o], View());
      } else {
        TransferRound(o, ch.pick, ch.result, ch.next);
        RoundIsResume(before, f, ch);
      }
    }

    /** await_resume reported an error, and the loop returns it with the count so far; nothing else of the
        operation changes, and its counts and its place in the stream stay good. */
    method ReportError(susp: Suspension, verdict: Verdict)
      requires susp.op in ops && ops[susp.op].job.Io? && (verdict == Cancelled || verdict == TimedOut)
      modifies this`ops, this`fired
      ensures susp.op in ops && ops == old(ops)[susp.op := ops[susp.op]]
      ensures View() == old(View()).(ops := ops, fired := fired)
      ensures EndedWith(old(ops[susp.op]), verdict, ops[susp.op])
      ensures fired == Reports(old(fired), susp, verdict, reactor.now)
      ensures old(CountsOk(ops[susp.op]) && ops[susp.op].status.Waiting?) ==> CountsOk(ops[susp.op])
    {
      if verdict == Cancelled {
        ops := ops[susp.op := ErrorRound(ops[susp.op], OperationCanceled)];
      } else {
        if susp.due.Some? {
          fired := fired + [L.Fire(susp.op, susp.due.value, reactor.now)];
        }
        ops := ops[susp.op := ErrorRound(ops[susp.op], TimedOutCode)];
      }
    }

    /** read_op::complete and write_op::complete. */
    method Complete(p: Ptr, ch: L.Choice)
      requires L.Inv(View()) && latched == Null && L.Dispatchable(View(), p) && L.LegalChoice(View(), p, ch)
      modifies this`ops, this`net, this`fired, this`resumed,
        reactor, reactor.timer, reactor.scheduler, reactor.scheduler.epoll
      ensures View() == L.Complete(old(View()), p, ch) && L.Inv(View())
    {
      hide L.Inv, L.ResumeInner, T.PicksEarliest, L.Allowed, L.Complete, L.Dispatchable, L.LegalChoice, L.Resumable,
        L.Sane, OuterAfter;
      CompleteFacts(View(), p, ch);
      var f := p.frame;
      var o := reactor.suspended[f].op;
      if ops[o].status.Waiting? {
        if reactor.suspended[f].job.Wait? {
          ResumeWaitFor(f, ch);
        } else {
          ResumeTransfer(f, ch);
        }
      }
      ResumeOuter(o);
    }

    /** The last part of complete. Afterwards the outer coroutine of an operation that is done was resumed
        exactly once, and that of a waiting one not at all. */
    method ResumeOuter(o: nat)
      requires o in ops
      modifies this`ops
      ensures o in ops && View() == OuterAfter(old(View()), o)
      ensures old(InnerRan(ops[o])) ==> L.ResumesOk(ops[o])
    {
      if ops[o].status.Done? {
        ops := ops[o := ops[o].(outerResumes := ops[o].outerResumes + 1)];
      }
    }

    /** The first half of an entry: look the descriptor up, keep its write_op, complete its read_op. */
    method DispatchRead(fd: Fd, readReady: bool, writeReady: bool, ch: L.Choice) returns (writeOp: Ptr)
      requires L.Inv(View()) && L.Legal(View(), L.EventRead(fd, readReady, writeReady, ch))
      modifies this, reactor, reactor.timer, reactor.scheduler, reactor.scheduler.epoll
      ensures View() == L.Step(old(View()), L.EventRead(fd, readReady, writeReady, ch)) && L.Inv(View())
      ensures writeOp == old(if fd in reactor.scheduler.fdToOp then reactor.scheduler.fdToOp[fd].write else Null)
      ensures latched == if writeReady then writeOp else Null
    {
      hide L.Inv, T.PicksEarliest, L.Complete, L.Sane, L.Allowed;
      L.StepKeepsInv(View(), L.EventRead(fd, readReady, writeReady, ch));
      var readOp := Null;
      writeOp := Null;
      if fd in reactor.scheduler.fdToOp {
        readOp := reactor.scheduler.fdToOp[fd].read;
        writeOp := reactor.scheduler.fdToOp[fd].write;
      }
      if readReady && readOp != Null {
        L.ReadSlotIsDispatchable(View(), fd);
        Complete(readOp, ch);
      }
      latched := if writeReady then writeOp else Null;
    }

    /** The second half. */
    method DispatchWrite(writeReady: bool, writeOp: Ptr, ch: L.Choice)
      requires L.Inv(View()) && L.Legal(View(), L.EventWrite(ch)) && latched == if writeReady then writeOp else Null
      modifies this, reactor, reactor.timer, reactor.scheduler, reactor.scheduler.epoll
      ensures View() == L.Step(old(View()), L.EventWrite(ch)) && L.Inv(View()) && latched == Null
    {
      hide L.Inv, T.PicksEarliest, L.Complete, L.Sane, L.Allowed, L.Dispatchable, L.LegalChoice;
      ghost var before := View();
      L.StepKeepsInv(before, L.EventWrite(ch));
      if writeReady && writeOp != Null {
        LatchedWriter(before, ch);
        latched := Null;
        Complete(writeOp, ch);
      }
      latched := Null;
    }

    /** The outer await_suspend: the coroutine runs up to its first suspension, or to its end. */
    method StartOp(o: nat, f: nat, job: Job, buf: Buffer, pick: T.Pick)
      requires L.Inv(View()) && L.Legal(View(), L.Start(o, f, job, buf, pick))
      modifies this`ops, reactor, reactor.timer, reactor.scheduler, reactor.scheduler.epoll
      ensures View() == L.Step(old(View()), L.Start(o, f, job, buf, pick)) && L.Inv(View())
    {
      hide L.Inv, Awaiters.Inv, T.PicksEarliest, Release, Suspend, SlotsFree;
      L.StepKeepsInv(View(), L.Start(o, f, job, buf, pick));
      CoreOf(View());
      var op := NewOp(job, buf, L.BaseOf(net, job), f);
      var due := DueOf(job, reactor.now);
      var suspends := true;
      if job.Wait? {
        reactor.AwaitSuspendWait(f, o, job, pick);
      } else {
        suspends := SuspendOrDecline(f, o, job, pick);
      }
      ops := ops[o := if suspends then op.(suspensions := 1, due := due)
                      else ErrorRound(op, OperationCanceled)];
    }

    /** An await_suspend that declines is followed by await_resume at once. */
    method SuspendOrDecline(f: nat, o: nat, job: Job, pick: T.Pick) returns (suspends: bool)
      requires T.PicksEarliest(pick) && job.Io?
      requires Awaiters.Inv(reactor.View()) && f !in reactor.suspended && SlotsFree(reactor.View(), job)
      modifies reactor, reactor.timer, reactor.scheduler, reactor.scheduler.epoll
      ensures suspends <==> !CancelRequested(old(reactor.View()), job)
      ensures reactor.View() == if suspends then Suspend(old(reactor.View()), f, o, job, pick)
                                else Release(old(reactor.View()), f, job, pick)
    {
      hide Awaiters.Inv, T.PicksEarliest, Release, Suspend, SlotsFree;
      suspends := reactor.AwaitSuspendIo(f, o, job, pick);
      if !suspends {
        var verdict := reactor.AwaitResumeIo(f, job, pick);
        assert verdict == Cancelled;
      }
    }

    /** Something that is not a dispatched event. */
    method Perform(a: L.Action)
      requires Outside(a) && L.Inv(View()) && L.Legal(View(), a)
      modifies this`ops, this`net, reactor, reactor.timer, reactor.scheduler, reactor.scheduler.epoll
      ensures View() == L.Step(old(View()), a) && L.Inv(View())
      ensures old(Theorems.Reachable(View())) ==> Theorems.Reachable(View())
    {
      hide L.Inv, L.Legal, L.Step, Theorems.Reachable;
      ghost var before := View();
      L.StepKeepsInv(before, a);
      if Theorems.Reachable(before) { OneStepReachable(before, a); }
      Carry(a);
    }

    method Carry(a: L.Action)
      requires Outside(a) && L.Inv(View()) && L.Legal(View(), a)
      modifies this`ops, this`net, reactor, reactor.timer, reactor.scheduler, reactor.scheduler.epoll
      ensures View() == L.Step(old(View()), a)
    {
      hide L.Inv;
      match a
      case Start(o, f, job, buf, pick) => StartOp(o, f, job, buf, pick);
      case Tick(span) => reactor.now := reactor.now + span;
      case Request(token) => reactor.RequestCancellation(token);
      case Arrive(socket, bytes) => net := L.Deliver(net, socket, bytes);
    }

    method PerformAll(steps: seq<L.Action>)
      requires forall i | 0 <= i < |steps| :: Outside(steps[i])
      requires L.Inv(View()) && LegalFrom(View(), steps)
      modifies this`ops, this`net, reactor, reactor.timer, reactor.scheduler, reactor.scheduler.epoll
      ensures View() == ExecFrom(old(View()), steps) && L.Inv(View())
    {
      hide L.Inv, L.Legal, L.Step, Outside;
      var i := 0;
      while i < |steps|
        invariant 0 <= i <= |steps| && L.Inv(View())
        invariant LegalFrom(View(), steps[i..]) && ExecFrom(View(), steps[i..]) == ExecFrom(old(View()), steps)
      {
        assert steps[i..][0] == steps[i] && steps[i..][1..] == steps[i + 1..];
        Perform(steps[i]);
        i := i + 1;
      }
    }

    /** One entry of a batch. A descriptor that has left the table by now is passed over. */
    method Dispatch(e: Reported)
      requires L.Inv(View()) && latched == Null && EntryOk(e) && LegalFrom(View(), StepsOf(e))
      modifies this, reactor, reactor.timer, reactor.scheduler, reactor.scheduler.epoll
      ensures View() == ExecFrom(old(View()), StepsOf(e)) && L.Inv(View()) && latched == Null
    {
      hide L.Inv, L.Legal, L.Step, Outside, ExecFrom, LegalFrom, StepsOf;
      EntrySteps(View(), e);
      var writeOp := DispatchRead(e.fd, e.readReady, e.writeReady, e.onRead);
      PerformAll(e.afterRead);
      DispatchWrite(e.writeReady, writeOp, e.onWrite);
      PerformAll(e.afterWrite);
    }

    method DispatchBatch(batch: seq<Reported>)
      requires L.Inv(View()) && latched == Null && LegalFrom(View(), StepsOfBatch(batch))
      requires forall i | 0 <= i < |batch| :: EntryOk(batch[i])
      modifies this, reactor, reactor.timer, reactor.scheduler, reactor.scheduler.epoll
      ensures View() == ExecFrom(old(View()), StepsOfBatch(batch)) && L.Inv(View()) && latched == Null
    {
      hide L.Inv, EntryOk, StepsOf, ExecFrom, LegalFrom;
      var i := 0;
      while i < |batch|
        invariant 0 <= i <= |batch| && L.Inv(View()) && latched == Null
        invariant LegalFrom(View(), StepsOfBatch(batch[i..]))
        invariant ExecFrom(View(), StepsOfBatch(batch[i..])) == ExecFrom(old(View()), StepsOfBatch(batch))
      {
        assert batch[i..][0] == batch[i] && batch[i..][1..] == batch[i + 1..];
        FromSplits(View(), StepsOf(batch[i]), StepsOfBatch(batch[i + 1..]));
        Dispatch(batch[i]);
        i := i + 1;
      }
      NoSteps(View());
    }

    /** running, along the batches epoll_wait delivers: it returns exactly when every operation is done, and
        otherwise is still waiting after the last batch. Whatever holds of all runs holds after it. */
    method Running(batches: seq<seq<Reported>>) returns (returned: bool)
      requires L.Inv(View()) && latched == Null && LegalBatches(View(), batches)
      modifies this, reactor, reactor.timer, reactor.scheduler, reactor.scheduler.epoll
      ensures View() == AfterBatches(old(View()), batches) && L.Inv(View()) && latched == Null
      ensures returned <==> forall o <- ops :: ops[o].status.Done?
      ensures old(Theorems.Reachable(View())) ==> Theorems.Reachable(View())
    {
      hide L.Inv, LegalFrom, ExecFrom, StepsOfBatch, EntryOk, Theorems.Reachable;
      ghost var before := View();
      if Theorems.Reachable(before) { BatchesStayReachable(before, batches); }
      var i := 0;
      while reactor.scheduler.fdToOp.Keys != {} && i < |batches|
        invariant 0 <= i <= |batches| && L.Inv(View()) && latched == Null
        invariant LegalBatches(View(), batches[i..])
        invariant AfterBatches(View(), batches[i..]) == AfterBatches(old(View()), batches)
        decreases |batches| - i
      {
        assert batches[i..][0] == batches[i] && batches[i..][1..] == batches[i + 1..];
        DispatchBatch(batches[i]);
        i := i + 1;
      }
      returned := reactor.scheduler.fdToOp.Keys == {};
      Theorems.IdleIffAllDone(View());
    }
  }

  /** An operation that ended with the count so far and moved nothing. */
  ghost predicate EndedWith(op: Op, verdict: Verdict, op': Op) {
    && op'.status == Done(if verdict == Cancelled then OperationCanceled else TimedOutCode, Theorems.CountOf(op))
    && op'.awaits == op.awaits + 1 && op' == op.(status := op'.status, awaits := op'.awaits)
  }

  /** With the outer coroutine that is the specified resumption, whichever code it is. */
  lemma EndIsResume(s: L.State, f: nat, ch: L.Choice, op': Op, s2: L.State)
    requires L.Resumable(s, f, ch) && s.core.suspended[f].job.Io?
    requires VerdictOf(s.core, f, s.core.suspended[f].job) != Ready
    requires var susp := s.core.suspended[f];
      var verdict := VerdictOf(s.core, f, susp.job);
      var core := Release(s.core, f, susp.job, ch.pick);
      && EndedWith(s.ops[susp.op], verdict, op')
      && s2 == s.(core := core, ops := s.ops[susp.op := op'],
                  resumed := s.resumed + [(susp.op, s.ops[susp.op].suspensions)],
                  fired := Reports(s.fired, susp, verdict, core.now))
    ensures OuterAfter(s2, s.core.suspended[f].op) == L.ResumeInner(s, f, ch)
  {
    hide L.Inv, Release, T.PicksEarliest, RecvAllowed, SendAllowed, CancelRequested, HasExpired;
    if VerdictOf(s.core, f, s.core.suspended[f].job) == TimedOut { ReportsItsOwn(s, f); }
  }

  lemma ReportsItsOwn(s: L.State, f: nat)
    requires L.Inv(s) && f in s.core.suspended && VerdictOf(s.core, f, s.core.suspended[f].job) == TimedOut
    ensures s.core.suspended[f].due.Some?
  {
    hide Awaiters.Inv, L.Linked, L.OpsOk, L.NetOk, L.LatchedOk, L.FiredOk, L.ResumedOk, L.OnRecord, VerdictOf;
    TimedOutIff(s.core, f);
  }

  /** The deadlines reported once an operation ended this way: a timeout reports its own, a cancellation none. */
  function Reports(fired: seq<L.Fire>, susp: Suspension, verdict: Verdict, now: int): seq<L.Fire> {
    if verdict == Cancelled || susp.due.None? then fired else fired + [L.Fire(susp.op, susp.due.value, now)]
  }

  /** The inner coroutine has gone as far as it can; if it is done its outer one was not resumed yet. */
  ghost predicate InnerRan(op: Op) {
    match op.status
    case Waiting => L.ResumesOk(op)
    case Done(_, _) => op.suspensions == op.awaits > 0 && op.outerResumes == 0
  }

  /** When a resumed coroutine has gone as far as it can, its outer one was not resumed by anything; the last
      part of complete then resumes it once if the coroutine is done, and not at all if it waits again. */
  lemma OuterResumedOnce(s: L.State, f: nat, ch: L.Choice, s2: L.State)
    requires L.Resumable(s, f, ch)
    requires var o := s.core.suspended[f].op; o in s2.ops && OuterAfter(s2, o) == L.ResumeInner(s, f, ch)
    ensures var o := s.core.suspended[f].op;
      && InnerRan(s2.ops[o]) && s2.ops[o].outerResumes == 0
      && OuterAfter(s2, o).ops[o].outerResumes == if s2.ops[o].status.Done? then 1 else 0
  {
    hide L.ResumeInner, Awaiters.Inv, L.Linked, L.NetOk, L.LatchedOk, L.FiredOk, L.ResumedOk, L.OnRecord,
      CountsOk, PlaceOk;
    L.ResumeKeepsInv(s, f, ch);
    var o := s.core.suspended[f].op;
    assert L.OpOk(OuterAfter(s2, o).ops[o], OuterAfter(s2, o).net);
  }

  /** What recv or send may return here. */
  predicate CanMove(net: L.Net, op: Op, r: Syscall)
    requires op.job.Io? && op.buf.Valid()
  {
    if op.job.dir == Inbound then RecvAllowed(op.buf, L.At(net.wire, op.job.socket), r) else SendAllowed(op.buf, r)
  }

  /** A ready round, without the outer coroutine. */
  function AfterRound(s: L.State, o: nat, pick: T.Pick, r: Syscall, next: nat): L.State
    requires T.PicksEarliest(pick)
    requires o in s.ops && s.ops[o].job.Io? && s.ops[o].buf.Valid() && CanMove(s.net, s.ops[o], r)
  {
    var op := s.ops[o];
    var wire := L.At(s.net.wire, op.job.socket);
    var op1 := L.Round(op, wire, r);
    var net := L.Transmit(s.net, op.job, L.Traffic(op, wire, r));
    if op1.status.Done? then s.(net := net, ops := s.ops[o := op1])
    else s.(net := net, core := Suspend(s.core, next, o, op.job, pick),
            ops := s.ops[o := op1.(suspensions := op1.suspensions + 1, frame := next,
                                   due := DueOf(op.job, s.core.now))])
  }

  lemma CoreOf(s: L.State)
    requires L.Inv(s)
    ensures Awaiters.Inv(s.core)
  {
  }

  lemma CompleteFacts(s: L.State, p: Ptr, ch: L.Choice)
    requires L.Inv(s) && s.latched == Null && L.Dispatchable(s, p) && L.LegalChoice(s, p, ch)
    ensures p.Field? && p.frame in s.core.suspended && L.Resumable(s, p.frame, ch)
    ensures var o := s.core.suspended[p.frame].op; o in s.ops && s.ops[o].status.Waiting?
    ensures L.Complete(s, p, ch) == L.ResumeInner(s, p.frame, ch) && L.Inv(L.Complete(s, p, ch))
  {
    hide L.Inv, L.ResumeInner, T.PicksEarliest, L.Allowed;
    L.CompleteKeepsInv(s, p, ch);
  }

  /** A latched pointer still is one to complete through. */
  lemma LatchedWriter(s: L.State, ch: L.Choice)
    requires L.Inv(s) && L.LegalChoice(s, s.latched, ch) && s.latched != Null
    ensures var s0 := s.(latched := Null);
      && L.Inv(s0) && L.Dispatchable(s0, s.latched) && L.LegalChoice(s0, s.latched, ch)
      && L.Complete(s0, s.latched, ch) == L.Complete(s, s.latched, ch).(latched := Null)
  {
    hide Awaiters.Inv, L.Linked, L.OpsOk, L.NetOk, L.FiredOk, L.ResumedOk, L.OnRecord, L.Complete, T.PicksEarliest;
    L.LatchedNull(s.core.suspended);
    L.SuspendedIsDispatchable(s, s.latched);
    L.KeepsLatch(s, s.latched, ch);
  }

  lemma ReadyToResume(s: L.State, f: nat, ch: L.Choice)
    requires L.Resumable(s, f, ch) && s.core.suspended[f].job.Io?
    ensures T.PicksEarliest(ch.pick) && Awaiters.Inv(s.core)
    ensures var o := s.core.suspended[f].op;
      && o in s.ops && s.ops[o].job == s.core.suspended[f].job && s.ops[o].buf.Valid()
      && CanMove(s.net, s.ops[o], ch.result)
  {
    hide Awaiters.Inv, L.Linked, L.OpsOk, L.NetOk, L.LatchedOk, L.FiredOk, L.ResumedOk, L.OnRecord, T.PicksEarliest,
      RecvAllowed, SendAllowed;
  }

  /** A ready await_resume leaves free what the next await_suspend takes, and an uncancelled token. */
  lemma AfterRelease(s: L.State, f: nat, ch: L.Choice)
    requires L.Resumable(s, f, ch) && s.core.suspended[f].job.Io?
    ensures Awaiters.Inv(s.core)
    ensures var susp := s.core.suspended[f];
      var c1 := Release(s.core, f, susp.job, ch.pick);
      VerdictOf(s.core, f, susp.job) == Ready ==>
        ch.next !in c1.suspended && SlotsFree(c1, susp.job) && !CancelRequested(c1, susp.job)
  {
    hide Awaiters.Inv, L.Linked, L.OpsOk, L.NetOk, L.LatchedOk, L.FiredOk, L.ResumedOk, L.OnRecord, Release,
      SlotsFree, T.PicksEarliest, RecvAllowed, SendAllowed, HasExpired;
    var susp := s.core.suspended[f];
    ReleaseKeepsInv(s.core, f, ch.pick);
    L.SlotsFreeAgain(s.core, f, Release(s.core, f, susp.job, ch.pick));
  }

  lemma RoundIsResume(s: L.State, f: nat, ch: L.Choice)
    requires L.Resumable(s, f, ch) && s.core.suspended[f].job.Io?
    requires VerdictOf(s.core, f, s.core.suspended[f].job) == Ready
    ensures var susp := s.core.suspended[f];
      var s1 := s.(core := Release(s.core, f, susp.job, ch.pick),
                   resumed := s.resumed + [(susp.op, s.ops[susp.op].suspensions)]);
      var s2 := AfterRound(s1, susp.op, ch.pick, ch.result, ch.next);
      susp.op in s2.ops && OuterAfter(s2, susp.op) == L.ResumeInner(s, f, ch)
  {
    hide L.Inv, Release, VerdictOf, T.PicksEarliest, Suspend, L.Round, L.Traffic, L.Transmit, L.ResumeInner,
      RecvAllowed, SendAllowed;
    L.IoShape(s, f, ch);
    L.ReadyKeepsClock(s.core, f, s.core.suspended[f].job, ch.pick);
  }
}
