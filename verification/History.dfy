/**
 Whole operations of the running loop: what an operation's record holds is what its coroutine, run on the
 outcomes of its resumptions so far and on the bytes its socket was sent, would have made of it.
 */
module Histories {
  import opened Handles
  import T = Timers
  import opened Awaiters
  import opened Transfer
  import L = Loop
  import B = ByteLoops
  import opened Theorems

  /** What the step a tells the coroutine of operation o: nothing, unless it resumes o, or starts it on a
      cancelled token. */
  ghost function Outcome(s: L.State, a: L.Action, o: nat): seq<B.Await>
    requires L.Legal(s, a)
  {
    if o !in s.ops then
      if a.Start? && a.op == o && CancelRequested(s.core, a.job) then [B.Reports(OperationCanceled)] else []
    else if s.ops[o].status.Waiting? && L.Resumes(s, a, s.ops[o].frame) then
      [AwaitOf(VerdictOf(s.core, s.ops[o].frame, s.ops[o].job), a.choice.result)]
    else []
  }

  /** The outcomes of all resumptions of o in a run, in order. */
  ghost function ScriptOf(init: L.State, run: seq<L.Action>, o: nat): seq<B.Await>
    requires L.LegalRun(init, run)
    decreases |run|
  {
    if run == [] then []
    else
      var before := run[..|run| - 1];
      ScriptOf(init, before, o) + Outcome(L.Exec(init, before), run[|run| - 1], o)
  }

  /** The record of an operation without that of its suspensions. */
  function Bare(op: Op): Op {
    op.(suspensions := 0, outerResumes := 0, frame := 0, due := None)
  }

  /** The operation as it was when its coroutine began. */
  function Fresh(op: Op): Op {
    NewOp(op.job, op.initial, op.base, 0)
  }

  /** All that a reader's socket was sent from the reader's beginning on; a writer's sends do not depend on it. */
  function Ahead(net: L.Net, op: Op): seq<Byte> {
    if op.job.Io? && op.job.dir == Inbound && op.base <= |L.At(net.into, op.job.socket)| then
      L.At(net.into, op.job.socket)[op.base..]
    else []
  }

  /** The coroutine, run along the script, arrives at this record, and, while it waits, leaves what is on the wire. */
  ghost predicate Told(net: L.Net, op: Op, script: seq<B.Await>) {
    && |script| == op.awaits
    && B.ScriptAllowed(Fresh(op), Ahead(net, op), script)
    && var (op', rest) := B.Rounds(Fresh(op), Ahead(net, op), script);
       && op' == Bare(op)
       && (op.status.Waiting? ==> rest == WireOf(net, op))
  }

  function WireOf(net: L.Net, op: Op): seq<Byte> {
    if op.job.Io? && op.job.dir == Inbound then L.At(net.wire, op.job.socket) else []
  }

  // ------------------------------------------------------------------ scripts

  lemma OneRoundExtends(op: Op, wire: seq<Byte>, more: seq<Byte>, a: B.Await)
    requires B.AwaitAllowed(op, wire, a)
    ensures B.AwaitAllowed(op, wire + more, a) && B.OneRound(op, wire + more, a) == B.OneRound(op, wire, a)
  {
    if op.job.dir == Inbound && a.IsReady? && a.r.Moved? {
      assert (wire + more)[..a.r.n] == wire[..a.r.n];
      assert (wire + more)[a.r.n..] == wire[a.r.n..] + more;
    }
  }

  /** Bytes that arrive later change nothing but what is left. */
  lemma {:induction false} RoundsExtend(op: Op, wire: seq<Byte>, more: seq<Byte>, script: seq<B.Await>)
    requires B.ScriptAllowed(op, wire, script)
    ensures B.ScriptAllowed(op, wire + more, script)
    ensures B.Rounds(op, wire + more, script) == (B.Rounds(op, wire, script).0, B.Rounds(op, wire, script).1 + more)
    decreases |script|
  {
    hide B.OneRound, B.WireAfter, B.AwaitAllowed;
    if !op.status.Done? && script != [] {
      var a := script[0];
      OneRoundExtends(op, wire, more, a);
      AfterExtends(op, wire, more, a);
      RoundsExtend(B.OneRound(op, wire, a), B.WireAfter(op, wire, a), more, script[1..]);
    }
  }

  lemma AfterExtends(op: Op, wire: seq<Byte>, more: seq<Byte>, a: B.Await)
    requires B.AwaitAllowed(op, wire, a)
    ensures B.WireAfter(op, wire + more, a) == B.WireAfter(op, wire, a) + more
  {
    if op.job.dir == Inbound && a.IsReady? && a.r.Moved? {
      assert (wire + more)[..a.r.n] == wire[..a.r.n];
      assert (wire + more)[a.r.n..] == wire[a.r.n..] + more;
    }
  }

  /** One more outcome is one more round. */
  lemma {:induction false} RoundsGoOn(op: Op, wire: seq<Byte>, script: seq<B.Await>, a: B.Await)
    requires B.ScriptAllowed(op, wire, script)
    requires var (op1, wire1) := B.Rounds(op, wire, script);
      op1.status.Waiting? && B.AwaitAllowed(op1, wire1, a)
    ensures var (op1, wire1) := B.Rounds(op, wire, script);
      && B.ScriptAllowed(op, wire, script + [a])
      && B.Rounds(op, wire, script + [a]) == (B.OneRound(op1, wire1, a), B.WireAfter(op1, wire1, a))
    decreases |script|
  {
    hide B.OneRound, B.WireAfter, B.AwaitAllowed;
    if script == [] || op.status.Done? {
      assert script + [a] == [a];
      assert [a][1..] == [];
    } else {
      assert (script + [a])[0] == script[0] && (script + [a])[1..] == script[1..] + [a];
      RoundsGoOn(B.OneRound(op, wire, script[0]), B.WireAfter(op, wire, script[0]), script[1..], a);
    }
  }

  // ------------------------------------------------------------------ one step

  /** An operation that a step neither starts nor resumes keeps its record. */
  lemma OthersKeepTheirRecord(s: L.State, a: L.Action, o: nat)
    requires Reachable(s) && L.Legal(s, a) && o in s.ops
    requires s.ops[o].status.Waiting? ==> !L.Resumes(s, a, s.ops[o].frame)
    ensures var s' := L.Step(s, a); o in s'.ops && s'.ops[o] == s.ops[o] && L.NetGrows(s.net, s'.net)
  {
    hide Reachable, L.Inv, L.ResumeInner, T.PicksEarliest, Release, Suspend, L.Complete;
    ReachableInv(s);
    if a.EventRead? || a.EventWrite? {
      var p := L.Completed(s, a);
      if p == Null {
        L.NothingCompleted(s, a);
      } else {
        CompletedIsSuspended(s, a);
        L.StepIsResumption(s, a, p.frame);
        L.ResumeTouchesOne(s, p.frame, a.choice);
        L.Own(s, p.frame);
      }
    }
  }

  lemma CompletedIsSuspended(s: L.State, a: L.Action)
    requires L.Inv(s) && L.Legal(s, a) && (a.EventRead? || a.EventWrite?) && L.Completed(s, a) != Null
    ensures var p := L.Completed(s, a); p.Field? && p.frame in s.core.suspended && L.Resumes(s, a, p.frame)
  {
    hide L.Inv, L.Dispatchable, T.PicksEarliest, L.Allowed;
    if a.EventRead? { L.ReadSlotIsDispatchable(s, a.fd); } else { L.LatchedIsDispatchable(s); }
    DispatchableIsSuspended(s, L.Completed(s, a));
  }

  lemma DispatchableIsSuspended(s: L.State, p: Ptr)
    requires L.Dispatchable(s, p)
    ensures p.Field? && p.frame in s.core.suspended
  {
  }

  /** While an operation waits for bytes, what is put on its wire stays there. */
  lemma WireGrows(net: L.Net, net': L.Net, op: Op, more: seq<Byte>)
    requires L.NetOk(net) && L.NetOk(net') && L.NetGrows(net, net')
    requires op.job.Io? && op.job.dir == Inbound && L.OpOk(op, net) && L.OpOk(op, net') && op.status.Waiting?
    requires L.At(net'.into, op.job.socket) == L.At(net.into, op.job.socket) + more
    ensures L.At(net'.wire, op.job.socket) == L.At(net.wire, op.job.socket) + more
  {
    var k := op.job.socket;
    var got, wire, wire' := L.At(net.got, k), L.At(net.wire, k), L.At(net'.wire, k);
    assert got <= L.At(net'.got, k) && |got| == |L.At(net'.got, k)|;
    assert L.At(net'.got, k) == got;
    assert L.At(net'.into, k) == got + wire' && L.At(net.into, k) == got + wire;
    assert got + wire' == got + (wire + more);
    assert (got + wire')[|got|..] == wire' && (got + (wire + more))[|got|..] == wire + more;
  }

  /** The story of an operation stays true while others go on. */
  lemma ToldStays(net: L.Net, net': L.Net, op: Op, script: seq<B.Await>)
    requires Told(net, op, script) && op.job.Io?
    requires L.NetOk(net) && L.NetOk(net') && L.NetGrows(net, net') && L.OpOk(op, net) && L.OpOk(op, net')
    ensures Told(net', op, script)
  {
    hide L.NetOk, L.OpOk, B.Rounds, B.ScriptAllowed;
    if op.job.dir == Inbound {
      var k := op.job.socket;
      var before, after := L.At(net.into, k), L.At(net'.into, k);
      assert before <= after;
      var more := after[|before|..];
      assert after == before + more;
      BeganWithin(net, op);
      assert after[op.base..] == before[op.base..] + more;
      RoundsExtend(Fresh(op), Ahead(net, op), more, script);
      if op.status.Waiting? { WireGrows(net, net', op, more); }
    }
  }

  lemma BeganWithin(net: L.Net, op: Op)
    requires L.NetOk(net) && L.OpOk(op, net) && op.job.Io? && op.job.dir == Inbound
    ensures op.base <= |L.At(net.into, op.job.socket)|
  {
    assert L.At(net.into, op.job.socket) == L.At(net.got, op.job.socket) + L.At(net.wire, op.job.socket);
  }

  /** The records at the two ends of a resumption tell one round more. */
  lemma ToldGoesOn(net: L.Net, net': L.Net, op: Op, op': Op, script: seq<B.Await>, a: B.Await)
    requires Told(net, op, script) && op.job.Io? && op.status.Waiting?
    requires var wire := L.At(net.wire, op.job.socket);
      && B.AwaitAllowed(op, wire, a) && B.OneRound(op, wire, a) == Unrecorded(op', op)
      && (op.job.dir == Inbound ==>
            && L.At(net'.wire, op.job.socket) == B.WireAfter(op, wire, a)
            && L.At(net'.into, op.job.socket) == L.At(net.into, op.job.socket))
    ensures Told(net', op', script + [a])
  {
    var wire := WireOf(net, op);
    BareRound(op, wire, L.At(net.wire, op.job.socket), a);
    RoundKeeps(op, L.At(net.wire, op.job.socket), a);
    hide B.OneRound, B.WireAfter, B.AwaitAllowed, B.Rounds, B.ScriptAllowed;
    RoundsGoOn(Fresh(op), Ahead(net, op), script, a);
  }

  /** A round does not look at the suspension record, and a send not at the wire. */
  lemma BareRound(op: Op, wire: seq<Byte>, line: seq<Byte>, a: B.Await)
    requires op.job.Io? && B.AwaitAllowed(op, line, a) && (op.job.dir == Inbound ==> wire == line)
    ensures B.AwaitAllowed(Bare(op), wire, a)
    ensures B.OneRound(Bare(op), wire, a) == Bare(B.OneRound(op, line, a))
    ensures B.WireAfter(Bare(op), wire, a) == if op.job.dir == Inbound then B.WireAfter(op, line, a) else wire
  {
  }

  lemma RoundKeeps(op: Op, wire: seq<Byte>, a: B.Await)
    requires B.AwaitAllowed(op, wire, a)
    ensures var op1 := B.OneRound(op, wire, a);
      && op1.job == op.job && op1.initial == op.initial && op1.base == op.base && op1.awaits == op.awaits + 1
  {
  }

  lemma ResumedIsTold(s: L.State, a: L.Action, o: nat, script: seq<B.Await>)
    requires Reachable(s) && L.Legal(s, a) && o in s.ops && s.ops[o].job.Io?
    requires s.ops[o].status.Waiting? && L.Resumes(s, a, s.ops[o].frame)
    requires Told(s.net, s.ops[o], script)
    ensures var s' := L.Step(s, a); o in s'.ops && Told(s'.net, s'.ops[o], script + Outcome(s, a, o))
  {
    hide Reachable, L.Inv, L.ResumeInner, T.PicksEarliest, Release, Suspend, L.Complete, L.Step, L.Legal, L.Resumes,
      Told, VerdictOf, B.OneRound, B.WireAfter, B.AwaitAllowed, Unrecorded;
    ReachableInv(s);
    var f := s.ops[o].frame;
    WaiterOf(s, o);
    ResumedByShape(s, a, f);
    L.ResumeTouchesOne(s, f, a.choice);
    ResumptionIsOneRound(s, a, f);
    var await_ := AwaitOf(VerdictOf(s.core, f, s.ops[o].job), a.choice.result);
    ToldGoesOn(s.net, L.Step(s, a).net, s.ops[o], L.Step(s, a).ops[o], script, await_);
  }

  lemma WaiterOf(s: L.State, o: nat)
    requires L.Inv(s) && o in s.ops && s.ops[o].status.Waiting?
    ensures s.ops[o].frame in s.core.suspended
    ensures s.core.suspended[s.ops[o].frame].op == o && s.core.suspended[s.ops[o].frame].job == s.ops[o].job
  {
    hide Awaiters.Inv, L.OpsOk, L.NetOk, L.LatchedOk, L.FiredOk, L.ResumedOk, L.OnRecord;
    var f := s.ops[o].frame;
    assert L.LinkOk(f, s.core.suspended[f], s.ops[s.core.suspended[f].op]);
  }

  /** An operation begins with nothing told, or with the one refusal of a cancelled token. */
  lemma StartIsTold(s: L.State, a: L.Action, o: nat)
    requires L.NetOk(s.net) && L.Legal(s, a) && o !in s.ops && a.Start? && a.op == o && a.job.Io?
    ensures var s' := L.Step(s, a); o in s'.ops && Told(s'.net, s'.ops[o], Outcome(s, a, o))
  {
    hide Release, Suspend, T.PicksEarliest, SlotsFree, L.NetOk;
    var op := NewOp(a.job, a.buf, L.BaseOf(s.net, a.job), a.frame);
    IntoIsGotAndWire(s.net, a.job.socket);
    assert Bare(op) == Fresh(op);
    if CancelRequested(s.core, a.job) {
      var r := B.Reports(OperationCanceled);
      assert B.AwaitAllowed(Fresh(op), Ahead(s.net, op), r);
      RoundsGoOn(Fresh(op), Ahead(s.net, op), [], r);
      assert [] + [r] == [r];
    }
  }

  lemma IntoIsGotAndWire(net: L.Net, k: nat)
    requires L.NetOk(net)
    ensures L.At(net.into, k) == L.At(net.got, k) + L.At(net.wire, k)
    ensures L.At(net.into, k)[|L.At(net.got, k)|..] == L.At(net.wire, k)
  {
  }

  lemma StepIsTold(s: L.State, a: L.Action, o: nat, script: seq<B.Await>)
    requires Reachable(s) && L.Legal(s, a) && o in L.Step(s, a).ops && L.Step(s, a).ops[o].job.Io?
    requires if o in s.ops then s.ops[o].job.Io? ==> Told(s.net, s.ops[o], script) else script == []
    ensures Told(L.Step(s, a).net, L.Step(s, a).ops[o], script + Outcome(s, a, o))
  {
    hide Reachable, L.Inv, L.Step, L.Legal, Told, L.Resumes, L.NetOk, L.OpOk;
    ReachableInv(s);
    L.StepKeepsInv(s, a);
    NetAndOp(s);
    NetAndOp(L.Step(s, a));
    if o !in s.ops {
      OnlyStartsAdd(s, a, o);
      StartIsTold(s, a, o);
      assert [] + Outcome(s, a, o) == Outcome(s, a, o);
    } else if s.ops[o].status.Waiting? && L.Resumes(s, a, s.ops[o].frame) {
      JobStays(s, a, o);
      ResumedIsTold(s, a, o, script);
    } else {
      OthersKeepTheirRecord(s, a, o);
      ToldStays(s.net, L.Step(s, a).net, s.ops[o], script);
      assert script + [] == script;
    }
  }

  lemma NetAndOp(s: L.State)
    requires L.Inv(s)
    ensures L.NetOk(s.net) && forall o <- s.ops :: L.OpOk(s.ops[o], s.net)
  {
  }

  lemma OnlyStartsAdd(s: L.State, a: L.Action, o: nat)
    requires Reachable(s) && L.Legal(s, a) && o !in s.ops && o in L.Step(s, a).ops
    ensures a.Start? && a.op == o && L.Step(s, a).ops[o].job == a.job
  {
    hide Reachable, L.Inv, L.ResumeInner, T.PicksEarliest, Release, Suspend, L.Complete, SlotsFree;
    ReachableInv(s);
    if a.EventRead? || a.EventWrite? {
      if L.Completed(s, a) == Null {
        L.NothingCompleted(s, a);
      } else {
        CompletedIsSuspended(s, a);
        L.StepIsResumption(s, a, L.Completed(s, a).frame);
        L.ResumeTouchesOne(s, L.Completed(s, a).frame, a.choice);
      }
    }
  }

  lemma JobStays(s: L.State, a: L.Action, o: nat)
    requires Reachable(s) && L.Legal(s, a) && o in s.ops && s.ops[o].status.Waiting?
    requires L.Resumes(s, a, s.ops[o].frame)
    ensures o in L.Step(s, a).ops && L.Step(s, a).ops[o].job == s.ops[o].job
  {
    hide Reachable, L.Inv, L.ResumeInner, T.PicksEarliest, Release, Suspend, L.Complete, L.Step, L.Legal, L.Resumes;
    ReachableInv(s);
    WaiterOf(s, o);
    ResumedByShape(s, a, s.ops[o].frame);
    L.ResumeTouchesOne(s, s.ops[o].frame, a.choice);
  }

  // ------------------------------------------------------------------ whole operations

  lemma ReachableByRun(init: L.State, run: seq<L.Action>)
    requires L.Initial(init) && L.LegalRun(init, run)
    ensures Reachable(L.Exec(init, run))
  {
    hide L.Initial;
  }

  /** In every run, whatever else goes on in it, the record of each read and write is what its coroutine makes
      of the outcomes of its own resumptions and of the bytes its socket was sent since it began; and while it
      waits, what the coroutine has left over is what is on the wire. */
  lemma {:induction false} OperationIsItsCoroutine(init: L.State, run: seq<L.Action>, o: nat)
    requires L.Initial(init) && L.LegalRun(init, run)
    ensures var s := L.Exec(init, run);
      if o in s.ops then s.ops[o].job.Io? ==> Told(s.net, s.ops[o], ScriptOf(init, run, o))
      else ScriptOf(init, run, o) == []
    decreases |run|
  {
    hide L.Step, L.Legal, Told, L.Initial, Reachable;
    if run == [] {
      NoOpsYet(init);
    } else {
      var before := run[..|run| - 1];
      var s, a := L.Exec(init, before), run[|run| - 1];
      OperationIsItsCoroutine(init, before, o);
      ReachableByRun(init, before);
      var s' := L.Step(s, a);
      if o in s'.ops {
        if s'.ops[o].job.Io? { StepIsTold(s, a, o, ScriptOf(init, before, o)); }
      } else {
        NotStartedYet(s, a, o);
      }
    }
  }

  lemma NoOpsYet(init: L.State)
    requires L.Initial(init)
    ensures init.ops == map[]
  {
  }

  lemma NotStartedYet(s: L.State, a: L.Action, o: nat)
    requires Reachable(s) && L.Legal(s, a) && o !in L.Step(s, a).ops
    ensures o !in s.ops && Outcome(s, a, o) == []
  {
    hide Reachable, L.Inv, L.ResumeInner, T.PicksEarliest, Release, Suspend, L.Complete, SlotsFree;
    ReachableInv(s);
    if o in s.ops {
      if s.ops[o].status.Waiting? && L.Resumes(s, a, s.ops[o].frame) {
        JobStays(s, a, o);
      } else {
        OthersKeepTheirRecord(s, a, o);
      }
    }
  }

  /** A timed read or write of the running loop that neither its timer nor its token ever ended has, in every
      run, the status, the buffer and the bytes left over that the plain coroutine has after the same recv and
      send results on the same stream. */
  lemma TimedActsLikePlain(init: L.State, run: seq<L.Action>, o: nat)
    requires L.Initial(init) && L.LegalRun(init, run)
    requires o in L.Exec(init, run).ops && L.Exec(init, run).ops[o].job.Io?
    requires forall a <- ScriptOf(init, run, o) :: a.IsReady?
    ensures var s := L.Exec(init, run);
      var op, script := s.ops[o], ScriptOf(init, run, o);
      && B.ScriptAllowed(B.Plain(Fresh(op)), Ahead(s.net, op), script)
      && var (plain, rest) := B.Rounds(B.Plain(Fresh(op)), Ahead(s.net, op), script);
         && plain == B.Plain(Bare(op)) && plain.status == op.status && plain.buf == op.buf && plain.total == op.total
         && (op.status.Waiting? ==> rest == WireOf(s.net, op))
  {
    hide L.Step, L.Legal, L.Initial, B.Rounds, B.ScriptAllowed, L.Exec, L.LegalRun, ScriptOf;
    OperationIsItsCoroutine(init, run, o);
    var s := L.Exec(init, run);
    B.TimedSimulatesPlain(Fresh(s.ops[o]), Ahead(s.net, s.ops[o]), ScriptOf(init, run, o));
  }
}
