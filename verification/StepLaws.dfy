/**
 What each step of the loop does, in the terms of the table, the tokens, the streams and the operations, and what
 follows for runs: which requests cancel, what an operation was started with, and how it may end.
 */
module StepLaws {
  import opened Handles
  import T = Timers
  import I = Interest
  import opened Awaiters
  import opened Transfer
  import L = Loop
  import opened Theorems
  import H = Histories

  // ------------------------------------------------------------------ clock, tokens, bytes

  /** The clock moves on by the span, and nothing else changes. */
  lemma TickLaw(s: L.State, span: nat)
    ensures var s' := L.Step(s, L.Tick(span));
      && s'.core.now == s.core.now + span
      && s' == s.(core := s.core.(now := s'.core.now))
  {
  }

  /** A first request sets the token's flag and adds one to its eventfd's counter, a later one changes nothing;
      no other token, no operation and no stream is touched. */
  lemma RequestLaw(s: L.State, k: nat)
    ensures var s' := L.Step(s, L.Request(k));
      var before, after := TokenOf(s.core, k), TokenOf(s'.core, k);
      && after.cancelled
      && after.counter == before.counter + (if before.cancelled then 0 else 1)
      && (forall j: nat :: j != k ==> TokenOf(s'.core, j) == TokenOf(s.core, j))
      && s' == s.(core := s.core.(tokens := s'.core.tokens))
  {
  }

  /** Bytes from outside are appended to one socket's wire; nothing else changes. */
  lemma ArriveLaw(s: L.State, k: nat, bytes: seq<Byte>)
    requires L.Legal(s, L.Arrive(k, bytes))
    ensures var s' := L.Step(s, L.Arrive(k, bytes));
      && L.At(s'.net.wire, k) == L.At(s.net.wire, k) + bytes
      && (forall j: nat :: j != k ==> L.At(s'.net.wire, j) == L.At(s.net.wire, j))
      && s'.net.got == s.net.got && s'.net.out == s.net.out && s'.net.peer == s.net.peer
      && s' == s.(net := s'.net)
  {
  }

  /** Only a request sets a flag, and apart from requests a counter changes only by being read empty. */
  lemma OnlyRequestsCancel(s: L.State, a: L.Action, k: nat)
    requires Reachable(s) && L.Legal(s, a) && a != L.Request(k)
    ensures var before, after := TokenOf(s.core, k), TokenOf(L.Step(s, a).core, k);
      && after.cancelled == before.cancelled
      && (after.counter == before.counter || after.counter == 0)
  {
    hide Reachable, Awaiters.Inv, L.Linked, L.OpsOk, L.NetOk, L.LatchedOk, L.FiredOk, L.ResumedOk, L.OnRecord,
      L.ResumeInner, L.Complete, Release, Suspend, SlotsFree, T.PicksEarliest;
    ReachableInv(s);
    if a.Start? {
      StartTokens(s, a);
    } else if a.EventRead? || a.EventWrite? {
      if L.Completed(s, a) == Null {
        L.NothingCompleted(s, a);
      } else {
        var f := L.Completed(s, a).frame;
        H.CompletedIsSuspended(s, a);
        L.StepIsResumption(s, a, f);
        ResumptionTokens(s, f, a.choice);
      }
    }
  }

  lemma StartTokens(s: L.State, a: L.Action)
    requires L.Inv(s) && L.Legal(s, a) && a.Start?
    ensures var c' := L.Step(s, a).core;
      if CancelRequested(s.core, a.job) then c'.tokens == ConsumeToken(s.core, a.job.token.value).tokens
      else c'.tokens == s.core.tokens
  {
    hide Awaiters.Inv, L.Linked, L.OpsOk, L.NetOk, L.LatchedOk, L.FiredOk, L.ResumedOk, L.OnRecord, Release, Suspend,
      SlotsFree, T.PicksEarliest;
    if CancelRequested(s.core, a.job) {
      DeclinedKeepsInv(s.core, a.frame, a.job, a.pick);
    } else {
      SuspendKeepsInv(s.core, a.frame, a.op, a.job, a.pick);
    }
  }

  lemma ResumptionTokens(s: L.State, f: nat, ch: L.Choice)
    requires L.Resumable(s, f, ch)
    ensures var tokens := L.ResumeInner(s, f, ch).core.tokens;
      || tokens == s.core.tokens
      || (s.core.suspended[f].job.Io? && s.core.suspended[f].job.token.Some?
          && tokens == ConsumeToken(s.core, s.core.suspended[f].job.token.value).tokens)
  {
    hide Awaiters.Inv, L.Linked, L.OpsOk, L.NetOk, L.LatchedOk, L.FiredOk, L.ResumedOk, L.OnRecord, L.ResumeInner,
      Release, Suspend, VerdictOf, T.PicksEarliest, L.Round, L.Traffic, L.Transmit, RecvAllowed, SendAllowed;
    ReleaseKeepsInv(s.core, f, ch.pick);
    if VerdictOf(s.core, f, s.core.suspended[f].job) == Ready {
      L.VerdictReadyIsIo(s.core, f);
      L.IoShape(s, f, ch);
      AgainTokens(s, f, ch);
    } else {
      L.EndedShape(s, f, ch);
    }
  }

  lemma AgainTokens(s: L.State, f: nat, ch: L.Choice)
    requires L.Resumable(s, f, ch) && s.core.suspended[f].job.Io?
    requires VerdictOf(s.core, f, s.core.suspended[f].job) == Ready
    ensures var susp := s.core.suspended[f];
      Suspend(Release(s.core, f, susp.job, ch.pick), ch.next, susp.op, susp.job, ch.pick).tokens == s.core.tokens
  {
    hide Awaiters.Inv, L.Linked, L.OpsOk, L.NetOk, L.LatchedOk, L.FiredOk, L.ResumedOk, L.OnRecord, Release, Suspend,
      SlotsFree, T.PicksEarliest, HasExpired;
    var susp := s.core.suspended[f];
    ReleaseKeepsInv(s.core, f, ch.pick);
    var c1 := Release(s.core, f, susp.job, ch.pick);
    L.SlotsFreeAgain(s.core, f, c1);
    SuspendKeepsInv(c1, ch.next, susp.op, susp.job, ch.pick);
  }

  // ------------------------------------------------------------------ starting

  /** Until when an operation that begins to wait now will wait. */
  function Deadline(job: Job, now: int): Option<int> {
    if job.Wait? then Some(now + job.span)
    else if job.delay.Some? then Some(now + job.delay.value)
    else None
  }

  /** An operation starts with the buffer and the job it was given. Unless its token is cancelled it is suspended
      with its own deadline, and a timer for it; if it is, the operation ends at once with nothing registered
      and the eventfd read empty. Everything else stays. */
  lemma StartLaw(s: L.State, o: nat, f: nat, job: Job, buf: Buffer, pick: T.Pick)
    requires Reachable(s) && L.Legal(s, L.Start(o, f, job, buf, pick))
    ensures var s' := L.Step(s, L.Start(o, f, job, buf, pick));
      && o in s'.ops && s'.ops == s.ops[o := s'.ops[o]]
      && s' == s.(core := s'.core, ops := s'.ops) && s'.core.now == s.core.now
      && var op := s'.ops[o];
         && op.job == job && op.initial == buf && op.buf == buf && op.outerResumes == 0
         && if job.Io? && job.token.Some? && TokenOf(s.core, job.token.value).cancelled then
              && op.status == Done(OperationCanceled, if job.dir == Inbound then buf.offset else 0)
              && op.suspensions == 0
              && s'.core.suspended == s.core.suspended && T.Live(s'.core.timers) == T.Live(s.core.timers)
              && TokenOf(s'.core, job.token.value) == Token(true, 0)
            else
              var due := Deadline(job, s.core.now);
              && op.status == Waiting && op.suspensions == 1
              && s'.core.suspended == s.core.suspended[f := Suspension(o, job, due)]
              && s'.core.tokens == s.core.tokens
              && T.Live(s.core.timers) <= T.Live(s'.core.timers)
              && (due.Some? ==> exists t <- T.Live(s'.core.timers) :: t.read == Field(f, OnTimer) && t.due == due.value)
  {
    hide Reachable, Awaiters.Inv, L.Linked, L.OpsOk, L.NetOk, L.LatchedOk, L.FiredOk, L.ResumedOk, L.OnRecord, Release,
      Suspend, SlotsFree, T.PicksEarliest, T.Live;
    ReachableInv(s);
    if CancelRequested(s.core, job) {
      DeclinedKeepsInv(s.core, f, job, pick);
    } else {
      SuspendKeepsInv(s.core, f, o, job, pick);
      if Deadline(job, s.core.now).Some? { TimerOf(Suspend(s.core, f, o, job, pick), f); }
    }
  }

  /** A suspended awaiter with a deadline has a live timer for it. */
  lemma TimerOf(c: State, f: nat)
    requires Awaiters.Inv(c) && f in c.suspended && c.suspended[f].due.Some?
    ensures exists t <- T.Live(c.timers) :: t.read == Field(f, OnTimer) && t.due == c.suspended[f].due.value
  {
    hide I.Inv, T.Inv, T.Live, T.Settled, I.Readers, I.Writers, Registered, Backed, JobsOk, TimerSlot, T.TaskOf;
    var t := T.TaskOf(c.timers, Field(f, OnTimer));
    assert t in T.Live(c.timers);
  }

  // ------------------------------------------------------------------ events

  /** The resumption of the awaiter at f is on record. */
  ghost predicate Logged(s: L.State, f: nat, s': L.State) {
    && f in s.core.suspended && s.core.suspended[f].op in s.ops
    && var o := s.core.suspended[f].op;
       s'.resumed == s.resumed + [(o, s.ops[o].suspensions)]
  }

  /** The first half of an event resumes the operation in the descriptor's read slot, if it is ready to read and
      there is one, and nothing else; and it keeps, of an event ready to write, what was in the write slot. */
  lemma ReadHalfLaw(s: L.State, fd: Fd, readReady: bool, writeReady: bool, ch: L.Choice)
    requires Reachable(s) && L.Legal(s, L.EventRead(fd, readReady, writeReady, ch))
    ensures var s' := L.Step(s, L.EventRead(fd, readReady, writeReady, ch));
      var table := s.core.sched.table;
      && s'.latched == (if writeReady && fd in table then table[fd].write else Null)
      && if readReady && fd in table && table[fd].read != Null then
           table[fd].read.Field? && Logged(s, table[fd].read.frame, s')
         else s' == s.(latched := s'.latched)
  {
    hide Reachable, L.Inv, L.Dispatchable, T.PicksEarliest, L.Allowed, L.Complete, L.ResumeInner;
    ReachableInv(s);
    var a := L.EventRead(fd, readReady, writeReady, ch);
    if L.Completed(s, a) != Null {
      H.CompletedIsSuspended(s, a);
      L.StepIsResumption(s, a, L.Completed(s, a).frame);
      ResumptionIsLogged(s, L.Completed(s, a).frame, ch);
    }
  }

  lemma ResumptionIsLogged(s: L.State, f: nat, ch: L.Choice)
    requires L.Resumable(s, f, ch)
    ensures Logged(s, f, L.ResumeInner(s, f, ch))
  {
    hide L.Inv, L.ResumeInner, T.PicksEarliest, VerdictOf, Release, Suspend, L.Round, L.Traffic, L.Transmit;
    L.Own(s, f);
    if VerdictOf(s.core, f, s.core.suspended[f].job) == Ready {
      L.VerdictReadyIsIo(s.core, f);
      L.IoShape(s, f, ch);
    } else {
      L.EndedShape(s, f, ch);
    }
  }

  /** The second half resumes what was kept, or does nothing. */
  lemma WriteHalfLaw(s: L.State, ch: L.Choice)
    requires Reachable(s) && L.Legal(s, L.EventWrite(ch))
    ensures var s' := L.Step(s, L.EventWrite(ch));
      && s'.latched == Null
      && if s.latched != Null then s.latched.Field? && Logged(s, s.latched.frame, s') else s' == s
  {
    hide Reachable, L.Inv, L.Dispatchable, T.PicksEarliest, L.Allowed, L.Complete, L.ResumeInner;
    ReachableInv(s);
    var a := L.EventWrite(ch);
    if s.latched != Null {
      H.CompletedIsSuspended(s, a);
      L.StepIsResumption(s, a, s.latched.frame);
      ResumptionIsLogged(s, s.latched.frame, ch);
    }
  }

  /** An event for any descriptor can be dispatched in every state between events, and its second half in every
      state: the loop is never stuck. */
  lemma NeverStuck(s: L.State, fd: Fd, readReady: bool, writeReady: bool)
    requires Reachable(s)
    ensures s.latched == Null ==> exists ch: L.Choice :: L.Legal(s, L.EventRead(fd, readReady, writeReady, ch))
    ensures exists ch: L.Choice :: L.Legal(s, L.EventWrite(ch))
  {
    hide Reachable, T.PicksEarliest;
    T.PickExists();
    var pick: T.Pick :| T.PicksEarliest(pick);
    var readOp := I.ReadSlot(s.core.sched, fd);
    var read := L.Choice(pick, WouldBlock, if readOp.Field? then readOp.frame else 0);
    var write := L.Choice(pick, WouldBlock, if s.latched.Field? then s.latched.frame else 0);
    if s.latched == Null { assert L.Legal(s, L.EventRead(fd, readReady, writeReady, read)); }
    assert L.Legal(s, L.EventWrite(write));
  }

  /** Any new operation may be started whose slots are free, at any free address, with any buffer that is one; the
      clock may always move, any token be asked for, and bytes arrive where the other end is outside. */
  lemma AnythingMayStart(s: L.State, o: nat, f: nat, job: Job, buf: Buffer)
    requires o !in s.ops && f !in s.core.suspended && buf.offset <= |buf.data|
    requires forall g <- s.core.suspended :: var other := s.core.suspended[g].job;
      job.Io? && other.Io? ==>
        && (job.dir == other.dir ==> job.socket != other.socket)
        && (job.token.Some? ==> job.token != other.token)
    ensures exists pick: T.Pick :: L.Legal(s, L.Start(o, f, job, buf, pick))
    ensures forall span: nat :: L.Legal(s, L.Tick(span))
    ensures forall k: nat :: L.Legal(s, L.Request(k))
    ensures forall k: nat, bytes: seq<Byte> ::
      (forall w <- s.net.peer :: s.net.peer[w] != k) ==> L.Legal(s, L.Arrive(k, bytes))
  {
    hide T.PicksEarliest;
    T.PickExists();
    var pick: T.Pick :| T.PicksEarliest(pick);
    assert L.Legal(s, L.Start(o, f, job, buf, pick));
    forall span: nat ensures L.Legal(s, L.Tick(span)) {
    }
    forall k: nat ensures L.Legal(s, L.Request(k)) {
    }
  }

  /** Whatever recv or send may return to the operation a dispatch resumes is provided for: up to the room, and
      for a recv up to what is on the wire, or zero, or that it would block, or any failure; and the loop's next
      awaiter may be built at the same address or any free one. */
  lemma AnyResultIsPossible(s: L.State, a: L.Action, r: Syscall, next: nat)
    requires Reachable(s) && L.Legal(s, a) && (a.EventRead? || a.EventWrite?)
    requires next !in s.core.suspended || (L.Completed(s, a).Field? && next == L.Completed(s, a).frame)
    requires forall f <- s.core.suspended :: L.Resumes(s, a, f) && s.core.suspended[f].job.Io? ==>
      s.core.suspended[f].op in s.ops && CouldReturn(s.net, s.ops[s.core.suspended[f].op], r)
    ensures L.Legal(s, a.(choice := L.Choice(a.choice.pick, r, next)))
  {
    hide Reachable, T.PicksEarliest, L.Linked, L.OpsOk, L.NetOk, L.LatchedOk, L.FiredOk, L.ResumedOk, L.OnRecord,
      Awaiters.Inv;
    ReachableInv(s);
    var p := L.Completed(s, a);
    if p.Field? && p.frame in s.core.suspended { L.Own(s, p.frame); }
  }

  ghost predicate CouldReturn(net: L.Net, op: Op, r: Syscall) {
    match r
    case Moved(n) =>
      && 1 <= n <= |op.buf.data| - op.buf.offset
      && (op.job.Io? && op.job.dir == Inbound ==> n <= |L.At(net.wire, op.job.socket)|)
    case Fault(errno) => errno != 0
    case _ => true
  }

  // ------------------------------------------------------------------ one resumption

  /** How a resumption comes out is decided by the token first, then by the timer. */
  lemma VerdictLaw(s: L.State, a: L.Action, f: nat)
    requires ResumedBy(s, a, f)
    ensures var susp := s.core.suspended[f];
      var verdict := VerdictOf(s.core, f, susp.job);
      var cancelled := susp.job.Io? && susp.job.token.Some? && TokenOf(s.core, susp.job.token.value).cancelled;
      var expired := s.core.timers.cur.read == Field(f, OnTimer) && susp.due.Some? && susp.due.value <= s.core.now;
      && (verdict == Elapsed <==> susp.job.Wait?)
      && (verdict == Cancelled <==> cancelled)
      && (verdict == TimedOut <==> susp.job.Io? && !cancelled && expired)
      && (verdict == Ready <==> susp.job.Io? && !cancelled && !expired)
  {
    hide Reachable, L.Linked, L.OpsOk, L.NetOk, L.LatchedOk, L.FiredOk, L.ResumedOk, L.OnRecord, Awaiters.Inv, L.Legal,
      L.Resumes, HasExpired;
    ReachableInv(s);
    TimedOutIff(s.core, f);
  }

  /** A ready resumption makes one recv or send. What it moved, and no more, is gone from the wire and in the
      buffer behind the old offset, or is put on the wire from there; an operation that then waits on is
      suspended anew, with a new deadline. */
  lemma TransferLaw(s: L.State, a: L.Action, f: nat)
    requires ResumedBy(s, a, f) && VerdictOf(s.core, f, s.core.suspended[f].job) == Ready
    ensures var susp := s.core.suspended[f];
      && susp.job.Io? && susp.op in s.ops && susp.op in L.Step(s, a).ops
      && var s' := L.Step(s, a);
         var op, op', k := s.ops[susp.op], s'.ops[susp.op], susp.job.socket;
         var n := if a.choice.result.Moved? then a.choice.result.n else 0;
         && op.buf.offset + n <= |op.buf.data| == |op'.buf.data|
         && op'.buf.offset == op.buf.offset + n && op'.last == Some(a.choice.result)
         && (if susp.job.dir == Inbound then
               && n <= |L.At(s.net.wire, k)|
               && L.At(s'.net.wire, k) == L.At(s.net.wire, k)[n..]
               && L.At(s'.net.got, k) == L.At(s.net.got, k) + L.At(s.net.wire, k)[..n]
               && op'.buf.data ==
                    op.buf.data[..op.buf.offset] + L.At(s.net.wire, k)[..n] + op.buf.data[op'.buf.offset..]
             else
               && L.At(s'.net.out, k) == L.At(s.net.out, k) + op.buf.data[op.buf.offset..op'.buf.offset]
               && op'.buf.data == op.buf.data && op'.total == op.total + n)
         && (op'.status.Waiting? ==>
               && a.choice.next in s'.core.suspended
               && s'.core.suspended[a.choice.next] == Suspension(susp.op, susp.job, Deadline(susp.job, s.core.now)))
  {
    hide Reachable, Awaiters.Inv, L.Linked, L.OpsOk, L.NetOk, L.LatchedOk, L.FiredOk, L.ResumedOk, L.OnRecord,
      L.ResumeInner, VerdictOf, T.PicksEarliest, L.Step, L.Legal, L.Resumes, Release, Suspend, L.Round, L.Traffic,
      L.Transmit, L.OpOk;
    ResumedByShape(s, a, f);
    L.VerdictReadyIsIo(s.core, f);
    L.Own(s, f);
    L.IoShape(s, f, a.choice);
    L.AgainCore(s, f, a.choice);
    MovesExactly(s.net, s.ops[s.core.suspended[f].op], a.choice.result, a.choice.next, s.core.now);
  }

  lemma MovesExactly(net: L.Net, op: Op, r: Syscall, next: nat, now: int)
    requires op.job.Io? && op.buf.Valid() && op.status.Waiting?
    requires var wire := L.At(net.wire, op.job.socket);
      if op.job.dir == Inbound then RecvAllowed(op.buf, wire, r) else SendAllowed(op.buf, r)
    ensures var k := op.job.socket;
      var wire := L.At(net.wire, k);
      var op1 := L.Round(op, wire, r);
      var op' := L.Settle(op1, next, now);
      var net' := L.Transmit(net, op.job, L.Traffic(op, wire, r));
      var n := if r.Moved? then r.n else 0;
      && (op'.status.Waiting? <==> op1.status.Waiting?)
      && op.buf.offset + n <= |op.buf.data| == |op'.buf.data|
      && op'.buf.offset == op.buf.offset + n && op'.last == Some(r)
      && (if op.job.dir == Inbound then
            && n <= |wire| && L.At(net'.wire, k) == wire[n..]
            && L.At(net'.got, k) == L.At(net.got, k) + wire[..n]
            && op'.buf.data == op.buf.data[..op.buf.offset] + wire[..n] + op.buf.data[op'.buf.offset..]
          else
            && L.At(net'.out, k) == L.At(net.out, k) + op.buf.data[op.buf.offset..op'.buf.offset]
            && op'.buf.data == op.buf.data && op'.total == op.total + n)
  {
    hide L.Settle, L.Transmit, L.Traffic, L.Round;
    SettleKeepsBytes(L.Round(op, L.At(net.wire, op.job.socket), r), next, now);
    RoundMoves(op, L.At(net.wire, op.job.socket), r);
    WireMoves(net, op, r);
  }

  lemma SettleKeepsBytes(op: Op, next: nat, now: int)
    ensures var op' := L.Settle(op, next, now);
      op'.buf == op.buf && op'.last == op.last && op'.total == op.total && op'.status == op.status
  {
  }

  /** The operation's side of a round. */
  lemma RoundMoves(op: Op, wire: seq<Byte>, r: Syscall)
    requires op.job.Io? && op.buf.Valid() && op.status.Waiting?
    requires if op.job.dir == Inbound then RecvAllowed(op.buf, wire, r) else SendAllowed(op.buf, r)
    ensures var op' := L.Round(op, wire, r);
      var n := if r.Moved? then r.n else 0;
      && op.buf.offset + n <= |op.buf.data| && op'.buf.offset == op.buf.offset + n && op'.last == Some(r)
      && (if op.job.dir == Inbound then
            && n <= |wire|
            && op'.buf.data == op.buf.data[..op.buf.offset] + wire[..n] + op.buf.data[op'.buf.offset..]
          else op'.buf.data == op.buf.data && op'.total == op.total + n)
  {
    if !r.Moved? {
      assert op.buf.data == op.buf.data[..op.buf.offset] + wire[..0] + op.buf.data[op.buf.offset..];
    }
  }

  /** The streams' side of it. */
  lemma WireMoves(net: L.Net, op: Op, r: Syscall)
    requires op.job.Io? && op.buf.Valid()
    requires var wire := L.At(net.wire, op.job.socket);
      if op.job.dir == Inbound then RecvAllowed(op.buf, wire, r) else SendAllowed(op.buf, r)
    ensures var k := op.job.socket;
      var wire := L.At(net.wire, k);
      var net' := L.Transmit(net, op.job, L.Traffic(op, wire, r));
      var n := if r.Moved? then r.n else 0;
      && op.buf.offset + n <= |op.buf.data|
      && (if op.job.dir == Inbound then
            && n <= |wire| && L.At(net'.wire, k) == wire[n..] && L.At(net'.got, k) == L.At(net.got, k) + wire[..n]
          else L.At(net'.out, k) == L.At(net.out, k) + op.buf.data[op.buf.offset..op.buf.offset + n])
  {
    var k := op.job.socket;
    if op.job.dir == Inbound {
      assert Taken(L.At(net.wire, k), r) == L.At(net.wire, k)[..if r.Moved? then r.n else 0];
    } else {
      assert L.Traffic(op, L.At(net.wire, k), r)
          == op.buf.data[op.buf.offset..op.buf.offset + if r.Moved? then r.n else 0];
    }
  }

  // ------------------------------------------------------------------ whole runs

  /** A token is cancelled exactly if some step of the run requested it. */
  lemma {:induction false} CancelledIffRequested(init: L.State, run: seq<L.Action>, k: nat)
    requires L.Initial(init) && L.LegalRun(init, run)
    ensures TokenOf(L.Exec(init, run).core, k).cancelled <==> exists i | 0 <= i < |run| :: run[i] == L.Request(k)
    decreases |run|
  {
    hide L.Step, L.Legal, Reachable;
    if run == [] {
    } else {
      hide L.Initial;
      var before, a := run[..|run| - 1], run[|run| - 1];
      CancelledIffRequested(init, before, k);
      H.ReachableByRun(init, before);
      if a == L.Request(k) {
        RequestLaw(L.Exec(init, before), k);
        assert run[|run| - 1] == L.Request(k);
      } else {
        OnlyRequestsCancel(L.Exec(init, before), a, k);
        if i :| 0 <= i < |run| && run[i] == L.Request(k) { assert before[i] == L.Request(k); }
        if i :| 0 <= i < |before| && before[i] == L.Request(k) { assert run[i] == L.Request(k); }
      }
    }
  }

  /** So whatever happens in between: once a run contains a request, the next resumption of an operation with that
      token ends it as cancelled, without I/O. */
  lemma RequestEndsOperation(init: L.State, run: seq<L.Action>, k: nat, i: nat, a: L.Action, f: nat)
    requires L.Initial(init) && L.LegalRun(init, run) && i < |run| && run[i] == L.Request(k)
    requires var s := L.Exec(init, run);
      && L.Legal(s, a) && L.Resumes(s, a, f) && f in s.core.suspended
      && s.core.suspended[f].job.Io? && s.core.suspended[f].job.token == Some(k)
    ensures var s := L.Exec(init, run);
      var s', o := L.Step(s, a), s.core.suspended[f].op;
      && o in s.ops && o in s'.ops && s'.net == s.net && s'.ops[o].buf == s.ops[o].buf
      && s'.ops[o].status == Done(OperationCanceled, CountOf(s.ops[o]))
  {
    hide L.Step, L.Legal, L.Initial, L.LegalRun, L.Exec, Reachable, L.Resumes;
    H.ReachableByRun(init, run);
    CancelledIffRequested(init, run, k);
    NoLostCancellation(L.Exec(init, run), a, f, k);
  }

  /** No step changes what an operation is, where it began, or what it was given. */
  lemma OriginIsKept(s: L.State, a: L.Action, o: nat)
    requires Reachable(s) && L.Legal(s, a) && o in s.ops
    ensures var s' := L.Step(s, a);
      && o in s'.ops && s'.ops[o].job == s.ops[o].job
      && s'.ops[o].initial == s.ops[o].initial && s'.ops[o].base == s.ops[o].base
  {
    hide Reachable, L.Inv, L.Step, L.Legal, L.Resumes, L.ResumeInner, T.PicksEarliest;
    if s.ops[o].status.Waiting? && L.Resumes(s, a, s.ops[o].frame) {
      ReachableInv(s);
      H.WaiterOf(s, o);
      ResumedByShape(s, a, s.ops[o].frame);
      ResumedOrigin(s, s.ops[o].frame, a.choice);
    } else {
      H.OthersKeepTheirRecord(s, a, o);
    }
  }

  lemma ResumedOrigin(s: L.State, f: nat, ch: L.Choice)
    requires L.Resumable(s, f, ch)
    ensures var o := s.core.suspended[f].op;
      && o in s.ops && o in L.ResumeInner(s, f, ch).ops
      && var op, op' := s.ops[o], L.ResumeInner(s, f, ch).ops[o];
         op'.job == op.job && op'.initial == op.initial && op'.base == op.base
  {
    hide L.Inv, L.ResumeInner, T.PicksEarliest, VerdictOf, Release, Suspend, L.Traffic, L.Transmit, L.Round,
      RecvAllowed, SendAllowed;
    L.Own(s, f);
    var op := s.ops[s.core.suspended[f].op];
    if VerdictOf(s.core, f, s.core.suspended[f].job) == Ready {
      L.VerdictReadyIsIo(s.core, f);
      L.IoShape(s, f, ch);
      L.RoundShape(op, L.At(s.net.wire, op.job.socket), ch.result);
    } else {
      L.EndedShape(s, f, ch);
    }
  }

  /** Every operation of a run was started by exactly one of its steps, with this job and this buffer. */
  ghost predicate StartedAt(run: seq<L.Action>, i: nat, o: nat, op: Op) {
    i < |run| && run[i].Start? && run[i].op == o && run[i].job == op.job && run[i].buf == op.initial
  }

  lemma {:induction false} StartedAsGiven(init: L.State, run: seq<L.Action>, o: nat)
    requires L.Initial(init) && L.LegalRun(init, run)
    ensures o in L.Exec(init, run).ops ==> exists i: nat :: StartedAt(run, i, o, L.Exec(init, run).ops[o])
    ensures forall i: nat | i < |run| && run[i].Start? && run[i].op == o :: o in L.Exec(init, run).ops
    ensures forall i: nat, j: nat | i < j < |run| && run[i].Start? && run[j].Start? && run[i].op == o :: run[j].op != o
    decreases |run|
  {
    hide L.Step, L.Legal, Reachable, StartedAt;
    if run == [] {
      H.NoOpsYet(init);
    } else {
      hide L.Initial;
      var before, a := run[..|run| - 1], run[|run| - 1];
      var s := L.Exec(init, before);
      StartedAsGiven(init, before, o);
      H.ReachableByRun(init, before);
      assert before + [a] == run;
      assert forall i: nat | i < |before| :: before[i] == run[i];
      if o in s.ops {
        OriginIsKept(s, a, o);
        NotStartedAgain(s, a, o);
        var i: nat :| StartedAt(before, i, o, s.ops[o]);
        LaterRun(before, a, i, o, s.ops[o], L.Step(s, a).ops[o]);
      } else if o in L.Step(s, a).ops {
        OnlyStartAdds(s, a, o);
        LastStart(before, a, o, L.Step(s, a).ops[o]);
      } else if a.Start? {
        StartAdds(s, a);
      }
    }
  }

  lemma LaterRun(before: seq<L.Action>, a: L.Action, i: nat, o: nat, op: Op, op': Op)
    requires StartedAt(before, i, o, op) && op'.job == op.job && op'.initial == op.initial
    ensures StartedAt(before + [a], i, o, op')
  {
  }

  lemma LastStart(before: seq<L.Action>, a: L.Action, o: nat, op: Op)
    requires a.Start? && a.op == o && a.job == op.job && a.buf == op.initial
    ensures StartedAt(before + [a], |before|, o, op)
  {
  }

  lemma NotStartedAgain(s: L.State, a: L.Action, o: nat)
    requires L.Legal(s, a) && o in s.ops
    ensures !(a.Start? && a.op == o)
  {
  }

  lemma StartAdds(s: L.State, a: L.Action)
    requires Reachable(s) && L.Legal(s, a) && a.Start?
    ensures a.op in L.Step(s, a).ops
  {
    hide Reachable;
    StartLaw(s, a.op, a.frame, a.job, a.buf, a.pick);
  }

  lemma OnlyStartAdds(s: L.State, a: L.Action, o: nat)
    requires Reachable(s) && L.Legal(s, a) && o !in s.ops && o in L.Step(s, a).ops
    ensures a.Start? && a.op == o && L.Step(s, a).ops[o].job == a.job && L.Step(s, a).ops[o].initial == a.buf
  {
    hide Reachable, L.Step, L.Legal;
    H.OnlyStartsAdd(s, a, o);
    StartLaw(s, o, a.frame, a.job, a.buf, a.pick);
  }

  /** How an operation may have ended: as cancelled only with its own token cancelled, as timed out only with a
      timeout of its own. */
  ghost predicate EndIsOwn(c: State, op: Op) {
    op.status.Done? ==>
      && (op.status.code == OperationCanceled ==>
            op.job.Io? && op.job.token.Some? && TokenOf(c, op.job.token.value).cancelled)
      && (op.status.code == TimedOutCode ==> op.job.Io? && op.job.delay.Some?)
  }

  lemma {:induction false} EndsAreOwn(init: L.State, run: seq<L.Action>, o: nat)
    requires L.Initial(init) && L.LegalRun(init, run) && o in L.Exec(init, run).ops
    ensures EndIsOwn(L.Exec(init, run).core, L.Exec(init, run).ops[o])
    decreases |run|
  {
    hide L.Step, L.Legal, Reachable, EndIsOwn;
    if run == [] {
      H.NoOpsYet(init);
    } else {
      hide L.Initial;
      var before, a := run[..|run| - 1], run[|run| - 1];
      var s := L.Exec(init, before);
      H.ReachableByRun(init, before);
      if o in s.ops { EndsAreOwn(init, before, o); }
      EndStaysOwn(s, a, o);
    }
  }

  lemma EndStaysOwn(s: L.State, a: L.Action, o: nat)
    requires Reachable(s) && L.Legal(s, a) && o in L.Step(s, a).ops && (o in s.ops ==> EndIsOwn(s.core, s.ops[o]))
    ensures EndIsOwn(L.Step(s, a).core, L.Step(s, a).ops[o])
  {
    hide Reachable, L.Inv, L.Step, L.Legal, L.Resumes, L.ResumeInner, T.PicksEarliest, TokenOf, VerdictOf;
    if o !in s.ops {
      H.OnlyStartsAdd(s, a, o);
      StartedEnd(s, a);
    } else if s.ops[o].status.Waiting? && L.Resumes(s, a, s.ops[o].frame) {
      ReachableInv(s);
      H.WaiterOf(s, o);
      ResumedEnd(s, a, s.ops[o].frame);
    } else {
      H.OthersKeepTheirRecord(s, a, o);
      if s.ops[o].job.Io? && s.ops[o].job.token.Some? && TokenOf(s.core, s.ops[o].job.token.value).cancelled {
        CancellationIsForGood(s, a, s.ops[o].job.token.value);
      }
    }
  }

  lemma StartedEnd(s: L.State, a: L.Action)
    requires Reachable(s) && L.Legal(s, a) && a.Start? && a.op in L.Step(s, a).ops
    ensures EndIsOwn(L.Step(s, a).core, L.Step(s, a).ops[a.op])
  {
    hide Reachable, L.Step, L.Legal;
    StartLaw(s, a.op, a.frame, a.job, a.buf, a.pick);
  }

  lemma ResumedEnd(s: L.State, a: L.Action, f: nat)
    requires ResumedBy(s, a, f)
    ensures var o := s.core.suspended[f].op;
      o in L.Step(s, a).ops && EndIsOwn(L.Step(s, a).core, L.Step(s, a).ops[o])
  {
    hide Reachable, Awaiters.Inv, L.Linked, L.OpsOk, L.NetOk, L.LatchedOk, L.FiredOk, L.ResumedOk, L.OnRecord, L.Step,
      L.Legal, L.Resumes, L.ResumeInner, T.PicksEarliest, TokenOf, VerdictOf, HasExpired, Release, L.Round;
    ResumedByShape(s, a, f);
    L.Own(s, f);
    var job := s.core.suspended[f].job;
    VerdictLaw(s, a, f);
    if VerdictOf(s.core, f, job) == Ready {
      L.IoShape(s, f, a.choice);
      ReadyEnd(s.ops[s.core.suspended[f].op], L.At(s.net.wire, job.socket), a.choice.result, a.choice.next, s.core.now);
    } else {
      L.EndedShape(s, f, a.choice);
      if VerdictOf(s.core, f, job) == TimedOut { JobOfDue(s.core, f); }
      if VerdictOf(s.core, f, job) == Cancelled { CancellationIsForGood(s, a, job.token.value); }
    }
  }

  lemma ReadyEnd(op: Op, wire: seq<Byte>, r: Syscall, next: nat, now: int)
    requires op.job.Io? && op.buf.Valid() && op.status.Waiting?
    requires if op.job.dir == Inbound then RecvAllowed(op.buf, wire, r) else SendAllowed(op.buf, r)
    ensures var op' := L.Settle(L.Round(op, wire, r), next, now);
      op'.status.Done? ==> op'.status.code != OperationCanceled && op'.status.code != TimedOutCode
  {
  }

  lemma JobOfDue(c: State, f: nat)
    requires Awaiters.Inv(c) && f in c.suspended && c.suspended[f].due.Some? && c.suspended[f].job.Io?
    ensures c.suspended[f].job.delay.Some?
  {
    hide I.Inv, T.Inv, T.Live, T.Settled, I.Readers, I.Writers, Registered, Backed, TimerSlot, Timed;
    assert JobOk(c.tokens, c.suspended[f]);
  }
}
