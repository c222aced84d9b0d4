/**
 The whole event loop as a step system: operations start, events are dispatched one half at a
 time, the clock moves, cancellations are requested and bytes arrive, in any order.
 */
module Loop {
  import opened Handles
  import T = Timers
  import I = Interest
  import opened Awaiters
  import opened Transfer

  // ------------------------------------------------------------------ sockets

  /** Byte streams per socket: on the wire towards it, ever put on that wire, ever received from it, and
      ever sent through it. `peer` gives the socket at the other end when both ends belong to this loop. */
  datatype Net = Net(
    wire: map<nat, seq<Byte>>,
    into: map<nat, seq<Byte>>,
    got: map<nat, seq<Byte>>,
    out: map<nat, seq<Byte>>,
    peer: map<nat, nat>)

  function At(m: map<nat, seq<Byte>>, k: nat): seq<Byte> {
    if k in m then m[k] else []
  }

  function Extend(m: map<nat, seq<Byte>>, k: nat, bytes: seq<Byte>): map<nat, seq<Byte>> {
    m[k := At(m, k) + bytes]
  }

  function Receive(net: Net, r: nat, bytes: seq<Byte>): Net
    requires |bytes| <= |At(net.wire, r)|
  {
    net.(wire := net.wire[r := At(net.wire, r)[|bytes|..]], got := Extend(net.got, r, bytes))
  }

  function Deliver(net: Net, r: nat, bytes: seq<Byte>): Net {
    net.(wire := Extend(net.wire, r, bytes), into := Extend(net.into, r, bytes))
  }

  function Send(net: Net, w: nat, bytes: seq<Byte>): Net {
    var sent := net.(out := Extend(net.out, w, bytes));
    if w in net.peer then Deliver(sent, net.peer[w], bytes) else sent
  }

  // ------------------------------------------------------------------ state

  /** A timeout or delay that was reported: whose, its deadline, and the clock then. */
  datatype Fire = Fire(op: nat, due: int, at: int)

  /** `latched` is the local variable in which `running` keeps an event's write_op while the read_op's
      completion, and the user code behind it, runs. `broken` records a completion through a pointer at
      which no awaiter waits, or a read of the timerfd that could never return. */
  datatype State = State(
    core: Awaiters.State,
    ops: map<nat, Op>,
    net: Net,
    latched: Ptr,
    fired: seq<Fire>,
    resumed: seq<(nat, nat)>,
    broken: bool)

  /** What the environment decides when an awaiter is resumed: the order among equal deadlines, what recv
      or send returns, and the address at which the loop's next awaiter is built. */
  datatype Choice = Choice(pick: T.Pick, result: Syscall, next: nat)

  datatype Action =
    | Start(op: nat, frame: nat, job: Job, buf: Buffer, pick: T.Pick)
    | EventRead(fd: Fd, readReady: bool, writeReady: bool, choice: Choice)
    | EventWrite(choice: Choice)
    | Tick(span: nat)
    | Request(token: nat)
    | Arrive(socket: nat, bytes: seq<Byte>)

  // ------------------------------------------------------------------ starting

  /** Where in its socket's stream an operation begins. */
  function BaseOf(net: Net, job: Job): nat {
    if job.Wait? then 0
    else if job.dir == Inbound then |At(net.got, job.socket)| else |At(net.out, job.socket)|
  }

  /** The outer await_suspend runs the coroutine up to its first suspension. When the inner one declines,
      the coroutine finishes on the spot and the outer one goes on by itself. */
  function Launch(s: State, o: nat, f: nat, job: Job, buf: Buffer, pick: T.Pick): State
    requires T.PicksEarliest(pick)
  {
    var op := NewOp(job, buf, BaseOf(s.net, job), f);
    if CancelRequested(s.core, job) then
      s.(core := Release(s.core, f, job, pick), ops := s.ops[o := ErrorRound(op, OperationCanceled)])
    else
      s.(core := Suspend(s.core, f, o, job, pick),
         ops := s.ops[o := op.(suspensions := 1, due := DueOf(job, s.core.now))])
  }

  // ------------------------------------------------------------------ completing

  /** What makes completing through an awaiter at f meaningful. */
  predicate Sane(s: State, f: nat) {
    && f in s.core.suspended
    && var susp := s.core.suspended[f];
       && susp.op in s.ops && s.ops[susp.op].job == susp.job && s.ops[susp.op].buf.Valid()
       && (susp.job.Wait? ==> s.core.timers.fd.armed.Some? && !s.core.timers.fd.drained)
  }

  predicate Allowed(s: State, f: nat, ch: Choice)
    requires Sane(s, f)
  {
    var susp := s.core.suspended[f];
    && (ch.next == f || ch.next !in s.core.suspended)
    && (susp.job.Io? && susp.job.dir == Inbound ==>
          RecvAllowed(s.ops[susp.op].buf, At(s.net.wire, susp.job.socket), ch.result))
    && (susp.job.Io? && susp.job.dir == Outbound ==> SendAllowed(s.ops[susp.op].buf, ch.result))
  }

  /** One round of the read or write loop after a ready await_resume. */
  function Round(op: Op, wire: seq<Byte>, r: Syscall): Op
    requires op.job.Io? && op.buf.Valid()
    requires if op.job.dir == Inbound then RecvAllowed(op.buf, wire, r) else SendAllowed(op.buf, r)
  {
    if op.job.dir == Inbound then ReadRound(op, wire, r) else WriteRound(op, r)
  }

  /** The bytes that round moves. */
  function Traffic(op: Op, wire: seq<Byte>, r: Syscall): (bytes: seq<Byte>)
    requires op.job.Io?
    ensures op.job.dir == Inbound ==> |bytes| <= |wire|
  {
    if op.job.dir == Inbound then Taken(wire, r) else Put(op.buf, r)
  }

  function Transmit(net: Net, job: Job, bytes: seq<Byte>): Net
    requires job.Io? && (job.dir == Inbound ==> |bytes| <= |At(net.wire, job.socket)|)
  {
    if job.dir == Inbound then Receive(net, job.socket, bytes) else Send(net, job.socket, bytes)
  }

  /** co_return, then the outer coroutine. */
  function Finish(s: State, o: nat, op: Op): State {
    s.(ops := s.ops[o := op.(outerResumes := op.outerResumes + 1)])
  }

  /** After a round that did not finish: the next iteration's awaiter suspends. */
  function Again(s: State, o: nat, op: Op, ch: Choice): State
    requires T.PicksEarliest(ch.pick)
  {
    s.(core := Suspend(s.core, ch.next, o, op.job, ch.pick),
       ops := s.ops[o := op.(suspensions := op.suspensions + 1, frame := ch.next, due := DueOf(op.job, s.core.now))])
  }

  /** The inner coroutine resumed: await_resume, the rest of the round, and the next suspension if any. */
  function ResumeInner(s: State, f: nat, ch: Choice): State
    requires T.PicksEarliest(ch.pick) && Sane(s, f) && Allowed(s, f, ch)
  {
    var susp := s.core.suspended[f];
    var o, job := susp.op, susp.job;
    var op := s.ops[o];
    var s1 := s.(core := Release(s.core, f, job, ch.pick), resumed := s.resumed + [(o, op.suspensions)]);
    var due := if susp.due.Some? then susp.due.value else 0;
    match VerdictOf(s.core, f, job)
    case Elapsed => Finish(s1.(fired := s.fired + [Fire(o, due, s1.core.now)]), o, WaitRound(op))
    case Cancelled => Finish(s1, o, ErrorRound(op, OperationCanceled))
    case TimedOut => Finish(s1.(fired := s.fired + [Fire(o, due, s1.core.now)]), o, ErrorRound(op, TimedOutCode))
    case Ready =>
      var wire := At(s.net.wire, job.socket);
      var op1 := Round(op, wire, ch.result);
      var s2 := s1.(net := Transmit(s.net, job, Traffic(op, wire, ch.result)));
      if op1.status.Waiting? then Again(s2, o, op1, ch) else Finish(s2, o, op1)
  }

  /** read_op::complete and write_op::complete: resume the inner coroutine unless it is done, then the
      outer one if the inner is done. */
  function Complete(s: State, p: Ptr, ch: Choice): State
    requires T.PicksEarliest(ch.pick)
    requires p.Field? && Sane(s, p.frame) ==> Allowed(s, p.frame, ch)
  {
    if !(p.Field? && Sane(s, p.frame)) then s.(broken := true)
    else
      var o := s.core.suspended[p.frame].op;
      if s.ops[o].status.Done? then Finish(s, o, s.ops[o]) else ResumeInner(s, p.frame, ch)
  }

  // ------------------------------------------------------------------ steps

  ghost predicate LegalChoice(s: State, p: Ptr, ch: Choice) {
    T.PicksEarliest(ch.pick) && (p.Field? && Sane(s, p.frame) ==> Allowed(s, p.frame, ch))
  }

  /** What the environment must respect. Operations and addresses are new, slots are free (single
      waiter), an event's write half is handled before the next event, and bytes from outside arrive only
      at sockets whose other end is outside. An event may be for any descriptor, with any readiness bits,
      fresh or stale. */
  ghost predicate Legal(s: State, a: Action) {
    match a
    case Start(o, f, job, buf, pick) =>
      && T.PicksEarliest(pick) && o !in s.ops && f !in s.core.suspended
      && SlotsFree(s.core, job) && buf.Valid()
    case EventRead(fd, readReady, writeReady, ch) =>
      && s.latched == Null
      && (readReady ==> LegalChoice(s, I.ReadSlot(s.core.sched, fd), ch))
    case EventWrite(ch) => LegalChoice(s, s.latched, ch)
    case Tick(_) => true
    case Request(_) => true
    case Arrive(socket, _) => socket !in s.net.peer.Values
  }

  function Step(s: State, a: Action): State
    requires Legal(s, a)
  {
    match a
    case Start(o, f, job, buf, pick) => Launch(s, o, f, job, buf, pick)
    case EventRead(fd, readReady, writeReady, ch) =>
      var readOp, writeOp := I.ReadSlot(s.core.sched, fd), I.WriteSlot(s.core.sched, fd);
      var s1 := if readReady && readOp != Null then Complete(s, readOp, ch) else s;
      s1.(latched := if writeReady then writeOp else Null)
    case EventWrite(ch) =>
      var s1 := if s.latched != Null then Complete(s, s.latched, ch) else s;
      s1.(latched := Null)
    case Tick(span) => s.(core := s.core.(now := s.core.now + span))
    case Request(token) => s.(core := RequestCancel(s.core, token))
    case Arrive(socket, bytes) => s.(net := Deliver(s.net, socket, bytes))
  }

  /** The loop before anything was started; the clock is past its origin. */
  ghost predicate Initial(s: State) {
    && s.core.sched == I.INITIAL && s.core.timers == T.INITIAL && s.core.now > 0
    && s.core.tokens == map[] && s.core.suspended == map[]
    && s.ops == map[] && s.latched == Null && s.fired == [] && s.resumed == [] && !s.broken
    && s.net.wire == map[] && s.net.into == map[] && s.net.got == map[] && s.net.out == map[]
    && forall w <- s.net.peer, v <- s.net.peer :: s.net.peer[w] == s.net.peer[v] ==> w == v
  }

  ghost predicate LegalRun(init: State, run: seq<Action>)
    decreases |run|, 0
  {
    run == [] || (LegalRun(init, run[..|run| - 1]) && Legal(Exec(init, run[..|run| - 1]), run[|run| - 1]))
  }

  ghost function Exec(init: State, run: seq<Action>): State
    requires LegalRun(init, run)
    decreases |run|, 1
  {
    if run == [] then init else Step(Exec(init, run[..|run| - 1]), run[|run| - 1])
  }

  // ------------------------------------------------------------------ the invariant

  /** Suspended awaiters and waiting operations are the same things, seen from two sides. */
  ghost predicate Linked(suspended: map<nat, Suspension>, ops: map<nat, Op>) {
    && (forall f <- suspended :: suspended[f].op in ops && LinkOk(f, suspended[f], ops[suspended[f].op]))
    && (forall o <- ops :: ops[o].status.Waiting? ==>
          ops[o].frame in suspended && suspended[ops[o].frame].op == o)
  }

  ghost predicate LinkOk(f: nat, susp: Suspension, op: Op) {
    op.frame == f && op.status.Waiting? && op.job == susp.job && op.due == susp.due
  }

  /** One suspension more than rounds while waiting; the outer coroutine resumed exactly once in the end,
      unless the operation never suspended at all. */
  ghost predicate ResumesOk(op: Op) {
    match op.status
    case Waiting => op.suspensions == op.awaits + 1 && op.outerResumes == 0
    case Done(_, _) =>
      || (op.suspensions == 0 && op.awaits == 1 && op.outerResumes == 0)
      || (op.suspensions == op.awaits > 0 && op.outerResumes == 1)
  }

  ghost predicate OpOk(op: Op, net: Net) {
    && CountsOk(op) && ResumesOk(op)
    && (op.job.Io? ==> PlaceOk(op, StreamOf(net, op.job)))
  }

  ghost function StreamOf(net: Net, job: Job): seq<Byte>
    requires job.Io?
  {
    if job.dir == Inbound then At(net.got, job.socket) else At(net.out, job.socket)
  }

  ghost predicate OpsOk(ops: map<nat, Op>, net: Net) {
    forall o <- ops :: OpOk(ops[o], net)
  }

  /** What was put on a wire was received or is still on it, in order; what one end sends is what is put
      on the wire towards the other. */
  ghost predicate NetOk(net: Net) {
    && (forall w <- net.peer, v <- net.peer :: net.peer[w] == net.peer[v] ==> w == v)
    && (forall r: nat :: At(net.into, r) == At(net.got, r) + At(net.wire, r))
    && (forall w <- net.peer :: At(net.out, w) == At(net.into, net.peer[w]))
  }

  /** A latched pointer still is the socket slot of a suspended write. */
  ghost predicate LatchedOk(latched: Ptr, suspended: map<nat, Suspension>) {
    latched == Null ||
    (latched.Field? && latched.part == OnSocket && latched.frame in suspended
      && suspended[latched.frame].job.Io? && suspended[latched.frame].job.dir == Outbound)
  }

  /** Deadlines are reported at or after their time, in order, and never before an earlier live one. */
  ghost predicate FiredOk(fired: seq<Fire>, now: int, live: set<T.Task>) {
    && (forall i | 0 <= i < |fired| :: fired[i].due <= fired[i].at <= now)
    && (forall i, j | 0 <= i < j < |fired| :: fired[i].due <= fired[j].due)
    && (forall i, t | 0 <= i < |fired| && t in live :: fired[i].due <= t.due)
  }

  /** The suspensions of an operation that were resumed. */
  function Resumptions(op: Op): nat {
    if op.suspensions == 0 then 0 else op.awaits
  }

  /** The log holds every finished suspension once. */
  ghost predicate ResumedOk(resumed: seq<(nat, nat)>, ops: map<nat, Op>) {
    && (forall o: nat, k: nat :: (o, k) in resumed <==> o in ops && 1 <= k <= Resumptions(ops[o]))
    && (forall i, j | 0 <= i < j < |resumed| :: resumed[i] != resumed[j])
  }

  /** A timeout, and the end of a delay, is on record as fired, once and with its own deadline. */
  ghost predicate OnRecord(fired: seq<Fire>, ops: map<nat, Op>) {
    && (forall o <- ops :: Expired(ops[o]) ==> exists i | 0 <= i < |fired| :: fired[i].op == o)
    && (forall i | 0 <= i < |fired| ::
          fired[i].op in ops && Expired(ops[fired[i].op]) && ops[fired[i].op].due == Some(fired[i].due))
    && (forall i, j | 0 <= i < j < |fired| :: fired[i].op != fired[j].op)
  }

  predicate Expired(op: Op) {
    op.status.Done? && (op.job.Wait? || op.status.code == TimedOutCode)
  }

  ghost predicate Inv(s: State) {
    && !s.broken
    && Awaiters.Inv(s.core)
    && Linked(s.core.suspended, s.ops)
    && OpsOk(s.ops, s.net)
    && NetOk(s.net)
    && LatchedOk(s.latched, s.core.suspended)
    && FiredOk(s.fired, s.core.now, T.Live(s.core.timers))
    && ResumedOk(s.resumed, s.ops)
    && OnRecord(s.fired, s.ops)
  }

  // ------------------------------------------------------------------ awaiters and operations

  lemma LinkedFinish(suspended: map<nat, Suspension>, ops: map<nat, Op>, f: nat, op: Op)
    requires Linked(suspended, ops) && f in suspended && op.status.Done?
    ensures Linked(suspended - {f}, ops[suspended[f].op := op])
  {
    assert LinkOk(f, suspended[f], ops[suspended[f].op]);
    forall g <- suspended - {f}
      ensures suspended[g].op in ops && suspended[g].op != suspended[f].op
      ensures LinkOk(g, suspended[g], ops[suspended[g].op])
    {
      assert LinkOk(g, suspended[g], ops[suspended[g].op]);
    }
  }

  lemma LinkedAgain(suspended: map<nat, Suspension>, ops: map<nat, Op>, f: nat, g: nat, susp: Suspension, op: Op)
    requires Linked(suspended, ops) && f in suspended && (g == f || g !in suspended)
    requires susp.op == suspended[f].op && LinkOk(g, susp, op)
    ensures Linked((suspended - {f})[g := susp], ops[susp.op := op])
  {
    assert LinkOk(f, suspended[f], ops[suspended[f].op]);
    var suspended' := (suspended - {f})[g := susp];
    var ops' := ops[susp.op := op];
    forall h <- suspended'
      ensures suspended'[h].op in ops' && LinkOk(h, suspended'[h], ops'[suspended'[h].op])
    {
      if h != g { assert LinkOk(h, suspended[h], ops[suspended[h].op]); }
    }
  }

  lemma LinkedStart(suspended: map<nat, Suspension>, ops: map<nat, Op>, f: nat, susp: Suspension, op: Op)
    requires Linked(suspended, ops) && f !in suspended && susp.op !in ops && LinkOk(f, susp, op)
    ensures Linked(suspended[f := susp], ops[susp.op := op])
  {
    var suspended' := suspended[f := susp];
    var ops' := ops[susp.op := op];
    forall h <- suspended'
      ensures suspended'[h].op in ops' && LinkOk(h, suspended'[h], ops'[suspended'[h].op])
    {
      if h != f { assert LinkOk(h, suspended[h], ops[suspended[h].op]); }
    }
  }

  // ------------------------------------------------------------------ streams

  lemma ReceiveLemma(net: Net, r: nat, n: nat)
    requires NetOk(net) && n <= |At(net.wire, r)|
    ensures var bytes := At(net.wire, r)[..n];
      var net' := Receive(net, r, bytes);
      && NetOk(net') && Grew(net.out, net'.out, r, []) && Grew(net.got, net'.got, r, bytes)
  {
    var bytes := At(net.wire, r)[..n];
    var net' := Receive(net, r, bytes);
    assert bytes + At(net'.wire, r) == At(net.wire, r);
    assert At(net'.got, r) + At(net'.wire, r) == At(net.got, r) + (bytes + At(net'.wire, r));
    forall k: nat ensures At(net'.into, k) == At(net'.got, k) + At(net'.wire, k) {
      assert At(net.into, k) == At(net.got, k) + At(net.wire, k);
    }
  }

  lemma DeliverLemma(net: Net, r: nat, bytes: seq<Byte>)
    requires forall k: nat :: At(net.into, k) == At(net.got, k) + At(net.wire, k)
    ensures var net' := Deliver(net, r, bytes);
      && (forall k: nat :: At(net'.into, k) == At(net'.got, k) + At(net'.wire, k))
      && (forall k: nat :: At(net'.into, k) == if k == r then At(net.into, k) + bytes else At(net.into, k))
  {
    var net' := Deliver(net, r, bytes);
    assert At(net.into, r) == At(net.got, r) + At(net.wire, r);
    assert (At(net.got, r) + At(net.wire, r)) + bytes == At(net.got, r) + (At(net.wire, r) + bytes);
    forall k: nat ensures At(net'.into, k) == At(net'.got, k) + At(net'.wire, k) {
      assert At(net.into, k) == At(net.got, k) + At(net.wire, k);
    }
  }

  lemma SendLemma(net: Net, w: nat, bytes: seq<Byte>)
    requires NetOk(net)
    ensures var net' := Send(net, w, bytes);
      && NetOk(net') && Grew(net.got, net'.got, w, []) && Grew(net.out, net'.out, w, bytes)
  {
    var sent := net.(out := Extend(net.out, w, bytes));
    if w in net.peer {
      DeliverLemma(sent, net.peer[w], bytes);
    } else {
      forall k: nat ensures At(sent.into, k) == At(sent.got, k) + At(sent.wire, k) {
        assert At(net.into, k) == At(net.got, k) + At(net.wire, k);
      }
    }
    var net' := Send(net, w, bytes);
    forall v <- net'.peer ensures At(net'.out, v) == At(net'.into, net'.peer[v]) {
      assert At(net.out, v) == At(net.into, net.peer[v]);
    }
  }

  lemma ArriveLemma(net: Net, r: nat, bytes: seq<Byte>)
    requires NetOk(net) && r !in net.peer.Values
    ensures NetOk(Deliver(net, r, bytes))
  {
    DeliverLemma(net, r, bytes);
    var net' := Deliver(net, r, bytes);
    forall v <- net'.peer ensures At(net'.out, v) == At(net'.into, net'.peer[v]) {
      assert net.peer[v] != r;
      assert At(net.out, v) == At(net.into, net.peer[v]);
    }
  }

  // ------------------------------------------------------------------ operations and their streams

  /** The stream of one socket grew; the others are as they were. */
  ghost predicate Grew(before: map<nat, seq<Byte>>, after: map<nat, seq<Byte>>, socket: nat, more: seq<Byte>) {
    && At(after, socket) == At(before, socket) + more
    && forall k: nat :: k != socket ==> At(after, k) == At(before, k)
  }

  /** A finished operation keeps its place when its stream grows. */
  lemma PlaceGrows(op: Op, stream: seq<Byte>, more: seq<Byte>)
    requires CountsOk(op) && op.status.Done? && PlaceOk(op, stream)
    ensures PlaceOk(op, stream + more)
  {
  }

  /** Only one operation waits on each direction of a socket. */
  lemma OneWaitingOp(s: State, o: nat, x: nat)
    requires Awaiters.Inv(s.core) && Linked(s.core.suspended, s.ops) && o in s.ops && x in s.ops && o != x
    requires s.ops[o].status.Waiting? && s.ops[x].status.Waiting?
    ensures NoClash(s.ops[o].job, s.ops[x].job)
  {
    hide Awaiters.Inv, NoClash;
    var f, g := s.ops[o].frame, s.ops[x].frame;
    assert LinkOk(f, s.core.suspended[f], s.ops[o]) && LinkOk(g, s.core.suspended[g], s.ops[x]);
    SingleWaiter(s.core, f, g);
  }

  lemma StreamsFollow(net: Net, net': Net, job: Job, more: seq<Byte>, other: Job)
    requires job.Io? && other.Io?
    requires Grew(net.got, net'.got, job.socket, if job.dir == Inbound then more else [])
    requires Grew(net.out, net'.out, job.socket, if job.dir == Outbound then more else [])
    ensures StreamOf(net', other) ==
      (if other.dir == job.dir && other.socket == job.socket then StreamOf(net, other) + more else StreamOf(net, other))
  {
  }

  /** One round of o on its stream leaves all other operations in place. */
  lemma OpsAfterRound(s: State, o: nat, op: Op, net: Net, more: seq<Byte>)
    requires Awaiters.Inv(s.core) && Linked(s.core.suspended, s.ops) && OpsOk(s.ops, s.net)
    requires o in s.ops && s.ops[o].status.Waiting? && s.ops[o].job == op.job && op.job.Io?
    requires OpOk(op, net)
    requires Grew(s.net.got, net.got, op.job.socket, if op.job.dir == Inbound then more else [])
    requires Grew(s.net.out, net.out, op.job.socket, if op.job.dir == Outbound then more else [])
    ensures OpsOk(s.ops[o := op], net)
  {
    hide Awaiters.Inv, CountsOk, PlaceOk, Linked, Grew;
    var ops := s.ops[o := op];
    forall x <- ops ensures OpOk(ops[x], net) {
      if x != o {
        assert OpOk(s.ops[x], s.net);
        if s.ops[x].job.Io? {
          StreamsFollow(s.net, net, op.job, more, s.ops[x].job);
          if s.ops[x].status.Waiting? {
            OneWaitingOp(s, o, x);
          } else {
            PlaceGrows(s.ops[x], StreamOf(s.net, s.ops[x].job), more);
          }
        }
      }
    }
  }

  /** A step that moves no bytes. */
  lemma OpsUpdate(ops: map<nat, Op>, net: Net, o: nat, op: Op)
    requires OpsOk(ops, net) && OpOk(op, net)
    ensures OpsOk(ops[o := op], net)
  {
  }

  // ------------------------------------------------------------------ resuming one awaiter

  /** The part of the invariant an awaiter's resumption needs about its own operation. */
  lemma Own(s: State, f: nat)
    requires Inv(s) && f in s.core.suspended
    ensures var susp := s.core.suspended[f];
      && susp.op in s.ops && s.ops[susp.op].frame == f && s.ops[susp.op].status.Waiting?
      && s.ops[susp.op].due == susp.due && !Expired(s.ops[susp.op])
      && s.ops[susp.op].job == susp.job && s.ops[susp.op].buf.Valid()
      && OpOk(s.ops[susp.op], s.net) && s.ops[susp.op].suspensions == s.ops[susp.op].awaits + 1
  {
    hide Awaiters.Inv, NetOk, LatchedOk, FiredOk, ResumedOk, OnRecord, PlaceOk;
    assert LinkOk(f, s.core.suspended[f], s.ops[s.core.suspended[f].op]);
    assert OpOk(s.ops[s.core.suspended[f].op], s.net);
  }

  /** A waiting operation that finishes without moving bytes stays well counted and in place. */
  lemma FinishedOpOk(op: Op, net: Net, op': Op)
    requires OpOk(op, net) && op.status.Waiting?
    requires (op.job.Wait? && op' == WaitRound(op))
          || (op.job.Io? && (op' == ErrorRound(op, OperationCanceled) || op' == ErrorRound(op, TimedOutCode)))
    ensures OpOk(op'.(outerResumes := op'.outerResumes + 1), net) && op'.status.Done?
  {
  }

  /** The operation's record once the round's outcome took effect. */
  function Settle(op1: Op, next: nat, now: int): Op {
    if op1.status.Done? then op1.(outerResumes := op1.outerResumes + 1)
    else op1.(suspensions := op1.suspensions + 1, frame := next, due := DueOf(op1.job, now))
  }

  lemma SettleOpOk(op: Op, op1: Op, net: Net, net': Net, next: nat, now: int)
    requires op.job.Io? && OpOk(op, net) && op.status.Waiting?
    requires op1 == op.(buf := op1.buf, total := op1.total, status := op1.status,
                        awaits := op.awaits + 1, sends := op1.sends, last := op1.last)
    requires CountsOk(op1) && PlaceOk(op1, StreamOf(net', op.job))
    ensures OpOk(Settle(op1, next, now), net')
  {
  }

  /** The transfer of a ready round: counts, place, and the conservation of the bytes. */
  lemma IoRound(net: Net, op: Op, r: Syscall)
    requires op.job.Io? && OpOk(op, net) && NetOk(net) && op.status.Waiting?
    requires var wire := At(net.wire, op.job.socket);
      if op.job.dir == Inbound then RecvAllowed(op.buf, wire, r) else SendAllowed(op.buf, r)
    ensures var wire := At(net.wire, op.job.socket);
      var op1 := Round(op, wire, r);
      var more := Traffic(op, wire, r);
      var net' := Transmit(net, op.job, more);
      && NetOk(net')
      && Grew(net.got, net'.got, op.job.socket, if op.job.dir == Inbound then more else [])
      && Grew(net.out, net'.out, op.job.socket, if op.job.dir == Outbound then more else [])
      && CountsOk(op1) && PlaceOk(op1, StreamOf(net', op.job))
  {
    hide NetOk, PlaceOk, CountsOk, ResumesOk, ReadRound, WriteRound, Receive, Send;
    var wire := At(net.wire, op.job.socket);
    if op.job.dir == Inbound {
      var n := if r.Moved? then r.n else 0;
      assert Taken(wire, r) == wire[..n];
      ReceiveLemma(net, op.job.socket, n);
      ReadRoundPlace(op, wire, r, StreamOf(net, op.job));
    } else {
      SendLemma(net, op.job.socket, Put(op.buf, r));
      WriteRoundPlace(op, r, StreamOf(net, op.job));
    }
  }

  /** After a release the awaiter's slots are free for the next iteration's one. */
  lemma SlotsFreeAgain(c: Awaiters.State, f: nat, c': Awaiters.State)
    requires Awaiters.Inv(c) && f in c.suspended && c'.suspended == c.suspended - {f}
    ensures SlotsFree(c', c.suspended[f].job)
  {
    hide Awaiters.Inv, NoClash;
    forall g <- c'.suspended ensures NoClash(c.suspended[f].job, c'.suspended[g].job) {
      SingleWaiter(c, f, g);
    }
  }

  ghost predicate Resumable(s: State, f: nat, ch: Choice) {
    && T.PicksEarliest(ch.pick) && Inv(s)
    && Sane(s, f) && Allowed(s, f, ch)
    && (s.core.suspended[f].job.Wait? ==> s.core.timers.cur.read == Field(f, OnTimer))
  }

  /** The second suspension of a round that goes on. */
  lemma AgainCore(s: State, f: nat, ch: Choice)
    requires Resumable(s, f, ch)
    requires var job := s.core.suspended[f].job; job.Io? && VerdictOf(s.core, f, job) == Ready
    ensures var susp := s.core.suspended[f];
      var c1 := Release(s.core, f, susp.job, ch.pick);
      var c2 := Suspend(c1, ch.next, susp.op, susp.job, ch.pick);
      && Awaiters.Inv(c2) && c2.now == s.core.now
      && c2.suspended == (s.core.suspended - {f})[ch.next := Suspension(susp.op, susp.job, DueOf(susp.job, s.core.now))]
      && (forall t <- T.Live(c2.timers) ::
            || t in T.Live(s.core.timers)
            || (t.read == Field(ch.next, OnTimer) && Some(t.due) == DueOf(susp.job, s.core.now)))
      && (forall t <- T.Live(s.core.timers) :: t.read != Field(f, OnTimer) ==> t in T.Live(c2.timers))
  {
    hide Awaiters.Inv, Linked, OpsOk, NetOk, LatchedOk, FiredOk, ResumedOk, OnRecord, T.Live, Release, Suspend,
      SlotsFree;
    var susp := s.core.suspended[f];
    ReleaseKeepsInv(s.core, f, ch.pick);
    var c1 := Release(s.core, f, susp.job, ch.pick);
    SlotsFreeAgain(s.core, f, c1);
    SuspendKeepsInv(c1, ch.next, susp.op, susp.job, ch.pick);
  }

  lemma FiredShrinks(fired: seq<Fire>, now: int, live: set<T.Task>, now': int, live': set<T.Task>)
    requires FiredOk(fired, now, live) && now <= now'
    requires forall t <- live' :: t in live || t.due >= now
    ensures FiredOk(fired, now', live')
  {
  }

  lemma FiredGrows(fired: seq<Fire>, now: int, live: set<T.Task>, t: T.Task, o: nat, now': int, live': set<T.Task>)
    requires FiredOk(fired, now, live) && T.Earliest(t, live) && now <= now' && t.due <= now' && live' <= live
    ensures FiredOk(fired + [Fire(o, t.due, now')], now', live')
  {
  }

  lemma ResumedGrows(resumed: seq<(nat, nat)>, ops: map<nat, Op>, o: nat, op: Op)
    requires ResumedOk(resumed, ops) && o in ops
    requires ops[o].suspensions == ops[o].awaits + 1
    requires op.suspensions > 0 && op.awaits == ops[o].suspensions
    ensures ResumedOk(resumed + [(o, ops[o].suspensions)], ops[o := op])
  {
    var resumed' := resumed + [(o, ops[o].suspensions)];
    assert (o, ops[o].suspensions) !in resumed;
    forall x: nat, k: nat
      ensures (x, k) in resumed' <==> x in ops[o := op] && 1 <= k <= Resumptions(ops[o := op][x])
    {
      assert (x, k) in resumed' <==> (x, k) in resumed || (x, k) == (o, ops[o].suspensions);
    }
  }

  lemma OnRecordGrows(fired: seq<Fire>, ops: map<nat, Op>, o: nat, op: Op, more: seq<Fire>)
    requires OnRecord(fired, ops) && (o in ops ==> !Expired(ops[o]))
    requires if Expired(op) then |more| == 1 && more[0].op == o && op.due == Some(more[0].due) else more == []
    ensures OnRecord(fired + more, ops[o := op])
  {
    var ops' := ops[o := op];
    forall x <- ops' | Expired(ops'[x])
      ensures exists i | 0 <= i < |fired + more| :: (fired + more)[i].op == x
    {
      if x == o {
        assert (fired + more)[|fired|].op == o;
      } else {
        var i :| 0 <= i < |fired| && fired[i].op == x;
        assert (fired + more)[i].op == x;
      }
    }
  }

  /** How an operation ends without I/O. */
  function Ended(op: Op, verdict: Verdict): Op {
    var op' := if verdict == Elapsed then WaitRound(op)
               else ErrorRound(op, if verdict == Cancelled then OperationCanceled else TimedOutCode);
    op'.(outerResumes := op'.outerResumes + 1)
  }

  lemma EndedShape(s: State, f: nat, ch: Choice)
    requires Resumable(s, f, ch)
    requires VerdictOf(s.core, f, s.core.suspended[f].job) != Ready
    ensures var susp := s.core.suspended[f];
      var s' := ResumeInner(s, f, ch);
      s' == s.(core := Release(s.core, f, susp.job, ch.pick),
               ops := s.ops[susp.op := Ended(s.ops[susp.op], VerdictOf(s.core, f, susp.job))],
               resumed := s.resumed + [(susp.op, s.ops[susp.op].suspensions)],
               fired := s'.fired)
  {
    hide Inv, Release, VerdictOf;
  }

  lemma EndedFacts(op: Op, net: Net, verdict: Verdict)
    requires OpOk(op, net) && op.status.Waiting? && (verdict == Elapsed <==> op.job.Wait?) && verdict != Ready
    ensures var done := Ended(op, verdict);
      && OpOk(done, net) && done.status.Done? && done.suspensions == op.suspensions > 0 && done.awaits == op.awaits + 1
      && done.due == op.due && (Expired(done) <==> verdict != Cancelled)
  {
    hide PlaceOk, CountsOk;
    FinishedOpOk(op, net, if verdict == Elapsed then WaitRound(op)
                          else ErrorRound(op, if verdict == Cancelled then OperationCanceled else TimedOutCode));
  }

  lemma EndedOp(s: State, f: nat, ch: Choice)
    requires Resumable(s, f, ch)
    requires VerdictOf(s.core, f, s.core.suspended[f].job) != Ready
    ensures var susp := s.core.suspended[f];
      var done := Ended(s.ops[susp.op], VerdictOf(s.core, f, susp.job));
      && OpsOk(s.ops[susp.op := done], s.net)
      && Linked(s.core.suspended - {f}, s.ops[susp.op := done])
      && ResumedOk(s.resumed + [(susp.op, s.ops[susp.op].suspensions)], s.ops[susp.op := done])
      && done.due == s.ops[susp.op].due && (Expired(done) <==> VerdictOf(s.core, f, susp.job) != Cancelled)
  {
    hide Awaiters.Inv, Linked, OpsOk, NetOk, LatchedOk, FiredOk, ResumedOk, OnRecord, OpOk, Ended, Expired, Allowed,
      CancelRequested, HasExpired, T.PicksEarliest;
    Own(s, f);
    var susp := s.core.suspended[f];
    var op := s.ops[susp.op];
    var done := Ended(op, VerdictOf(s.core, f, susp.job));
    EndedFacts(op, s.net, VerdictOf(s.core, f, susp.job));
    OpsUpdate(s.ops, s.net, susp.op, done);
    LinkedFinish(s.core.suspended, s.ops, f, done);
    ResumedGrows(s.resumed, s.ops, susp.op, done);
  }

  /** Timed out, cancelled or elapsed: the operation finishes and no byte moves. */
  lemma ResumeWithoutIo(s: State, f: nat, ch: Choice)
    requires Resumable(s, f, ch)
    requires VerdictOf(s.core, f, s.core.suspended[f].job) != Ready
    ensures Inv(ResumeInner(s, f, ch).(latched := Null))
  {
    hide Awaiters.Inv, Linked, OpsOk, NetOk, LatchedOk, FiredOk, ResumedOk, OnRecord, T.Live, Release, Ended,
      ResumeInner, VerdictOf, Expired;
    EndedShape(s, f, ch);
    EndedOp(s, f, ch);
    ReleaseKeepsInv(s.core, f, ch.pick);
    FireCore(s, f, ch);
    var susp := s.core.suspended[f];
    Own(s, f);
    var done := Ended(s.ops[susp.op], VerdictOf(s.core, f, susp.job));
    var s' := ResumeInner(s, f, ch);
    var more := if VerdictOf(s.core, f, susp.job) == Cancelled then []
                else [Fire(susp.op, s.core.timers.cur.due, s'.core.now)];
    assert s'.fired == s.fired + more;
    OnRecordGrows(s.fired, s.ops, susp.op, done, more);
    LatchedNull(s'.core.suspended);
  }

  lemma LatchedNull(suspended: map<nat, Suspension>)
    ensures LatchedOk(Null, suspended)
  {
  }

  /** What fires is `cur`, an earliest timer, at or after its deadline. */
  lemma FireCore(s: State, f: nat, ch: Choice)
    requires Resumable(s, f, ch)
    requires VerdictOf(s.core, f, s.core.suspended[f].job) != Ready
    ensures var s' := ResumeInner(s, f, ch);
      var verdict := VerdictOf(s.core, f, s.core.suspended[f].job);
      && FiredOk(s'.fired, s'.core.now, T.Live(s'.core.timers))
      && s'.fired == (if verdict == Cancelled then s.fired
                      else s.fired + [Fire(s.core.suspended[f].op, s.core.timers.cur.due, s'.core.now)])
      && (verdict != Cancelled ==> s.core.suspended[f].due == Some(s.core.timers.cur.due))
  {
    hide Awaiters.Inv, Linked, OpsOk, NetOk, LatchedOk, FiredOk, ResumedOk, OnRecord, T.Live, Release, OpOk,
      T.Earliest, WaitRound, ErrorRound;
    var susp := s.core.suspended[f];
    ReleaseKeepsInv(s.core, f, ch.pick);
    var c1 := Release(s.core, f, susp.job, ch.pick);
    var live, live' := T.Live(s.core.timers), T.Live(c1.timers);
    TimedOutIff(s.core, f);
    if VerdictOf(s.core, f, susp.job) == Cancelled {
      FiredShrinks(s.fired, s.core.now, live, c1.now, live');
    } else {
      OwnerOfCurrent(s.core);
      CurrentOwner(s.core);
      FiredGrows(s.fired, s.core.now, live, s.core.timers.cur, susp.op, c1.now, live');
    }
  }

  /** A ready round: the bytes move once, and the operation finishes or suspends again. */
  lemma IoShape(s: State, f: nat, ch: Choice)
    requires Resumable(s, f, ch) && s.core.suspended[f].job.Io?
    requires VerdictOf(s.core, f, s.core.suspended[f].job) == Ready
    ensures var susp := s.core.suspended[f];
      var op := s.ops[susp.op];
      var wire := At(s.net.wire, susp.job.socket);
      var op1 := Round(op, wire, ch.result);
      var c1 := Release(s.core, f, susp.job, ch.pick);
      && op1.job == susp.job
      && ResumeInner(s, f, ch) == s.(
           core := if op1.status.Done? then c1 else Suspend(c1, ch.next, susp.op, susp.job, ch.pick),
           net := Transmit(s.net, susp.job, Traffic(op, wire, ch.result)),
           resumed := s.resumed + [(susp.op, op.suspensions)],
           ops := s.ops[susp.op := Settle(op1, ch.next, s.core.now)])
  {
    hide Inv, Release, VerdictOf, Suspend, Transmit, Traffic;
    ReadyKeepsClock(s.core, f, s.core.suspended[f].job, ch.pick);
  }

  /** Only the end of a delay may wait for the timerfd. */
  lemma ReadyKeepsClock(c: Awaiters.State, f: nat, job: Job, pick: T.Pick)
    requires T.PicksEarliest(pick) && VerdictOf(c, f, job) == Ready
    ensures Release(c, f, job, pick).now == c.now
  {
    hide T.PicksEarliest, T.Refresh, T.Cancel, HasExpired, I.RemoveRead, I.RemoveWrite, I.RemoveTimer, I.SubmitTimer;
  }

  /** What one transfer round leaves of the operation's record. */
  lemma RoundShape(op: Op, wire: seq<Byte>, r: Syscall)
    requires op.job.Io? && op.buf.Valid() && op.status.Waiting?
    requires if op.job.dir == Inbound then RecvAllowed(op.buf, wire, r) else SendAllowed(op.buf, r)
    ensures var op1 := Round(op, wire, r);
      && op1 == op.(buf := op1.buf, total := op1.total, status := op1.status, awaits := op.awaits + 1,
                    sends := op1.sends, last := op1.last)
      && !Expired(op1)
  {
  }

  lemma SettleShape(op: Op, wire: seq<Byte>, r: Syscall, next: nat, now: int)
    requires op.job.Io? && op.buf.Valid() && op.status.Waiting?
    requires if op.job.dir == Inbound then RecvAllowed(op.buf, wire, r) else SendAllowed(op.buf, r)
    ensures var op2 := Settle(Round(op, wire, r), next, now);
      !Expired(op2) && op2.awaits == op.awaits + 1 && op2.suspensions >= op.suspensions
  {
    RoundShape(op, wire, r);
  }

  lemma IoOps(s: State, f: nat, ch: Choice)
    requires Resumable(s, f, ch) && s.core.suspended[f].job.Io?
    ensures var susp := s.core.suspended[f];
      var op := s.ops[susp.op];
      var wire := At(s.net.wire, susp.job.socket);
      var net' := Transmit(s.net, susp.job, Traffic(op, wire, ch.result));
      && NetOk(net')
      && OpsOk(s.ops[susp.op := Settle(Round(op, wire, ch.result), ch.next, s.core.now)], net')
  {
    hide Awaiters.Inv, Linked, OpsOk, NetOk, LatchedOk, FiredOk, ResumedOk, OnRecord, OpOk, CountsOk, PlaceOk, Grew,
      Round, Traffic, Transmit, T.PicksEarliest, RecvAllowed, SendAllowed, StreamOf;
    Own(s, f);
    var susp := s.core.suspended[f];
    var op := s.ops[susp.op];
    var wire := At(s.net.wire, susp.job.socket);
    var op1 := Round(op, wire, ch.result);
    var more := Traffic(op, wire, ch.result);
    var net' := Transmit(s.net, susp.job, more);
    IoRound(s.net, op, ch.result);
    RoundShape(op, wire, ch.result);
    SettleOpOk(op, op1, s.net, net', ch.next, s.core.now);
    OpsAfterRound(s, susp.op, Settle(op1, ch.next, s.core.now), net', more);
  }

  lemma IoLog(s: State, f: nat, ch: Choice)
    requires Resumable(s, f, ch) && s.core.suspended[f].job.Io?
    ensures var susp := s.core.suspended[f];
      var op := s.ops[susp.op];
      var op2 := Settle(Round(op, At(s.net.wire, susp.job.socket), ch.result), ch.next, s.core.now);
      && ResumedOk(s.resumed + [(susp.op, op.suspensions)], s.ops[susp.op := op2])
      && OnRecord(s.fired, s.ops[susp.op := op2])
  {
    hide Awaiters.Inv, Linked, OpsOk, NetOk, LatchedOk, FiredOk, ResumedOk, OnRecord, OpOk, Round, T.PicksEarliest,
      RecvAllowed, SendAllowed, Expired, Settle, ResumesOk, Resumptions;
    Own(s, f);
    var susp := s.core.suspended[f];
    var op := s.ops[susp.op];
    var wire := At(s.net.wire, susp.job.socket);
    var op2 := Settle(Round(op, wire, ch.result), ch.next, s.core.now);
    SettleShape(op, wire, ch.result, ch.next, s.core.now);
    ResumedGrows(s.resumed, s.ops, susp.op, op2);
    OnRecordGrows(s.fired, s.ops, susp.op, op2, []);
    assert s.fired + [] == s.fired;
  }

  lemma IoCore(s: State, f: nat, ch: Choice)
    requires Resumable(s, f, ch)
    requires VerdictOf(s.core, f, s.core.suspended[f].job) == Ready
    ensures var s' := ResumeInner(s, f, ch);
      && Awaiters.Inv(s'.core) && Linked(s'.core.suspended, s'.ops)
      && FiredOk(s.fired, s'.core.now, T.Live(s'.core.timers))
  {
    hide Awaiters.Inv, Linked, OpsOk, NetOk, LatchedOk, FiredOk, ResumedOk, OnRecord, T.Live, Release, Suspend, Round,
      Traffic, Transmit, ResumeInner, OpOk, T.PicksEarliest, RecvAllowed, SendAllowed;
    Own(s, f);
    IoShape(s, f, ch);
    ReleaseKeepsInv(s.core, f, ch.pick);
    AgainCore(s, f, ch);
    var susp := s.core.suspended[f];
    var s' := ResumeInner(s, f, ch);
    var op2 := s'.ops[susp.op];
    if op2.status.Done? {
      LinkedFinish(s.core.suspended, s.ops, f, op2);
    } else {
      LinkedAgain(s.core.suspended, s.ops, f, ch.next,
                  Suspension(susp.op, susp.job, DueOf(susp.job, s.core.now)), op2);
    }
    FiredShrinks(s.fired, s.core.now, T.Live(s.core.timers), s'.core.now, T.Live(s'.core.timers));
  }

  lemma ResumeWithIo(s: State, f: nat, ch: Choice)
    requires Resumable(s, f, ch)
    requires VerdictOf(s.core, f, s.core.suspended[f].job) == Ready
    ensures Inv(ResumeInner(s, f, ch).(latched := Null))
  {
    hide Awaiters.Inv, Linked, OpsOk, NetOk, LatchedOk, FiredOk, ResumedOk, OnRecord, T.Live, Release, Suspend, Round,
      Traffic, Transmit, ResumeInner, OpOk, Settle, T.PicksEarliest, RecvAllowed, SendAllowed;
    IoCore(s, f, ch);
    IoShape(s, f, ch);
    IoOps(s, f, ch);
    IoLog(s, f, ch);
    LatchedNull(ResumeInner(s, f, ch).core.suspended);
  }

  /** Whatever resumes an awaiter, the invariant survives the resumption; a latched pointer stays good
      unless it is the one just resumed through. */
  lemma ResumeKeepsInv(s: State, f: nat, ch: Choice)
    requires Resumable(s, f, ch)
    ensures Inv(ResumeInner(s, f, ch).(latched := Null))
    ensures s.latched == Null || s.latched.frame != f ==> Inv(ResumeInner(s, f, ch))
  {
    hide Inv, ResumeInner, VerdictOf;
    if VerdictOf(s.core, f, s.core.suspended[f].job) == Ready {
      ResumeWithIo(s, f, ch);
    } else {
      ResumeWithoutIo(s, f, ch);
    }
    ResumeIgnoresLatch(s, f, ch, s.latched);
    if s.latched == Null || s.latched.frame != f {
      LatchSurvives(s, f, ch);
      Relatch(ResumeInner(s, f, ch));
    }
  }

  lemma LatchSurvives(s: State, f: nat, ch: Choice)
    requires Resumable(s, f, ch) && (s.latched == Null || s.latched.frame != f)
    ensures LatchedOk(s.latched, ResumeInner(s, f, ch).core.suspended)
  {
    hide Awaiters.Inv, Linked, OpsOk, NetOk, FiredOk, ResumedOk, OnRecord, ResumeInner, T.PicksEarliest;
    if s.latched != Null {
      OthersStaySuspended(s, f, ch, s.latched.frame);
    }
  }

  lemma Relatch(s: State)
    requires Inv(s.(latched := Null)) && LatchedOk(s.latched, s.core.suspended)
    ensures Inv(s)
  {
    hide Awaiters.Inv, Linked, OpsOk, NetOk, LatchedOk, FiredOk, ResumedOk, OnRecord;
  }

  /** `latched` plays no part in a resumption. */
  lemma ResumeIgnoresLatch(s: State, f: nat, ch: Choice, latched: Ptr)
    requires T.PicksEarliest(ch.pick) && Sane(s, f) && Allowed(s, f, ch)
    ensures ResumeInner(s.(latched := latched), f, ch) == ResumeInner(s, f, ch).(latched := latched)
    ensures ResumeInner(s, f, ch).latched == s.latched
  {
    hide Release, Suspend, Round, Traffic, Transmit, VerdictOf, T.PicksEarliest;
  }

  // ------------------------------------------------------------------ dispatching

  /** A pointer a completion may go through: its awaiter is suspended, and if it is a wait_for it is `cur`. */
  ghost predicate Dispatchable(s: State, p: Ptr) {
    && p.Field? && Sane(s, p.frame)
    && s.ops[s.core.suspended[p.frame].op].status.Waiting?
    && (s.core.suspended[p.frame].job.Wait? ==> s.core.timers.cur.read == Field(p.frame, OnTimer))
  }

  lemma SuspendedIsDispatchable(s: State, p: Ptr)
    requires Inv(s) && p.Field? && p.frame in s.core.suspended
    requires s.core.suspended[p.frame].job.Wait? ==> s.core.timers.cur.read == p
    ensures Dispatchable(s, p)
  {
    hide Linked, OpsOk, NetOk, LatchedOk, FiredOk, ResumedOk, OnRecord, OpOk, Awaiters.Inv;
    Own(s, p.frame);
    if s.core.suspended[p.frame].job.Wait? {
      OwnerOfCurrent(s.core);
      CurrentOwner(s.core);
    }
  }

  /** No stale pointer is ever dispatched: whatever a table slot holds leads to a suspended awaiter. */
  lemma ReadSlotIsDispatchable(s: State, fd: Fd)
    requires Inv(s) && I.ReadSlot(s.core.sched, fd) != Null
    ensures Dispatchable(s, I.ReadSlot(s.core.sched, fd))
    ensures var job := s.core.suspended[I.ReadSlot(s.core.sched, fd).frame].job;
      fd.SocketFd? ==> job.Io? && job.dir == Inbound
  {
    hide Linked, OpsOk, NetOk, LatchedOk, FiredOk, ResumedOk, OnRecord, I.Inv, T.Inv, T.Settled, Timed, JobsOk,
      Registered, I.Readers, I.Writers, Dispatchable;
    var p := I.ReadSlot(s.core.sched, fd);
    I.Slots(s.core.sched, fd);
    assert fd in I.Readers(s.core.sched) && I.Readers(s.core.sched)[fd] == p;
    if fd == TimerFd {
      OwnerOfCurrent(s.core);
      CurrentOwner(s.core);
    }
    SuspendedIsDispatchable(s, p);
  }

  lemma WriteSlotOwner(s: State, fd: Fd)
    requires Inv(s) && I.WriteSlot(s.core.sched, fd) != Null
    ensures LatchedOk(I.WriteSlot(s.core.sched, fd), s.core.suspended)
    ensures fd.SocketFd?
  {
    hide Linked, OpsOk, NetOk, FiredOk, ResumedOk, OnRecord, I.Inv, T.Inv, T.Settled, Timed, JobsOk, Registered,
      I.Readers, I.Writers;
    var p := I.WriteSlot(s.core.sched, fd);
    I.Slots(s.core.sched, fd);
    assert fd in I.Writers(s.core.sched) && I.Writers(s.core.sched)[fd] == p;
  }

  lemma CompleteKeepsInv(s: State, p: Ptr, ch: Choice)
    requires Inv(s) && Dispatchable(s, p) && LegalChoice(s, p, ch)
    ensures Resumable(s, p.frame, ch) && Complete(s, p, ch) == ResumeInner(s, p.frame, ch)
    ensures Inv(Complete(s, p, ch).(latched := Null)) && Complete(s, p, ch).latched == s.latched
    ensures s.latched == Null || s.latched.frame != p.frame ==> Inv(Complete(s, p, ch))
  {
    hide Inv, ResumeInner, Allowed, T.PicksEarliest;
    ResumeKeepsInv(s, p.frame, ch);
    ResumeIgnoresLatch(s, p.frame, ch, s.latched);
  }

  lemma KeepsLatch(s: State, p: Ptr, ch: Choice)
    requires LegalChoice(s, p, ch)
    ensures Complete(s, p, ch).latched == s.latched
    ensures Complete(s.(latched := Null), p, ch) == Complete(s, p, ch).(latched := Null)
  {
    hide Release, Suspend, Round, Traffic, Transmit, VerdictOf, T.PicksEarliest;
  }

  /** The other awaiters stay suspended while one is resumed. */
  lemma OthersStaySuspended(s: State, f: nat, ch: Choice, g: nat)
    requires Resumable(s, f, ch) && g in s.core.suspended && g != f
    ensures var c' := ResumeInner(s, f, ch).core;
      g in c'.suspended && c'.suspended[g] == s.core.suspended[g]
  {
    hide Awaiters.Inv, Linked, OpsOk, NetOk, FiredOk, ResumedOk, OnRecord, Release, Suspend, T.PicksEarliest,
      ResumeInner, Round, Traffic, Transmit, VerdictOf, Settle, Ended;
    ReleaseKeepsInv(s.core, f, ch.pick);
    if VerdictOf(s.core, f, s.core.suspended[f].job) == Ready {
      VerdictReadyIsIo(s.core, f);
      IoShape(s, f, ch);
      AgainCore(s, f, ch);
    } else {
      EndedShape(s, f, ch);
    }
  }

  lemma VerdictReadyIsIo(c: Awaiters.State, f: nat)
    requires f in c.suspended && VerdictOf(c, f, c.suspended[f].job) == Ready
    ensures c.suspended[f].job.Io?
  {
  }

  /** The awaiter at f is resumed by this step: as the read slot's owner, by its socket, the timerfd or its
      token, or as the latched writer, by its socket. */
  predicate Resumes(s: State, a: Action, f: nat) {
    Completed(s, a).Field? && Completed(s, a).frame == f
  }

  /** The pointer a step completes through. */
  function Completed(s: State, a: Action): Ptr {
    match a
    case EventRead(fd, readReady, _, _) => if readReady then I.ReadSlot(s.core.sched, fd) else Null
    case EventWrite(_) => s.latched
    case _ => Null
  }

  /** Both halves of an event do the same to the awaiter they resume. */
  lemma StepIsResumption(s: State, a: Action, f: nat)
    requires Inv(s) && Legal(s, a) && Resumes(s, a, f)
    ensures a.EventRead? || a.EventWrite?
    ensures Resumable(s, f, a.choice)
    ensures var s' := Step(s, a); s' == ResumeInner(s, f, a.choice).(latched := s'.latched)
  {
    hide Inv, Complete, ResumeInner, T.PicksEarliest, Sane, Allowed, Dispatchable, Resumable;
    if a.EventRead? {
      ReadSlotIsDispatchable(s, a.fd);
      CompleteKeepsInv(s, I.ReadSlot(s.core.sched, a.fd), a.choice);
    } else {
      LatchedIsDispatchable(s);
      CompleteKeepsInv(s, s.latched, a.choice);
    }
  }

  lemma LatchedIsDispatchable(s: State)
    requires Inv(s) && s.latched != Null
    ensures Dispatchable(s, s.latched)
  {
    hide Linked, OpsOk, NetOk, FiredOk, ResumedOk, OnRecord, Awaiters.Inv, Dispatchable;
    SuspendedIsDispatchable(s, s.latched);
  }

  /** The timer a round sets for its next await is no timer that was live before. */
  lemma NewTimerIsNew(s: State, f: nat, ch: Choice)
    requires Resumable(s, f, ch)
    requires var job := s.core.suspended[f].job; job.Io? && VerdictOf(s.core, f, job) == Ready
    ensures var susp := s.core.suspended[f];
      var c2 := Suspend(Release(s.core, f, susp.job, ch.pick), ch.next, susp.op, susp.job, ch.pick);
      forall t <- T.Live(c2.timers) :: t.read == Field(f, OnTimer) ==> t !in T.Live(s.core.timers)
  {
    hide Awaiters.Inv, Linked, OpsOk, NetOk, LatchedOk, FiredOk, ResumedOk, OnRecord, T.Live, Release, Suspend,
      SlotsFree, T.PicksEarliest;
    var susp := s.core.suspended[f];
    ReleaseKeepsInv(s.core, f, ch.pick);
    var c1 := Release(s.core, f, susp.job, ch.pick);
    SlotsFreeAgain(s.core, f, c1);
    SuspendKeepsInv(c1, ch.next, susp.op, susp.job, ch.pick);
    LiveIdsAreOld(s.core);
  }

  lemma LiveIdsAreOld(c: Awaiters.State)
    requires Awaiters.Inv(c)
    ensures forall t <- T.Live(c.timers) :: t.id < c.timers.nextId
  {
  }

  /** A set cancel flag stays set. */
  lemma FlagsStay(s: State, a: Action, k: nat)
    requires Legal(s, a) && TokenOf(s.core, k).cancelled
    ensures TokenOf(Step(s, a).core, k).cancelled
  {
    hide Release, Suspend, T.PicksEarliest, SlotsFree, Complete;
    match a
    case Start(_, f, job, _, pick) => FlagStaysSet(s.core, f, a.op, job, pick, k);
    case EventRead(fd, readReady, _, ch) =>
      var p := I.ReadSlot(s.core.sched, fd);
      if readReady && p != Null { CompleteKeepsFlags(s, p, ch, k); }
    case EventWrite(ch) =>
      if s.latched != Null { CompleteKeepsFlags(s, s.latched, ch, k); }
    case _ =>
  }

  lemma CompleteKeepsFlags(s: State, p: Ptr, ch: Choice, k: nat)
    requires LegalChoice(s, p, ch) && TokenOf(s.core, k).cancelled
    ensures TokenOf(Complete(s, p, ch).core, k).cancelled
  {
    hide Release, Suspend, T.PicksEarliest, Round, Traffic, Transmit, VerdictOf, RecvAllowed, SendAllowed;
    if p.Field? && Sane(s, p.frame) {
      var susp := s.core.suspended[p.frame];
      FlagStaysSet(s.core, p.frame, susp.op, susp.job, ch.pick, k);
      if VerdictOf(s.core, p.frame, susp.job) == Ready {
        VerdictReadyIsIo(s.core, p.frame);
        var op1 := Round(s.ops[susp.op], At(s.net.wire, susp.job.socket), ch.result);
        FlagStaysSet(Release(s.core, p.frame, susp.job, ch.pick), ch.next, susp.op, op1.job, ch.pick, k);
      }
    }
  }

  /** A step that completes nothing changes at most the latched pointer, unless it starts an operation, or moves
      the clock, a token or bytes from outside. */
  lemma NothingCompleted(s: State, a: Action)
    requires Legal(s, a) && (a.EventRead? || a.EventWrite?) && Completed(s, a) == Null
    ensures var s' := Step(s, a); s' == s.(latched := s'.latched)
  {
    hide T.PicksEarliest, Complete, Sane, Allowed;
  }

  /** A resumption touches one operation, and streams only grow. */
  lemma ResumeTouchesOne(s: State, f: nat, ch: Choice)
    requires Resumable(s, f, ch)
    ensures var o := s.core.suspended[f].op;
      var s' := ResumeInner(s, f, ch);
      && o in s'.ops && s'.ops == s.ops[o := s'.ops[o]]
      && o in s.ops && s.ops[o].frame == f && s.ops[o].job == s.core.suspended[f].job && s'.ops[o].job == s.ops[o].job
      && NetGrows(s.net, s'.net)
      && (s.ops[o].job.Io? && s.ops[o].job.dir == Inbound ==> s'.net.into == s.net.into)
  {
    hide Inv, ResumeInner, T.PicksEarliest, VerdictOf, Release, Suspend, RecvAllowed, SendAllowed, Traffic;
    Own(s, f);
    if VerdictOf(s.core, f, s.core.suspended[f].job) == Ready {
      VerdictReadyIsIo(s.core, f);
      IoShape(s, f, ch);
      var op := s.ops[s.core.suspended[f].op];
      TransmitGrows(s.net, op.job, Traffic(op, At(s.net.wire, op.job.socket), ch.result));
    } else {
      EndedShape(s, f, ch);
    }
  }

  ghost predicate NetGrows(net: Net, net': Net) {
    forall k: nat :: At(net.into, k) <= At(net'.into, k) && At(net.got, k) <= At(net'.got, k)
  }

  lemma TransmitGrows(net: Net, job: Job, bytes: seq<Byte>)
    requires job.Io? && (job.dir == Inbound ==> |bytes| <= |At(net.wire, job.socket)|)
    ensures NetGrows(net, Transmit(net, job, bytes))
    ensures job.dir == Inbound ==> Transmit(net, job, bytes).into == net.into
  {
  }

  /** The read half of an event resumes the owner of the read slot. */
  lemma EventResumesOwner(s: State, fd: Fd, ch: Choice)
    requires Inv(s) && s.latched == Null && I.ReadSlot(s.core.sched, fd) != Null
    requires LegalChoice(s, I.ReadSlot(s.core.sched, fd), ch)
    ensures var a := EventRead(fd, true, false, ch);
      var f := I.ReadSlot(s.core.sched, fd).frame;
      && Dispatchable(s, I.ReadSlot(s.core.sched, fd)) && Resumable(s, f, ch)
      && Legal(s, a) && Step(s, a) == ResumeInner(s, f, ch)
  {
    hide Inv, ResumeInner, Complete, T.PicksEarliest;
    ReadSlotIsDispatchable(s, fd);
    CompleteKeepsInv(s, I.ReadSlot(s.core.sched, fd), ch);
  }

  lemma EventReadKeepsInv(s: State, a: Action)
    requires Inv(s) && Legal(s, a) && a.EventRead?
    ensures Inv(Step(s, a))
  {
    hide Awaiters.Inv, Linked, OpsOk, NetOk, FiredOk, ResumedOk, OnRecord, Complete, ResumeInner, T.PicksEarliest,
      Sane;
    var readOp, writeOp := I.ReadSlot(s.core.sched, a.fd), I.WriteSlot(s.core.sched, a.fd);
    if writeOp != Null { WriteSlotOwner(s, a.fd); }
    if a.readReady && readOp != Null {
      ReadSlotIsDispatchable(s, a.fd);
      CompleteKeepsInv(s, readOp, a.choice);
      if writeOp != Null && a.writeReady {
        OthersStaySuspended(s, readOp.frame, a.choice, writeOp.frame);
      }
    }
  }

  lemma EventWriteKeepsInv(s: State, a: Action)
    requires Inv(s) && Legal(s, a) && a.EventWrite?
    ensures Inv(Step(s, a))
  {
    hide Awaiters.Inv, Linked, OpsOk, NetOk, FiredOk, ResumedOk, OnRecord, Complete, ResumeInner, T.PicksEarliest;
    LatchedNull(s.core.suspended);
    if s.latched != Null {
      SuspendedIsDispatchable(s, s.latched);
      CompleteKeepsInv(s, s.latched, a.choice);
    }
  }

  // ------------------------------------------------------------------ the other steps

  lemma NewOpOk(s: State, job: Job, buf: Buffer, f: nat)
    requires buf.Valid()
    ensures var op := NewOp(job, buf, BaseOf(s.net, job), f);
      && OpOk(op.(suspensions := 1, due := DueOf(job, s.core.now)), s.net)
      && (job.Io? ==> OpOk(ErrorRound(op, OperationCanceled), s.net))
  {
  }

  lemma ResumedSame(resumed: seq<(nat, nat)>, ops: map<nat, Op>, o: nat, op: Op)
    requires ResumedOk(resumed, ops) && o !in ops && Resumptions(op) == 0
    ensures ResumedOk(resumed, ops[o := op])
  {
    forall x: nat, k: nat
      ensures (x, k) in resumed <==> x in ops[o := op] && 1 <= k <= Resumptions(ops[o := op][x])
    {
      if x == o { assert (x, k) !in resumed; }
    }
  }

  lemma LatchedStays(latched: Ptr, suspended: map<nat, Suspension>, f: nat, susp: Suspension)
    requires LatchedOk(latched, suspended) && f !in suspended
    ensures LatchedOk(latched, suspended[f := susp])
  {
  }

  /** An operation whose token is already cancelled finishes at once, with nothing registered. */
  lemma StartDeclined(s: State, a: Action)
    requires Inv(s) && Legal(s, a) && a.Start? && CancelRequested(s.core, a.job)
    ensures Inv(Step(s, a))
  {
    hide Awaiters.Inv, OpsOk, NetOk, FiredOk, ResumedOk, OnRecord, T.PicksEarliest, SlotsFree, Release, OpOk, T.Live;
    DeclinedKeepsInv(s.core, a.frame, a.job, a.pick);
    NewOpOk(s, a.job, a.buf, a.frame);
    var op := ErrorRound(NewOp(a.job, a.buf, BaseOf(s.net, a.job), a.frame), OperationCanceled);
    OpsUpdate(s.ops, s.net, a.op, op);
    ResumedSame(s.resumed, s.ops, a.op, op);
    OnRecordGrows(s.fired, s.ops, a.op, op, []);
    assert s.fired + [] == s.fired;
  }

  lemma StartSuspends(s: State, a: Action)
    requires Inv(s) && Legal(s, a) && a.Start? && !CancelRequested(s.core, a.job)
    ensures Inv(Step(s, a))
  {
    hide Awaiters.Inv, OpsOk, NetOk, FiredOk, ResumedOk, OnRecord, T.PicksEarliest, SlotsFree, Suspend, OpOk, T.Live,
      Linked, LatchedOk;
    SuspendKeepsInv(s.core, a.frame, a.op, a.job, a.pick);
    NewOpOk(s, a.job, a.buf, a.frame);
    var op := NewOp(a.job, a.buf, BaseOf(s.net, a.job), a.frame)
      .(suspensions := 1, due := DueOf(a.job, s.core.now));
    var susp := Suspension(a.op, a.job, DueOf(a.job, s.core.now));
    var c' := Suspend(s.core, a.frame, a.op, a.job, a.pick);
    OpsUpdate(s.ops, s.net, a.op, op);
    LinkedStart(s.core.suspended, s.ops, a.frame, susp, op);
    LatchedStays(s.latched, s.core.suspended, a.frame, susp);
    ResumedSame(s.resumed, s.ops, a.op, op);
    OnRecordGrows(s.fired, s.ops, a.op, op, []);
    assert s.fired + [] == s.fired;
    FiredShrinks(s.fired, s.core.now, T.Live(s.core.timers), c'.now, T.Live(c'.timers));
  }

  lemma ClockAndTokens(s: State, a: Action)
    requires Inv(s) && Legal(s, a) && (a.Tick? || a.Request?)
    ensures Inv(Step(s, a))
  {
    hide OpsOk, NetOk, FiredOk, ResumedOk, OnRecord, Linked, LatchedOk, I.Inv, T.Inv, T.Settled, Registered, Backed,
      TimerSlot, Timed, JobsOk, T.Live;
    if a.Tick? {
      FiredShrinks(s.fired, s.core.now, T.Live(s.core.timers), s.core.now + a.span, T.Live(s.core.timers));
    } else {
      RequestCancelKeepsInv(s.core, a.token);
    }
  }

  lemma ArriveKeepsInv(s: State, a: Action)
    requires Inv(s) && Legal(s, a) && a.Arrive?
    ensures Inv(Step(s, a))
  {
    hide Awaiters.Inv, NetOk, FiredOk, ResumedOk, OnRecord, Linked, LatchedOk, CountsOk, PlaceOk;
    ArriveLemma(s.net, a.socket, a.bytes);
    var net' := Deliver(s.net, a.socket, a.bytes);
    forall o <- s.ops ensures OpOk(s.ops[o], net') {
      assert OpOk(s.ops[o], s.net);
    }
  }

  /** Every step of every kind keeps the invariant. */
  lemma StepKeepsInv(s: State, a: Action)
    requires Inv(s) && Legal(s, a)
    ensures Inv(Step(s, a))
  {
    hide Inv, Legal, Step;
    match a
    case Start(_, _, job, _, _) =>
      if CancelRequested(s.core, job) { StartDeclined(s, a); } else { StartSuspends(s, a); }
    case EventRead(_, _, _, _) => EventReadKeepsInv(s, a);
    case EventWrite(_) => EventWriteKeepsInv(s, a);
    case Tick(_) => ClockAndTokens(s, a);
    case Request(_) => ClockAndTokens(s, a);
    case Arrive(_, _) => ArriveKeepsInv(s, a);
  }

  lemma InitialInv(s: State)
    requires Initial(s)
    ensures Inv(s)
  {
  }

  /** Every state any run can reach satisfies the invariant. */
  lemma {:induction false} Safety(init: State, run: seq<Action>)
    requires Initial(init) && LegalRun(init, run)
    ensures Inv(Exec(init, run))
  {
    hide Inv, Legal, Step, Initial;
    if run == [] {
      InitialInv(init);
    } else {
      Safety(init, run[..|run| - 1]);
      StepKeepsInv(Exec(init, run[..|run| - 1]), run[|run| - 1]);
    }
  }
}
