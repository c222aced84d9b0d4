/**
 One operation's bytes: the buffers of include/async_frame/buffer.h, one recv or send
 (do_read.h, do_write.h), and what the read and write loops do with its result.
 */
module Transfer {
  import opened Handles
  import opened Awaiters

  newtype Byte = b: int | 0 <= b < 256

  /** DynamicBuffer and Buffer_View: storage, and how much of it is filled, or sent. */
  datatype Buffer = Buffer(data: seq<Byte>, offset: nat) {
    predicate Valid() {
      offset <= |data|
    }

    function Remain(): nat
      requires Valid()
    {
      |data| - offset
    }

    predicate Done()
      requires Valid()
    {
      Remain() == 0
    }
  }

  /** What recv or send returned: a positive count, zero, -1 with EWOULDBLOCK, or -1 with another errno. */
  datatype Syscall = Moved(n: nat) | Zero | WouldBlock | Fault(errno: int)

  datatype Code = Ok | OperationCanceled | TimedOutCode | Errno(errno: int)

  /** What co_return leaves, or that the coroutine still waits. */
  datatype Status = Waiting | Done(code: Code, count: nat)

  /** The coroutine of one operation: its buffer, the write loop's total_len, its status. The rest is
      bookkeeping for the statements below: the initial buffer, the position in the socket's stream at
      which it began, the await_resumes and effective sends so far, the last recv or send, how often it was
      suspended and its outer coroutine resumed, and at which address and until when its awaiter waits. */
  datatype Op = Op(
    job: Job,
    buf: Buffer,
    total: nat,
    status: Status,
    initial: Buffer,
    base: nat,
    awaits: nat,
    sends: nat,
    last: Option<Syscall>,
    suspensions: nat,
    outerResumes: nat,
    frame: nat,
    due: Option<int>)

  function NewOp(job: Job, buf: Buffer, base: nat, frame: nat): Op {
    Op(job, buf, 0, Waiting, buf, base, 0, 0, None, 0, 0, frame, None)
  }

  function MovedSoFar(op: Op): int {
    op.buf.offset - op.initial.offset
  }

  // ------------------------------------------------------------------ one recv, one send

  /** recv takes at most what is asked for and what is there; -1 comes with a non-zero errno. */
  predicate RecvAllowed(buf: Buffer, wire: seq<Byte>, r: Syscall)
    requires buf.Valid()
  {
    match r
    case Moved(n) => 1 <= n <= buf.Remain() && n <= |wire|
    case Fault(errno) => errno != 0
    case _ => true
  }

  predicate SendAllowed(buf: Buffer, r: Syscall)
    requires buf.Valid()
  {
    match r
    case Moved(n) => 1 <= n <= buf.Remain()
    case Fault(errno) => errno != 0
    case _ => true
  }

  /** try_read: the code, the count, and the buffer with the bytes stored at its offset. */
  function TryRead(buf: Buffer, wire: seq<Byte>, r: Syscall): (Code, nat, Buffer)
    requires buf.Valid() && RecvAllowed(buf, wire, r)
  {
    match r
    case Moved(n) =>
      (Ok, n, Buffer(buf.data[..buf.offset] + wire[..n] + buf.data[buf.offset + n..], buf.offset + n))
    case Zero => (Ok, 0, buf)
    case WouldBlock => (Ok, 0, buf)
    case Fault(errno) => (Errno(errno), 0, buf)
  }

  /** The op_status values try_write returns. */
  datatype SendStatus = InProgress | Erroneous | Shutdown | Completed

  /** try_write */
  function TryWrite(buf: Buffer, r: Syscall): (Code, nat, SendStatus, Buffer)
    requires buf.Valid() && SendAllowed(buf, r)
  {
    match r
    case Moved(n) =>
      var sent := buf.(offset := buf.offset + n);
      (Ok, n, if sent.Done() then Completed else InProgress, sent)
    case Zero => (Ok, 0, Shutdown, buf)
    case WouldBlock => (Ok, 0, InProgress, buf)
    case Fault(errno) => (Errno(errno), 0, Erroneous, buf)
  }

  /** The bytes a recv takes off the wire. */
  function Taken(wire: seq<Byte>, r: Syscall): seq<Byte> {
    if r.Moved? && r.n <= |wire| then wire[..r.n] else []
  }

  /** The bytes a send puts on the wire. */
  function Put(buf: Buffer, r: Syscall): seq<Byte> {
    if r.Moved? && buf.offset + r.n <= |buf.data| then buf.data[buf.offset..buf.offset + r.n] else []
  }

  // ------------------------------------------------------------------ one round of the loops

  /** async_read_impl and async_read_timeout_impl, from a ready await_resume to the next await or co_return. */
  function ReadRound(op: Op, wire: seq<Byte>, r: Syscall): Op
    requires op.buf.Valid() && RecvAllowed(op.buf, wire, r)
  {
    var (code, n, buf) := TryRead(op.buf, wire, r);
    var op' := op.(buf := buf, awaits := op.awaits + 1, last := Some(r));
    if code != Ok then op'.(status := Done(code, buf.offset))
    else if n == 0 then op'.(status := Done(code, buf.offset))
    else if buf.Done() then op'.(status := Done(code, buf.offset))
    else op'
  }

  /** async_write_impl and async_write_timeout_impl, likewise. */
  function WriteRound(op: Op, r: Syscall): Op
    requires op.buf.Valid() && SendAllowed(op.buf, r)
  {
    var (code, n, stat, buf) := TryWrite(op.buf, r);
    var op' := op.(buf := buf, total := op.total + n, awaits := op.awaits + 1, last := Some(r),
                   sends := if r == WouldBlock then op.sends else op.sends + 1);
    if stat == InProgress then op'
    else op'.(status := Done(code, op'.total))
  }

  /** The round in which await_resume itself reports an error: nothing is received or sent. */
  function ErrorRound(op: Op, code: Code): Op {
    op.(awaits := op.awaits + 1,
        status := Done(code, if op.job.Io? && op.job.dir == Outbound then op.total else op.buf.offset))
  }

  /** The round of wait_for. */
  function WaitRound(op: Op): Op {
    op.(awaits := op.awaits + 1, status := Done(Ok, 0))
  }

  // ------------------------------------------------------------------ what every round keeps

  function Max(a: int, b: int): int {
    if a < b then b else a
  }

  /** The last recv or send failed. */
  predicate Failed(op: Op) {
    op.last.Some? && op.last.value.Fault?
  }

  /** The last recv or send of a loop is one after which it returns success: it left no room, or nothing to
      send, or it returned zero; or, for a read only, it would have blocked. */
  predicate Concluded(op: Op)
    requires op.job.Io? && op.buf.Valid()
  {
    && op.last.Some?
    && match op.last.value
       case Moved(_) => op.buf.Done()
       case Zero => true
       case WouldBlock => op.job.dir == Inbound
       case Fault(_) => false
  }

  /** The counts of a loop: progress is what bounds the rounds. A waiting loop has seen nothing conclusive;
      success is returned exactly when the last call was conclusive, an errno exactly when it failed with it. */
  ghost predicate CountsOk(op: Op) {
    && op.buf.Valid() && op.initial.Valid() && |op.buf.data| == |op.initial.data|
    && op.initial.offset <= op.buf.offset
    && (op.job.Io? && op.job.dir == Outbound ==> op.total == MovedSoFar(op) && op.buf.data == op.initial.data)
    && match op.status
       case Waiting =>
         && !Failed(op) && (op.job.Io? ==> !Concluded(op))
         && (op.job.Io? && op.job.dir == Inbound ==>
               op.awaits <= MovedSoFar(op) && (op.awaits > 0 ==> !op.buf.Done()))
         && (op.job.Io? && op.job.dir == Outbound ==>
               op.sends <= MovedSoFar(op) && (op.sends > 0 ==> !op.buf.Done()))
       case Done(code, count) =>
         && (code.Errno? <==> Failed(op)) && (Failed(op) ==> code.errno == op.last.value.errno)
         && (op.job.Io? ==> (code == Ok <==> Concluded(op)))
         && (op.job.Wait? ==> op.status == Done(Ok, 0))
         && (op.job.Io? && op.job.dir == Inbound ==>
               && op.awaits <= Max(1, op.initial.Remain())
               && count == op.buf.offset)
         && (op.job.Io? && op.job.dir == Outbound ==>
               && op.sends <= Max(1, op.initial.Remain())
               && count == MovedSoFar(op))
  }

  lemma ReadRoundCounts(op: Op, wire: seq<Byte>, r: Syscall)
    requires CountsOk(op) && op.status.Waiting? && op.job.Io? && op.job.dir == Inbound
    requires RecvAllowed(op.buf, wire, r)
    ensures CountsOk(ReadRound(op, wire, r))
  {
  }

  lemma WriteRoundCounts(op: Op, r: Syscall)
    requires CountsOk(op) && op.status.Waiting? && op.job.Io? && op.job.dir == Outbound
    requires SendAllowed(op.buf, r)
    ensures CountsOk(WriteRound(op, r))
  {
  }

  lemma ErrorRoundCounts(op: Op, code: Code)
    requires CountsOk(op) && op.status.Waiting? && op.job.Io?
    requires code == OperationCanceled || code == TimedOutCode
    ensures CountsOk(ErrorRound(op, code))
  {
  }

  /** The operation's place in its socket's stream: the bytes it moved are the stream's from `base` on,
      they are what the buffer holds between the initial and the present offset, and the rest of the
      buffer is as it was. */
  ghost predicate PlaceOk(op: Op, stream: seq<Byte>)
    requires op.buf.Valid() && op.initial.Valid() && |op.buf.data| == |op.initial.data|
    requires op.initial.offset <= op.buf.offset
  {
    var moved := MovedSoFar(op);
    && op.base + moved <= |stream|
    && stream[op.base..op.base + moved] == op.buf.data[op.initial.offset..op.buf.offset]
    && op.buf.data[..op.initial.offset] == op.initial.data[..op.initial.offset]
    && op.buf.data[op.buf.offset..] == op.initial.data[op.buf.offset..]
    && (op.status.Waiting? ==> op.base + moved == |stream|)
  }

  lemma ReadRoundPlace(op: Op, wire: seq<Byte>, r: Syscall, stream: seq<Byte>)
    requires CountsOk(op) && op.status.Waiting? && PlaceOk(op, stream)
    requires op.job.Io? && op.job.dir == Inbound && RecvAllowed(op.buf, wire, r)
    ensures CountsOk(ReadRound(op, wire, r))
    ensures PlaceOk(ReadRound(op, wire, r), stream + Taken(wire, r))
  {
    hide CountsOk;
    ReadRoundCounts(op, wire, r);
    CountsShape(op);
    var op' := ReadRound(op, wire, r);
    if r.Moved? {
      StoredPlace(op, wire[..r.n], op', stream);
    } else {
      assert stream + Taken(wire, r) == stream;
    }
  }

  /** Bytes stored behind the offset take the buffer, and the stream, on by as many. */
  lemma StoredPlace(op: Op, bytes: seq<Byte>, op': Op, stream: seq<Byte>)
    requires op.buf.Valid() && op.initial.Valid() && |op.buf.data| == |op.initial.data|
    requires op.initial.offset <= op.buf.offset && op.status.Waiting? && PlaceOk(op, stream)
    requires |bytes| <= op.buf.Remain() && op'.initial == op.initial && op'.base == op.base
    requires op'.buf.offset == op.buf.offset + |bytes|
    requires op'.buf.data == op.buf.data[..op.buf.offset] + bytes + op.buf.data[op'.buf.offset..]
    ensures PlaceOk(op', stream + bytes)
  {
    StoredBytes(op.buf, bytes, op.initial.offset);
    StreamGrows(stream, bytes, op.base);
    assert op'.buf.data[op'.buf.offset..] == op.buf.data[op.buf.offset..][|bytes|..];
    assert op.initial.data[op'.buf.offset..] == op.initial.data[op.buf.offset..][|bytes|..];
  }

  lemma CountsShape(op: Op)
    requires CountsOk(op)
    ensures op.buf.Valid() && op.initial.Valid() && |op.buf.data| == |op.initial.data|
    ensures op.initial.offset <= op.buf.offset
  {
  }

  lemma StoredBytes(buf: Buffer, bytes: seq<Byte>, from: nat)
    requires buf.Valid() && from <= buf.offset && |bytes| <= buf.Remain()
    ensures var data := buf.data[..buf.offset] + bytes + buf.data[buf.offset + |bytes|..];
      && |data| == |buf.data|
      && data[from..buf.offset + |bytes|] == buf.data[from..buf.offset] + bytes
      && data[..from] == buf.data[..from]
      && data[buf.offset + |bytes|..] == buf.data[buf.offset + |bytes|..]
  {
  }

  lemma StreamGrows(stream: seq<Byte>, bytes: seq<Byte>, base: nat)
    requires base <= |stream|
    ensures (stream + bytes)[base..|stream| + |bytes|] == stream[base..|stream|] + bytes
  {
  }

  lemma SliceSplits(data: seq<Byte>, a: nat, b: nat, c: nat)
    requires a <= b <= c <= |data|
    ensures data[a..c] == data[a..b] + data[b..c]
  {
  }

  lemma WriteRoundPlace(op: Op, r: Syscall, stream: seq<Byte>)
    requires CountsOk(op) && op.status.Waiting? && PlaceOk(op, stream)
    requires op.job.Io? && op.job.dir == Outbound && SendAllowed(op.buf, r)
    ensures CountsOk(WriteRound(op, r))
    ensures PlaceOk(WriteRound(op, r), stream + Put(op.buf, r))
  {
    hide CountsOk;
    WriteRoundCounts(op, r);
    assert op.buf.Valid() && op.initial.Valid() && |op.buf.data| == |op.initial.data|
      && op.initial.offset <= op.buf.offset by { CountsShape(op); }
    var op' := WriteRound(op, r);
    assert op'.buf.data == op.buf.data;
    if r.Moved? {
      StreamGrows(stream, Put(op.buf, r), op.base);
      SliceSplits(op.buf.data, op.initial.offset, op.buf.offset, op'.buf.offset);
      assert op.buf.data[op'.buf.offset..] == op.buf.data[op.buf.offset..][r.n..];
      assert op.initial.data[op'.buf.offset..] == op.initial.data[op.buf.offset..][r.n..];
    } else {
      assert stream + Put(op.buf, r) == stream;
    }
  }
}
