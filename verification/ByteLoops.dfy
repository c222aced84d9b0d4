/**
 The read and write coroutines as loops over one buffer object, against a script of what their
 awaits see; and the comparison of the timed loops with the plain ones.
 */
module ByteLoops {
  import opened Handles
  import opened Awaiters
  import opened Transfer

  /** How one co_await comes out: ready for a recv or send with this result, or an error code at once. */
  datatype Await = IsReady(r: Syscall) | Reports(code: Code)

  ghost predicate AwaitAllowed(op: Op, wire: seq<Byte>, a: Await) {
    && op.job.Io? && op.buf.Valid()
    && match a
       case IsReady(r) => if op.job.dir == Inbound then RecvAllowed(op.buf, wire, r) else SendAllowed(op.buf, r)
       case Reports(code) => code == OperationCanceled || code == TimedOutCode
  }

  function OneRound(op: Op, wire: seq<Byte>, a: Await): Op
    requires AwaitAllowed(op, wire, a)
  {
    match a
    case IsReady(r) => if op.job.dir == Inbound then ReadRound(op, wire, r) else WriteRound(op, r)
    case Reports(code) => ErrorRound(op, code)
  }

  /** The wire after a round: a recv takes from its front. */
  function WireAfter(op: Op, wire: seq<Byte>, a: Await): seq<Byte> {
    if op.job.Io? && op.job.dir == Inbound && a.IsReady? then wire[|Taken(wire, a.r)|..] else wire
  }

  ghost predicate ScriptAllowed(op: Op, wire: seq<Byte>, script: seq<Await>)
    decreases |script|
  {
    op.status.Done? || script == [] ||
    (&& AwaitAllowed(op, wire, script[0])
     && ScriptAllowed(OneRound(op, wire, script[0]), WireAfter(op, wire, script[0]), script[1..]))
  }

  /** The coroutine run along a script until it returns or the script ends, and the wire it leaves. */
  ghost function Rounds(op: Op, wire: seq<Byte>, script: seq<Await>): (Op, seq<Byte>)
    requires ScriptAllowed(op, wire, script)
    decreases |script|
  {
    if op.status.Done? || script == [] then (op, wire)
    else Rounds(OneRound(op, wire, script[0]), WireAfter(op, wire, script[0]), script[1..])
  }

  // ------------------------------------------------------------------ timed and plain

  /** The same operation without its timeout. */
  function Plain(op: Op): Op {
    if op.job.Io? then op.(job := op.job.(delay := None)) else op
  }

  /** A timed loop in which neither timer nor token ever wins does what the plain loop does on the same
      recv and send results: same result, same buffer, same bytes left on the wire. */
  lemma {:induction false} TimedSimulatesPlain(op: Op, wire: seq<Byte>, script: seq<Await>)
    requires ScriptAllowed(op, wire, script) && op.job.Io?
    requires forall a <- script :: a.IsReady?
    ensures ScriptAllowed(Plain(op), wire, script)
    ensures Rounds(Plain(op), wire, script) == (Plain(Rounds(op, wire, script).0), Rounds(op, wire, script).1)
    decreases |script|
  {
    if !op.status.Done? && script != [] {
      var a := script[0];
      assert a in script;
      assert OneRound(Plain(op), wire, a) == Plain(OneRound(op, wire, a));
      TimedSimulatesPlain(OneRound(op, wire, a), WireAfter(op, wire, a), script[1..]);
    }
  }

  /** What a loop read, at its buffer's offset, and what it left are together what was on the wire; for a
      write, the count is what it sent. */
  lemma {:induction false} RoundsConserve(op: Op, wire: seq<Byte>, script: seq<Await>)
    requires ScriptAllowed(op, wire, script) && CountsOk(op) && op.status.Waiting? && op.job.Io?
    ensures var (op', wire') := Rounds(op, wire, script);
      && CountsOk(op') && op'.job == op.job && op'.initial == op.initial && op.buf.offset <= op'.buf.offset
      && (op.job.dir == Inbound ==> wire == op'.buf.data[op.buf.offset..op'.buf.offset] + wire')
      && (op.job.dir == Inbound ==> op'.buf.data[..op.buf.offset] == op.buf.data[..op.buf.offset])
      && (op.job.dir == Outbound ==> wire' == wire && op'.total == op.total + (op'.buf.offset - op.buf.offset))
    decreases |script|
  {
    if script != [] {
      var a := script[0];
      var op1 := OneRound(op, wire, a);
      var wire1 := WireAfter(op, wire, a);
      RoundKeepsCounts(op, wire, a);
      RoundConserves(op, wire, a);
      if op1.status.Waiting? {
        RoundsConserve(op1, wire1, script[1..]);
        var (op', wire') := Rounds(op1, wire1, script[1..]);
        if op.job.dir == Inbound {
          Joined(op, op1, op', wire, wire1, wire');
        }
      }
    }
  }

  lemma RoundKeepsCounts(op: Op, wire: seq<Byte>, a: Await)
    requires AwaitAllowed(op, wire, a) && CountsOk(op) && op.status.Waiting?
    ensures CountsOk(OneRound(op, wire, a))
  {
    hide CountsOk;
    match a
    case IsReady(r) =>
      if op.job.dir == Inbound { ReadRoundCounts(op, wire, r); } else { WriteRoundCounts(op, r); }
    case Reports(code) => ErrorRoundCounts(op, code);
  }

  lemma RoundConserves(op: Op, wire: seq<Byte>, a: Await)
    requires AwaitAllowed(op, wire, a) && CountsOk(op) && op.status.Waiting?
    ensures var op1 := OneRound(op, wire, a);
      && op1.job == op.job && op1.initial == op.initial && op.buf.offset <= op1.buf.offset <= |op1.buf.data|
      && (op.job.dir == Inbound ==>
            wire == op1.buf.data[op.buf.offset..op1.buf.offset] + WireAfter(op, wire, a)
            && op1.buf.data[..op.buf.offset] == op.buf.data[..op.buf.offset])
      && (op.job.dir == Outbound ==> op1.total == op.total + (op1.buf.offset - op.buf.offset))
  {
    if op.job.dir == Inbound && a.IsReady? && a.r.Moved? {
      StoredBytes(op.buf, wire[..a.r.n], op.buf.offset);
    }
  }

  lemma Joined(op: Op, op1: Op, op': Op, wire: seq<Byte>, wire1: seq<Byte>, wire': seq<Byte>)
    requires op.buf.offset <= op1.buf.offset <= op'.buf.offset <= |op'.buf.data|
    requires op1.buf.offset <= |op1.buf.data| && op.buf.offset <= |op.buf.data|
    requires wire == op1.buf.data[op.buf.offset..op1.buf.offset] + wire1
    requires op1.buf.data[..op.buf.offset] == op.buf.data[..op.buf.offset]
    requires wire1 == op'.buf.data[op1.buf.offset..op'.buf.offset] + wire'
    requires op'.buf.data[..op1.buf.offset] == op1.buf.data[..op1.buf.offset]
    ensures wire == op'.buf.data[op.buf.offset..op'.buf.offset] + wire'
    ensures op'.buf.data[..op.buf.offset] == op.buf.data[..op.buf.offset]
  {
    assert op'.buf.data[op.buf.offset..op1.buf.offset] == op'.buf.data[..op1.buf.offset][op.buf.offset..];
    assert op1.buf.data[op.buf.offset..op1.buf.offset] == op1.buf.data[..op1.buf.offset][op.buf.offset..];
    assert op'.buf.data[op.buf.offset..op'.buf.offset]
        == op'.buf.data[op.buf.offset..op1.buf.offset] + op'.buf.data[op1.buf.offset..op'.buf.offset];
    assert op'.buf.data[..op.buf.offset] == op'.buf.data[..op1.buf.offset][..op.buf.offset];
    assert op1.buf.data[..op.buf.offset] == op1.buf.data[..op1.buf.offset][..op.buf.offset];
  }

  // ------------------------------------------------------------------ the buffer object

  class DynamicBuffer {
    const storage: array<Byte>
    var offset: nat

    ghost predicate Valid()
      reads this
    {
      offset <= storage.Length
    }

    ghost function View(): Buffer
      reads this, storage
    {
      Buffer(storage[..], offset)
    }

    constructor (size: nat)
      ensures Valid() && fresh(storage) && storage.Length == size && offset == 0
    {
      storage := new Byte[size](_ => 0);
      offset := 0;
    }

    method Remain() returns (n: nat)
      requires Valid()
      ensures n == View().Remain()
    {
      n := storage.Length - offset;
    }

    method IsDone() returns (done: bool)
      requires Valid()
      ensures done <==> View().Done()
    {
      done := storage.Length == offset;
    }

    /** operator+= */
    method Advance(n: nat)
      requires Valid() && offset + n <= storage.Length
      modifies this`offset
      ensures Valid() && offset == old(offset) + n
    {
      offset := offset + n;
    }

    /** recv writing into the storage behind the offset. */
    method Store(bytes: seq<Byte>)
      requires Valid() && offset + |bytes| <= storage.Length
      modifies storage
      ensures storage[..] == old(storage[..offset]) + bytes + old(storage[offset + |bytes|..])
    {
      var i := 0;
      while i < |bytes|
        invariant 0 <= i <= |bytes|
        invariant storage[..] == old(storage[..offset]) + bytes[..i] + old(storage[offset + i..])
      {
        storage[offset + i] := bytes[i];
        i := i + 1;
        assert bytes[..i] == bytes[..i - 1] + [bytes[i - 1]];
      }
      assert bytes[..i] == bytes;
    }
  }

  /** try_read on the buffer object: what recv returned is stored, the offset moved. */
  method DoTryRead(buf: DynamicBuffer, wire: seq<Byte>, r: Syscall) returns (code: Code, n: nat)
    requires buf.Valid() && RecvAllowed(buf.View(), wire, r)
    modifies buf`offset, buf.storage
    ensures buf.Valid() && (code, n, buf.View()) == TryRead(old(buf.View()), wire, r)
  {
    match r
    case Moved(count) =>
      buf.Store(wire[..count]);
      buf.Advance(count);
      return Ok, count;
    case Zero => return Ok, 0;
    case WouldBlock => return Ok, 0;
    case Fault(errno) => return Errno(errno), 0;
  }

  method DoTryWrite(buf: DynamicBuffer, r: Syscall) returns (code: Code, n: nat, stat: SendStatus)
    requires buf.Valid() && SendAllowed(buf.View(), r)
    modifies buf`offset
    ensures buf.Valid() && (code, n, stat, buf.View()) == TryWrite(old(buf.View()), r)
  {
    match r
    case Moved(count) =>
      buf.Advance(count);
      var done := buf.IsDone();
      return Ok, count, if done then Completed else InProgress;
    case Zero => return Ok, 0, Shutdown;
    case WouldBlock => return Ok, 0, InProgress;
    case Fault(errno) => return Errno(errno), 0, Erroneous;
  }

  // ------------------------------------------------------------------ the coroutines

  /** async_read_impl and async_read_timeout_impl: None while the script leaves it suspended. */
  method AsyncReadImpl(buf: DynamicBuffer, ghost op: Op, wire: seq<Byte>, script: seq<Await>)
    returns (result: Option<(Code, nat)>, rest: seq<Byte>)
    requires buf.Valid() && op.buf == buf.View() && op.status.Waiting?
    requires op.job.Io? && op.job.dir == Inbound && ScriptAllowed(op, wire, script)
    modifies buf`offset, buf.storage
    ensures buf.Valid()
    ensures var (op', wire') := Rounds(op, wire, script);
      && buf.View() == op'.buf && rest == wire'
      && result == match op'.status case Waiting => None case Done(code, count) => Some((code, count))
  {
    ghost var now := op;
    rest := wire;
    var i := 0;
    while i < |script|
      invariant 0 <= i <= |script| && buf.Valid()
      invariant now.buf == buf.View() && now.status.Waiting? && now.job == op.job
      invariant ScriptAllowed(now, rest, script[i..])
      invariant Rounds(now, rest, script[i..]) == Rounds(op, wire, script)
    {
      var await_ := script[i];
      ghost var next := OneRound(now, rest, await_);
      assert script[i..][1..] == script[i + 1..];
      i := i + 1;
      if await_.Reports? {
        now := next;
        return Some((await_.code, buf.offset)), rest;
      }
      ghost var after := WireAfter(now, rest, await_);
      var code, n := DoTryRead(buf, rest, await_.r);
      rest := rest[n..];
      assert rest == after;
      now := next;
      if code != Ok || n == 0 {
        return Some((code, buf.offset)), rest;
      }
      var done := buf.IsDone();
      if done {
        return Some((code, buf.offset)), rest;
      }
    }
    return None, rest;
  }

  /** async_write_impl and async_write_timeout_impl. */
  method AsyncWriteImpl(buf: DynamicBuffer, ghost op: Op, script: seq<Await>) returns (result: Option<(Code, nat)>)
    requires buf.Valid() && op.buf == buf.View() && op.status.Waiting? && op.total == 0
    requires op.job.Io? && op.job.dir == Outbound && ScriptAllowed(op, [], script)
    modifies buf`offset
    ensures buf.Valid()
    ensures var op' := Rounds(op, [], script).0;
      && buf.View() == op'.buf
      && result == match op'.status case Waiting => None case Done(code, count) => Some((code, count))
  {
    ghost var now := op;
    var totalLen := 0;
    var i := 0;
    while i < |script|
      invariant 0 <= i <= |script| && buf.Valid()
      invariant now.buf == buf.View() && now.status.Waiting? && now.job == op.job && now.total == totalLen
      invariant ScriptAllowed(now, [], script[i..])
      invariant Rounds(now, [], script[i..]) == Rounds(op, [], script)
    {
      var await_ := script[i];
      ghost var next := OneRound(now, [], await_);
      assert script[i..][1..] == script[i + 1..];
      i := i + 1;
      if await_.Reports? {
        now := next;
        return Some((await_.code, totalLen));
      }
      var code, n, stat := DoTryWrite(buf, await_.r);
      totalLen := totalLen + n;
      now := next;
      if stat != InProgress {
        return Some((code, totalLen));
      }
    }
    return None;
  }
}
