/** crates/rc-agent/src/session.rs, input half, as the statements of its methods. Other threads act wherever the code
    gives up its lock, so the methods call `Others` there, and every access is logged in `trace`: whatever these
    methods do is a run of the state machine, and everything proved about its runs holds of them. */
module InputSession {
  import opened Bytes
  import opened Protocol
  import L = Lease
  import G = Ledger
  import opened InputPath
  import R = InputTheorems

  /** The step that closes a bracket, or finds none to close. */
  lemma ShutWorks(s: State, b: Block, urgent: Option<Job>, depth: nat, success: bool)
    requires s.writer == Busy(Shut, b, urgent, depth)
    ensures Step(s, WriterWorks(true, success, true))
         == s.(pty := if b.begun && success then s.pty + [Close(b.job.At())] else s.pty,
               writer := Busy(Confirm, Advance(s, Shut, b, true, success).block, urgent, depth))
  {
    assert s.pty + [] == s.pty;
  }

  class Session {
    const lease: L.Lease
    const ledger: G.InputLedger
    var now: nat
    var running: bool
    var normal: seq<Job>
    var interrupt: seq<Job>
    var stopped: bool
    var pty: seq<Entry>
    ghost var writer: Writer
    ghost var parts: seq<Part>
    ghost var admitted: seq<Job>
    ghost var refused: seq<Job>
    ghost var cancelled: seq<Job>
    ghost var unknown: seq<Job>
    ghost var trace: seq<Action>

    ghost function Value(): State
      reads this, lease, ledger
    {
      State(lease.Value(), ledger.Value(), now, running, normal, interrupt, writer, pty,
            parts, admitted, refused, cancelled, unknown)
    }

    ghost predicate Valid()
      reads this, lease, ledger
    {
      Value() == Run(trace) && (stopped <==> writer.Stopped?)
    }

    constructor ()
      ensures Valid() && fresh(lease) && fresh(ledger) && writer == Idle && trace == []
    {
      lease := new L.Lease();
      ledger := new G.InputLedger();
      now, running, normal, interrupt, stopped, pty := 0, true, [], [], false, [];
      writer, parts, admitted, refused, cancelled, unknown, trace := Idle, [], [], [], [], [], [];
    }

    // ---- Requests ----

    /** `try_send`, and what happens when it fails. */
    method TrySend(job: Job, priority: bool) returns (r: Result<()>)
      requires stopped <==> writer.Stopped?
      modifies this`normal, this`interrupt, this`admitted, this`refused, ledger
      ensures (Value(), r) == Dispatch(old(Value()), job, priority)
    {
      admitted := admitted + [job];
      if stopped || (if priority then |interrupt| >= URGENT_QUEUE else |normal| >= QUEUE) {
        ledger.Finish(job.id, G.Rejected);
        refused := refused + [job];
        return Err(RateLimited);
      }
      if priority {
        interrupt := interrupt + [job];
      } else {
        normal := normal + [job];
      }
      r := Ok(());
    }

    /** What `enqueue` and `enqueue_paste` do under the input lock. */
    method Locked(job: Job, priority: bool) returns (r: Result<()>)
      requires stopped <==> writer.Stopped?
      modifies this`normal, this`interrupt, this`admitted, this`refused, ledger
      ensures (Value(), r) == Admit(old(Value()), job, if job.bulk then MAX_PASTE else MAX_INPUT, priority)
    {
      var verified := lease.Verify(job.client, job.connection, job.epoch, now);
      if verified.Err? {
        return Err(verified.error);
      }
      var accepted: Result<()>;
      if job.bulk {
        accepted := ledger.AcceptPaste(job.connection, job.epoch, job.id, job.sequence, |job.data|);
      } else {
        accepted := ledger.Accept(job.connection, job.epoch, job.id, job.sequence, |job.data|);
      }
      if accepted.Err? {
        return Err(accepted.error);
      }
      r := TrySend(job, priority);
    }

    method Enqueue(client: Id, connection: Id, epoch: nat, id: Id, sequence: nat, data: seq<Byte>, allowed: bool)
      returns (r: Result<()>)
      requires Valid()
      modifies this, ledger
      ensures Valid() && trace == old(trace) + [Input(client, connection, epoch, id, sequence, data, allowed)]
      ensures writer == old(writer) && parts == old(parts)
      ensures (Value(), r) == InputPath.Enqueue(old(Value()), client, connection, epoch, id, sequence, data, allowed)
    {
      R.RunOne(trace, Input(client, connection, epoch, id, sequence, data, allowed));
      trace := trace + [Input(client, connection, epoch, id, sequence, data, allowed)];
      if !allowed {
        return Err(Forbidden);
      }
      r := Locked(Job(client, connection, epoch, sequence, id, data, false, false, false), data == INTERRUPT);
    }

    method AllPasteBytes(text: seq<Byte>) returns (ok: bool)
      ensures ok <==> !exists i :: 0 <= i < |text| && !PasteByte(text[i])
    {
      for i := 0 to |text|
        invariant forall j :: 0 <= j < i ==> PasteByte(text[j])
      {
        if !PasteByte(text[i]) {
          return false;
        }
      }
      ok := true;
    }

    method EnqueuePaste(client: Id, connection: Id, epoch: nat, id: Id, sequence: nat, text: seq<Byte>,
                        bracketed: bool, appendEnter: bool, allowed: bool) returns (r: Result<()>)
      requires Valid()
      modifies this, ledger
      ensures Valid()
      ensures trace == old(trace) + [Paste(client, connection, epoch, id, sequence, text, bracketed, appendEnter, allowed)]
      ensures writer == old(writer) && parts == old(parts)
      ensures (Value(), r) == InputPath.EnqueuePaste(old(Value()), client, connection, epoch, id, sequence, text,
                                                     bracketed, appendEnter, allowed)
    {
      ghost var a := Paste(client, connection, epoch, id, sequence, text, bracketed, appendEnter, allowed);
      R.RunOne(trace, a);
      trace := trace + [a];
      if !allowed {
        return Err(Forbidden);
      }
      if text == [] || |text| > MAX_PASTE {
        return Err(InvalidRequest);
      }
      var clean := AllPasteBytes(text);
      if !clean {
        return Err(InvalidRequest);
      }
      r := Locked(Job(client, connection, epoch, sequence, id, Newlines(text), true, bracketed, appendEnter), false);
    }

    /** A lease request, a revocation, or the passing of time. */
    method LeaseRequest(op: L.Op, allowed: bool)
      requires Valid()
      modifies this`trace, lease
      ensures Valid() && trace == old(trace) + [LeaseOp(op, allowed)] && writer == old(writer)
    {
      R.RunOne(trace, LeaseOp(op, allowed));
      trace := trace + [LeaseOp(op, allowed)];
      if !allowed || (op.DoAcquire? && !running) {
        return;
      }
      match op {
        case DoAcquire(c, k, t) => var _ := lease.Acquire(c, k, t, now);
        case DoRenew(c, k, e) => var _ := lease.Renew(c, k, e, now);
        case DoRelease(c, k, e) => var _ := lease.Release(c, k, e, now);
        case DoRevokeConnection(id) => lease.RevokeConnection(id);
        case DoRevokeClient(id) => lease.RevokeClient(id);
        case DoRevokeAll => lease.RevokeAll();
      }
    }

    method Pass(until: nat, end: bool)
      requires Valid()
      modifies this`trace, this`now, this`running
      ensures Valid() && old(trace) <= trace && writer == old(writer) && parts == old(parts)
    {
      R.RunOne(trace, Tick(until));
      trace := trace + [Tick(until)];
      if until > now {
        now := until;
      }
      if end {
        R.RunOne(trace, SessionEnds);
        trace := trace + [SessionEnds];
        running := false;
      }
    }

    /** Whatever the other threads do before the writer goes on. */
    method Others()
      requires Valid()
      modifies this, lease, ledger
      ensures Valid() && old(trace) <= trace && writer == old(writer) && parts == old(parts)
    {
      var n: int := *;
      while n > 0
        invariant Valid() && old(trace) <= trace && writer == old(writer) && parts == old(parts)
      {
        n := n - 1;
        var a: Action := *;
        match a {
          case Tick(until) => Pass(until, false);
          case SessionEnds => Pass(now, true);
          case LeaseOp(op, allowed) => LeaseRequest(op, allowed);
          case Input(c, k, e, id, m, data, allowed) => var _ := Enqueue(c, k, e, id, m, data, allowed);
          case Paste(c, k, e, id, m, text, b, enter, allowed) => var _ := EnqueuePaste(c, k, e, id, m, text, b, enter, allowed);
          case _ =>
        }
      }
    }

    // ---- write_job ----

    method PermittedNow(job: Job, allowed: bool) returns (r: Result<()>)
      ensures r == Permitted(Value(), job, allowed)
    {
      if !allowed {
        return Err(Forbidden);
      }
      if !running {
        return Err(SessionLost);
      }
      r := lease.Verify(job.client, job.connection, job.epoch, now);
    }

    /** Logs the writer's step that led from `s` to here. */
    ghost method Logged(s: State, a: Action)
      requires s == Run(trace) && Value().(writer := Step(s, a).writer, parts := Step(s, a).parts, cancelled := Step(s, a).cancelled,
                                           unknown := Step(s, a).unknown) == Step(s, a)
      modifies this`trace, this`writer, this`parts, this`cancelled, this`unknown
      ensures Value() == Step(s, a) == Run(trace) && trace == old(trace) + [a]
    {
      R.RunOne(trace, a);
      trace, writer, parts, cancelled, unknown :=
        trace + [a], Step(s, a).writer, Step(s, a).parts, Step(s, a).cancelled, Step(s, a).unknown;
    }

    /** The first check, and the opening bracket. */
    method Begin(job: Job, ghost depth: nat) returns (result: Result<()>, prefixWritten: bool)
      requires Valid() && writer == Busy(Start, Fresh(job), None, depth)
      modifies this
      ensures Valid() && old(trace) <= trace && parts == old(parts)
      ensures result.Ok? ==> writer == Busy(Poll, Fresh(job).(begun := prefixWritten), None, depth)
      ensures result.Err? ==> writer == Busy(Shut, Fresh(job).(begun := prefixWritten, result := result), None, depth)
    {
      ghost var s := Value();
      var allowed: bool, success: bool := *, *;
      result := PermittedNow(job, allowed);
      prefixWritten := false;
      if result.Ok? && job.bracketed {
        if success {
          pty := pty + [Open(job.At())];
          prefixWritten := true;
        } else {
          result := Err(InputDeliveryUnknown);
        }
      }
      Logged(s, WriterWorks(allowed, success, true));
    }

    /** Before a chunk of a paste: is there a Ctrl+C? */
    method TakeUrgent(b: Block, ghost depth: nat) returns (urgent: Option<Job>)
      requires Valid() && writer == Busy(Poll, b, None, depth) && b.chunks < ChunkCount(b.job.data)
      modifies this
      ensures Valid() && old(trace) <= trace && parts == old(parts)
      ensures writer == if urgent.Some? then Busy(Shut, b.(result := Err(InputCanceled)), urgent, depth)
                        else Busy(Write, b, None, depth)
    {
      ghost var s := Value();
      urgent := None;
      if b.job.bulk && interrupt != [] {
        urgent := Some(interrupt[0]);
        interrupt := interrupt[1..];
      }
      Logged(s, WriterWorks(true, true, true));
    }

    method WriteChunk(b: Block, ghost depth: nat) returns (result: Result<()>)
      requires Valid() && writer == Busy(Write, b, None, depth) && b.chunks < ChunkCount(b.job.data) && b.result.Ok?
      modifies this
      ensures Valid() && old(trace) <= trace && parts == old(parts)
      ensures writer == if result.Ok? then Busy(Poll, b.(chunks := b.chunks + 1), None, depth)
                        else Busy(Shut, b.(result := result), None, depth)
    {
      ghost var s := Value();
      var allowed: bool, success: bool := *, *;
      result := PermittedNow(b.job, allowed);
      if result.Ok? {
        if success {
          pty := pty + [Data(b.job.At(), b.chunks, Chunk(b.job.data, b.chunks))];
        } else {
          result := Err(InputDeliveryUnknown);
        }
      }
      Logged(s, WriterWorks(allowed, success, true));
    }

    /** No chunk is left. */
    method EndOfChunks(b: Block, ghost depth: nat)
      requires Valid() && writer == Busy(Poll, b, None, depth) && b.chunks >= ChunkCount(b.job.data)
      modifies this`trace, this`writer, this`parts, this`cancelled, this`unknown
      ensures Valid() && old(trace) <= trace && parts == old(parts) && writer == Busy(Shut, b, None, depth)
    {
      Logged(Value(), WriterWorks(true, true, true));
    }

    /** The closing bracket, whenever the opening one was written. */
    method CloseBracket(b: Block, ghost urgent: Option<Job>, ghost depth: nat) returns (c: Block)
      requires Valid() && writer == Busy(Shut, b, urgent, depth)
      modifies this
      ensures Valid() && old(trace) <= trace && parts == old(parts) && c.job == b.job && writer == Busy(Confirm, c, urgent, depth)
    {
      ghost var s := Value();
      var success: bool := *;
      c := b;
      if b.begun {
        if success {
          pty := pty + [Close(b.job.At())];
          c := b.(closed := true);
        } else {
          c := b.(closeFailed := true, result := if b.result.Ok? then Err(InputDeliveryUnknown) else b.result);
        }
      }
      ShutWorks(s, b, urgent, depth, success);
      Logged(s, WriterWorks(true, success, true));
    }

    method PressEnter(b: Block, ghost urgent: Option<Job>, ghost depth: nat) returns (c: Block)
      requires Valid() && writer == Busy(Confirm, b, urgent, depth)
      modifies this
      ensures Valid() && old(trace) <= trace && parts == old(parts) && c.job == b.job && writer == Busy(Finish, c, urgent, depth)
    {
      if !b.result.Ok? || !b.job.appendEnter {
        c := b;
        Logged(Value(), WriterWorks(true, true, true));
      } else {
        var result := WriteEnter(b, urgent, depth);
        c := if result.Ok? then b.(entered := true) else b.(result := result);
      }
    }

    method WriteEnter(b: Block, ghost urgent: Option<Job>, ghost depth: nat) returns (result: Result<()>)
      requires Valid() && writer == Busy(Confirm, b, urgent, depth) && b.result.Ok? && b.job.appendEnter
      modifies this
      ensures Valid() && old(trace) <= trace && parts == old(parts)
      ensures result.Ok? ==> writer == Busy(Finish, b.(entered := true), urgent, depth)
      ensures result.Err? ==> writer == Busy(Finish, b.(result := result), urgent, depth)
    {
      ghost var s := Value();
      var allowed: bool, success: bool := *, *;
      result := PermittedNow(b.job, allowed);
      if result.Ok? {
        if success {
          pty := pty + [Enter(b.job.At())];
        } else {
          result := Err(InputDeliveryUnknown);
        }
      }
      Logged(s, WriterWorks(allowed, success, true));
    }

    method Settle(b: Block, urgent: Option<Job>, ghost depth: nat)
      requires Valid() && writer == Busy(Finish, b, urgent, depth)
      modifies this, ledger
      ensures Valid() && old(trace) <= trace && parts == old(parts) + [JobPart(b)]
      ensures writer == if urgent.Some? then Draining(urgent.value, depth + 1) else Idle
    {
      ghost var s := Value();
      ledger.Finish(b.job.id, if b.result.Ok? then G.Written else G.DeliveryUnknown);
      Logged(s, WriterWorks(true, true, true));
    }

    /** Cancels everything queued before a Ctrl+C is written. */
    method DrainNormal(next: Job, ghost depth: nat)
      requires Valid() && writer == Draining(next, depth)
      modifies this, lease, ledger
      ensures Valid() && old(trace) <= trace && parts == old(parts) && writer == Busy(Start, Fresh(next), None, depth)
    {
      var limit: nat := *;
      var more := true;
      while more
        invariant Valid() && old(trace) <= trace && parts == old(parts)
        invariant writer == if more then Draining(next, depth) else Busy(Start, Fresh(next), None, depth)
        decreases limit, more, |normal|
      {
        if limit > 0 {
          Others();
          limit := limit - 1;
        } else {
          more := CancelOne(next, depth);
        }
      }
    }

    /** Cancels the oldest queued input, if there is one. */
    method CancelOne(next: Job, ghost depth: nat) returns (more: bool)
      requires Valid() && writer == Draining(next, depth)
      modifies this, ledger
      ensures Valid() && old(trace) <= trace && parts == old(parts)
      ensures more == (old(normal) != []) && |normal| == if more then |old(normal)| - 1 else |old(normal)|
      ensures writer == if more then Draining(next, depth) else Busy(Start, Fresh(next), None, depth)
    {
      ghost var s := Value();
      more := normal != [];
      if more {
        ledger.Finish(normal[0].id, G.Rejected);
        normal := normal[1..];
      }
      Logged(s, WriterWorks(true, true, true));
    }

    /** The chunks of one job. */
    method WriteChunks(job: Job, begun: bool, ghost depth: nat) returns (b: Block, urgent: Option<Job>)
      requires Valid() && writer == Busy(Poll, Fresh(job).(begun := begun), None, depth)
      modifies this, lease, ledger
      ensures Valid() && old(trace) <= trace && parts == old(parts)
      ensures b.job == job && writer == Busy(Shut, b, urgent, depth)
    {
      b, urgent := Fresh(job).(begun := begun), None;
      while b.chunks < ChunkCount(job.data)
        invariant Valid() && old(trace) <= trace && parts == old(parts)
        invariant b == Fresh(job).(begun := begun, chunks := b.chunks) && writer == Busy(Poll, b, None, depth)
        invariant urgent.None?
        decreases ChunkCount(job.data) - b.chunks
      {
        Others();
        urgent := TakeUrgent(b, depth);
        if urgent.Some? {
          b := b.(result := Err(InputCanceled));
          return;
        }
        Others();
        var result := WriteChunk(b, depth);
        if result.Err? {
          b := b.(result := result);
          return;
        }
        b := b.(chunks := b.chunks + 1);
      }
      Others();
      EndOfChunks(b, depth);
    }

    /** The next outcome recorded is the job's. */
    ghost predicate Recorded(job: Job, before: seq<Part>)
      reads this`parts
    {
      before < parts && parts[|before|].JobPart? && parts[|before|].block.job == job
    }

    /** Everything of `write_job` up to its reply. */
    method WriteOnce(job: Job, ghost depth: nat) returns (urgent: Option<Job>)
      requires Valid() && writer == Busy(Start, Fresh(job), None, depth)
      modifies this, lease, ledger
      ensures Valid() && old(trace) <= trace && Recorded(job, old(parts))
      ensures writer == if urgent.Some? then Draining(urgent.value, depth + 1) else Idle
    {
      Others();
      var b: Block;
      var result, begun := Begin(job, depth);
      if result.Err? {
        b, urgent := Fresh(job).(begun := begun, result := result), None;
      } else {
        b, urgent := WriteChunks(job, begun, depth);
      }
      Others();
      b := CloseBracket(b, urgent, depth);
      Others();
      b := PressEnter(b, urgent, depth);
      Others();
      Settle(b, urgent, depth);
    }

    method WriteJob(job: Job, ghost depth: nat)
      requires Valid() && writer == Busy(Start, Fresh(job), None, depth)
      modifies this, lease, ledger
      ensures Valid() && old(trace) <= trace && writer == Idle && Recorded(job, old(parts))
      decreases 2 - depth
    {
      DepthAtMostOne(trace);
      Others();
      var alive: bool := *;
      if !alive {
        Logged(Value(), WriterWorks(true, true, false));
        return;
      }
      var urgent := WriteOnce(job, depth);
      if urgent.Some? {
        DepthAtMostOne(trace);
        Others();
        DrainNormal(urgent.value, depth + 1);
        WriteJob(urgent.value, depth + 1);
      }
    }

    /** One turn of `writer_loop`; it ends the loop when told to stop. */
    method Turn() returns (goOn: bool)
      requires Valid() && writer == Idle
      modifies this, lease, ledger
      ensures Valid() && old(trace) <= trace && writer == if goOn then Idle else Stopping
    {
      Others();
      var stop: bool, answer: bool, bytes: seq<Byte> := *, *, *;
      goOn := !stop;
      if stop {
        Logged(Value(), WriterSelects(true, None, true));
      } else if interrupt != [] {
        var job := TakeInterrupt();
        DrainNormal(job, 0);
        WriteJob(job, 0);
      } else if answer {
        Answer(bytes);
      } else if normal != [] {
        var job := TakeNormal();
        WriteJob(job, 0);
      }
    }

    method TakeInterrupt() returns (job: Job)
      requires Valid() && writer == Idle && interrupt != []
      modifies this
      ensures Valid() && old(trace) <= trace && job == old(interrupt[0]) && writer == Draining(job, 0) && parts == old(parts)
    {
      ghost var s := Value();
      job, interrupt := interrupt[0], interrupt[1..];
      Logged(s, WriterSelects(false, None, true));
    }

    method TakeNormal() returns (job: Job)
      requires Valid() && writer == Idle && interrupt == [] && normal != []
      modifies this
      ensures Valid() && old(trace) <= trace && job == old(normal[0]) && writer == Busy(Start, Fresh(job), None, 0)
    {
      ghost var s := Value();
      job, normal := normal[0], normal[1..];
      Logged(s, WriterSelects(false, None, true));
    }

    /** Writes an answer to a terminal query. */
    method Answer(bytes: seq<Byte>)
      requires Valid() && writer == Idle && interrupt == []
      modifies this
      ensures Valid() && old(trace) <= trace && writer == Idle
    {
      ghost var s := Value();
      var success: bool := *;
      if success {
        pty := pty + [Query(bytes)];
      }
      Logged(s, WriterSelects(false, Some(bytes), success));
    }

    /** `writer_loop`, cut off after `turns` turns if nothing stops it before. */
    method WriterLoop(turns: nat)
      requires Valid() && writer == Idle
      modifies this, lease, ledger
      ensures Valid() && old(trace) <= trace
      ensures forall i, j :: 0 <= i < j < |pty| && pty[i].Data? && pty[j].Data? ==> R.Before(pty[i], pty[j])
    {
      for i := 0 to turns
        invariant Valid() && old(trace) <= trace && writer == Idle
      {
        var goOn := Turn();
        if !goOn {
          break;
        }
      }
      R.WriteOrder(trace);
    }
  }

  /** A Ctrl+C is never cut short, so `write_job` calls itself at most once. */
  lemma DepthAtMostOne(acts: seq<Action>)
    ensures var w := Run(acts).writer; w.Draining? || w.Busy? ==> w.depth <= 1
  {
    R.JobShape(acts);
  }
}
