/** What the writer gets done when nothing disturbs it: crates/rc-agent/src/session.rs, `write_job`. */
module InputProgress {
  import opened Bytes
  import opened Protocol
  import L = Lease
  import G = Ledger
  import opened InputPath
  import opened InputTheory
  import opened InputShape
  import opened InputTheorems

  /** `n` steps of the writer alone, in which every write succeeds. */
  function Alone(s: State, n: nat): State
    decreases n, s
  {
    if n == 0 then s else Alone(Work(s, true, true, true), n - 1)
  }

  lemma {:induction false} AloneThen(s: State, m: nat, n: nat)
    ensures Alone(s, m + n) == Alone(Alone(s, m), n)
    decreases m
  {
    if m > 0 {
      AloneThen(Work(s, true, true, true), m - 1, n);
    }
  }

  lemma AloneNext(s: State, n: nat)
    ensures Alone(s, n + 1) == Work(Alone(s, n), true, true, true)
  {
    AloneThen(s, n, 1);
    assert Alone(Alone(s, n), 1) == Alone(Work(Alone(s, n), true, true, true), 0);
  }

  /** The job's full form, reported as written. */
  function Whole(job: Job): Block {
    Block(job, job.bracketed, ChunkCount(job.data), job.bracketed, false, job.appendEnter, Ok(()))
  }

  /** Nothing keeps the job from being written. */
  predicate Undisturbed(s: State, job: Job) {
    s.running && L.Verified(s.lease, job.client, job.connection, job.epoch, s.now).Ok? && (job.bulk ==> s.interrupt == [])
  }

  /** Before a chunk: `n` of them are written. */
  function Before(job: Job, n: nat): Block { Fresh(job).(begun := job.bracketed, chunks := n) }

  lemma BeginStep(s: State, job: Job, depth: nat)
    requires Undisturbed(s, job) && s.writer == Busy(Start, Fresh(job), None, depth)
    ensures Work(s, true, true, true)
         == s.(pty := s.pty + Render(Before(job, 0)), writer := Busy(Poll, Before(job, 0), None, depth))
  {
    assert Render(Before(job, 0)) == if job.bracketed then [Open(job.At())] else [];
  }

  lemma ChunkSteps(s: State, job: Job, n: nat, depth: nat)
    requires Undisturbed(s, job) && s.writer == Busy(Poll, Before(job, n), None, depth) && n < ChunkCount(job.data)
    ensures Alone(s, 2) == s.(pty := s.pty + [Data(job.At(), n, Chunk(job.data, n))],
                              writer := Busy(Poll, Before(job, n + 1), None, depth))
  {
    var t := Work(s, true, true, true);
    assert s.pty + [] == s.pty;
    assert t == s.(writer := Busy(Write, Before(job, n), None, depth));
    assert Alone(s, 2) == Alone(t, 1) == Work(t, true, true, true);
  }

  lemma {:induction false} ChunksWritten(s: State, job: Job, n: nat, depth: nat, pty: seq<Entry>)
    requires Undisturbed(s, job) && s.writer == Busy(Poll, Before(job, n), None, depth) && n <= ChunkCount(job.data)
    requires s.pty == pty + Render(Before(job, n))
    ensures var m := ChunkCount(job.data);
            Alone(s, 2 * (m - n)) == s.(pty := pty + Render(Before(job, m)), writer := Busy(Poll, Before(job, m), None, depth))
    decreases ChunkCount(job.data) - n
  {
    var m := ChunkCount(job.data);
    if n < m {
      var t := Alone(s, 2);
      ChunkSteps(s, job, n, depth);
      RenderMore(Before(job, n));
      Associates(pty, Render(Before(job, n)), [Data(job.At(), n, Chunk(job.data, n))]);
      ChunksWritten(t, job, n + 1, depth, pty);
      AloneThen(s, 2, 2 * (m - n - 1));
    }
  }

  lemma WholeRender(job: Job)
    ensures Full(Whole(job))
    ensures Render(Whole(job)) == Render(Before(job, ChunkCount(job.data)))
            + (if job.bracketed then [Close(job.At())] else []) + (if job.appendEnter then [Enter(job.At())] else [])
  {
  }

  /** After the last chunk: the bracket, the return, the outcome. */
  lemma EndSteps(s: State, job: Job, depth: nat, pty: seq<Entry>)
    requires Undisturbed(s, job) && s.writer == Busy(Poll, Before(job, ChunkCount(job.data)), None, depth)
    requires s.pty == pty + Render(Before(job, ChunkCount(job.data)))
    ensures Alone(s, 4) == s.(pty := pty + Render(Whole(job)), parts := s.parts + [JobPart(Whole(job))],
                              ledger := G.Finished(s.ledger, job.id, G.Written), writer := Idle)
  {
    var b := Before(job, ChunkCount(job.data));
    var c := b.(closed := job.bracketed);
    var close := if job.bracketed then [Close(job.At())] else [];
    var enter := if job.appendEnter then [Enter(job.At())] else [];
    var t1, t2, t3 := Alone(s, 1), Alone(s, 2), Alone(s, 3);
    AloneNext(s, 0);
    AloneNext(s, 1);
    AloneNext(s, 2);
    AloneNext(s, 3);
    AllChunks(s, b, depth);
    CloseStep(t1, b, None, depth);
    PressReturn(t2, c, depth);
    Written(t3, job, depth);
    WholeRender(job);
    assert s.pty + close + enter == pty + Render(Whole(job));
  }

  lemma AllChunks(s: State, b: Block, depth: nat)
    requires s.writer == Busy(Poll, b, None, depth) && b.chunks == ChunkCount(b.job.data)
    ensures Work(s, true, true, true) == s.(writer := Busy(Shut, b, None, depth))
  {
    assert s.pty + [] == s.pty;
  }

  lemma PressReturn(s: State, b: Block, depth: nat)
    requires Undisturbed(s, b.job) && s.writer == Busy(Confirm, b, None, depth) && b.result.Ok? && !b.entered
    ensures Work(s, true, true, true) == s.(pty := s.pty + (if b.job.appendEnter then [Enter(b.job.At())] else []),
              writer := Busy(Finish, b.(entered := b.job.appendEnter), None, depth))
  {
  }

  lemma Written(s: State, job: Job, depth: nat)
    requires s.writer == Busy(Finish, Whole(job), None, depth)
    ensures Work(s, true, true, true) == s.(parts := s.parts + [JobPart(Whole(job))],
              ledger := G.Finished(s.ledger, job.id, G.Written), writer := Idle)
  {
  }

  lemma AfterBegin(s: State, job: Job, depth: nat, pty: seq<Entry>)
    requires Undisturbed(s, job) && s.writer == Busy(Poll, Before(job, 0), None, depth)
    requires s.pty == pty + Render(Before(job, 0))
    ensures Alone(s, 2 * ChunkCount(job.data) + 4)
         == s.(pty := pty + Render(Whole(job)), parts := s.parts + [JobPart(Whole(job))],
               ledger := G.Finished(s.ledger, job.id, G.Written), writer := Idle)
  {
    var m := ChunkCount(job.data);
    var b := Before(job, m);
    var t := s.(pty := pty + Render(b), writer := Busy(Poll, b, None, depth));
    ChunksWritten(s, job, 0, depth, pty);
    AtTheEnd(s, t, job, depth, pty);
    AloneThrough(s, 2 * m, t, 4, Alone(t, 4));
  }

  lemma AloneThrough(s: State, m: nat, t: State, n: nat, u: State)
    requires Alone(s, m) == t && Alone(t, n) == u
    ensures Alone(s, m + n) == u
  {
    AloneThen(s, m, n);
  }

  lemma AtTheEnd(s: State, t: State, job: Job, depth: nat, pty: seq<Entry>)
    requires Undisturbed(s, job)
    requires t == s.(pty := pty + Render(Before(job, ChunkCount(job.data))),
                     writer := Busy(Poll, Before(job, ChunkCount(job.data)), None, depth))
    ensures Alone(t, 4) == s.(pty := pty + Render(Whole(job)), parts := s.parts + [JobPart(Whole(job))],
                              ledger := G.Finished(s.ledger, job.id, G.Written), writer := Idle)
  {
    EndSteps(t, job, depth, pty);
  }

  /** A job that nothing disturbs is written in full, in two steps a chunk and five more, and recorded so. */
  lemma UndisturbedJob(s: State, job: Job, depth: nat)
    requires Undisturbed(s, job) && s.writer == Busy(Start, Fresh(job), None, depth)
    ensures Full(Whole(job))
    ensures Alone(s, 2 * ChunkCount(job.data) + 5)
         == s.(pty := s.pty + Render(Whole(job)), parts := s.parts + [JobPart(Whole(job))],
               ledger := G.Finished(s.ledger, job.id, G.Written), writer := Idle)
  {
    var m := ChunkCount(job.data);
    var t := Work(s, true, true, true);
    BeginStep(s, job, depth);
    AfterBegin(t, job, depth, s.pty);
    assert Alone(s, 2 * m + 5) == Alone(t, 2 * m + 4);
  }

  // ---- What is written when ----

  /** The entry the writer is about to write, if its step writes one that needs permission. */
  function Upcoming(point: Point, b: Block): Option<Entry> {
    match point
    case Start => if b.job.bracketed then Some(Open(b.job.At())) else None
    case Write => if b.chunks < ChunkCount(b.job.data) then Some(Data(b.job.At(), b.chunks, Chunk(b.job.data, b.chunks))) else None
    case Confirm => if b.result.Ok? && b.job.appendEnter then Some(Enter(b.job.At())) else None
    case _ => None
  }

  /** Why it may not be written, in the order of the checks. */
  function Denied(s: State, job: Job, allowed: bool): Result<()> {
    if !allowed then Err(Forbidden) else if !s.running then Err(SessionLost)
    else if s.lease.owner.None? then Err(LeaseRequired)
    else if !L.LiveEpoch(s.lease, job.epoch, s.now) || s.lease.owner.value.client != job.client
            || s.lease.owner.value.connection != job.connection
    then Err(LeaseStale) else Ok(())
  }

  lemma DeniedExactly(s: State, job: Job, allowed: bool)
    ensures Permitted(s, job, allowed) == Denied(s, job, allowed)
  {
    L.VerifiedExactly(s.lease, job.client, job.connection, job.epoch, s.now);
    assert Permitted(s, job, allowed).Ok? ==> Permitted(s, job, allowed).value == ();
  }

  /** What the move writes, and the outcome it leaves. */
  predicate Decided(m: Move, b: Block, denied: Result<()>, success: bool, e: Entry) {
    && m.block.job == b.job && m.urgent.None?
    && if denied.Err? then m.written == [] && m.block.result == denied
       else if success then m.written == [e] && m.block.result == b.result
       else m.written == [] && m.block.result == Err(InputDeliveryUnknown)
  }

  lemma GuardedDecides(r: Result<()>, b: Block, success: bool, onError: Point, onSuccess: Point, after: Block, e: Entry)
    requires after.job == b.job && after.result == b.result
    ensures Decided(Guarded(r, b, success, onError, onSuccess, after, e), b, r, success, e)
  {
    match r {
      case Err(_) =>
      case Ok(_) => if success {} else {}
    }
  }

  lemma AdvanceDecides(s: State, point: Point, b: Block, allowed: bool, success: bool)
    requires Upcoming(point, b).Some?
    ensures Decided(Advance(s, point, b, allowed, success), b, Permitted(s, b.job, allowed), success, Upcoming(point, b).value)
  {
    var ok, e := Permitted(s, b.job, allowed), Upcoming(point, b).value;
    match point {
      case Start => GuardedDecides(ok, b, success, Shut, Poll, b.(begun := true), e);
      case Write => GuardedDecides(ok, b, success, Shut, Poll, b.(chunks := b.chunks + 1), e);
      case Confirm => GuardedDecides(ok, b, success, Finish, Finish, b.(entered := true), e);
    }
  }

  /** A step that is to write an opening bracket, a chunk or a return writes it exactly if the sender is still allowed to,
      the session runs, the sender's connection still holds the live lease of the job's epoch, and the write succeeds;
      otherwise nothing is written and the outcome is the reason. */
  lemma WriteExactly(s: State, point: Point, b: Block, urgent: Option<Job>, depth: nat, allowed: bool, success: bool)
    requires s.writer == Busy(point, b, urgent, depth) && Upcoming(point, b).Some?
    ensures var t := Step(s, WriterWorks(allowed, success, true)); var denied := Denied(s, b.job, allowed);
            && t.pty == s.pty + (if denied.Ok? && success then [Upcoming(point, b).value] else [])
            && t.writer.Busy? && t.writer.block.job == b.job
            && t.writer.block.result == if denied.Err? then denied else if success then b.result else Err(InputDeliveryUnknown)
  {
    DeniedExactly(s, b.job, allowed);
    AdvanceDecides(s, point, b, allowed, success);
    var m := Advance(s, point, b, allowed, success);
    assert Step(s, WriterWorks(allowed, success, true)) == Proceed(s, m, urgent, depth);
  }

  // ---- A Ctrl+C ----

  /** A typed Ctrl+C, and nothing else. */
  predicate IsCtrlC(job: Job) { job.data == INTERRUPT && !job.bulk && !job.bracketed && !job.appendEnter }

  /** Every typed Ctrl+C that is queued is in its own queue, and nothing else is. */
  ghost predicate Separate(s: State) {
    (forall j :: j in s.interrupt ==> IsCtrlC(j)) && (forall j :: j in s.normal ==> !IsCtrlC(j))
  }

  /** The queues hold what they held, less something, or one more at its end. */
  predicate Shrunk(s: State, t: State) {
    (t.normal == s.normal || (s.normal != [] && t.normal == s.normal[1..]))
    && (t.interrupt == s.interrupt || (s.interrupt != [] && t.interrupt == s.interrupt[1..]))
  }

  lemma AdmitSeparate(s: State, job: Job, max: nat, priority: bool)
    requires Separate(s) && (priority <==> IsCtrlC(job))
    ensures Separate(Admit(s, job, max, priority).0)
  {
  }

  lemma ShrunkSeparate(s: State, t: State)
    requires Separate(s) && Shrunk(s, t)
    ensures Separate(t)
  {
  }

  lemma WriterShrinks(s: State, a: Action)
    requires !a.Input? && !a.Paste?
    ensures Shrunk(s, Step(s, a))
  {
  }

  lemma {:induction false} QueuesSeparate(acts: seq<Action>)
    ensures Separate(Run(acts))
  {
    if acts != [] {
      var s, a := Run(acts[..|acts| - 1]), acts[|acts| - 1];
      QueuesSeparate(acts[..|acts| - 1]);
      RequestIsAdmit(s, a);
      if a.Input? {
        AdmitSeparate(s, TypedJob(a), MAX_INPUT, a.data == INTERRUPT);
      } else if a.Paste? {
        AdmitSeparate(s, PastedJob(a), MAX_PASTE, false);
      } else {
        WriterShrinks(s, a);
        ShrunkSeparate(s, Run(acts));
      }
    }
  }

  /** The ledger once all these are rejected. */
  function AllRejected(l: G.State, jobs: seq<Job>): G.State
    decreases |jobs|
  {
    if jobs == [] then l else AllRejected(G.Finished(l, jobs[0].id, G.Rejected), jobs[1..])
  }

  lemma {:induction false} DrainSteps(s: State, next: Job, depth: nat)
    requires s.writer == Draining(next, depth)
    ensures Alone(s, |s.normal| + 1)
         == s.(normal := [], cancelled := s.cancelled + s.normal, ledger := AllRejected(s.ledger, s.normal),
               writer := Busy(Start, Fresh(next), None, depth))
    decreases |s.normal|
  {
    var t := Work(s, true, true, true);
    if s.normal == [] {
      assert s.cancelled + s.normal == s.cancelled;
      assert Alone(s, 1) == Alone(t, 0);
    } else {
      DrainSteps(t, next, depth);
      assert (s.cancelled + [s.normal[0]]) + s.normal[1..] == s.cancelled + s.normal;
    }
  }

  /** The paste, cut short after `n` chunks. */
  function CutBlock(job: Job, n: nat): Block {
    Before(job, n).(closed := job.bracketed, result := Err(InputCanceled))
  }

  lemma CutPoll(s: State, b: Block, depth: nat)
    requires s.writer == Busy(Poll, b, None, depth) && b.chunks < ChunkCount(b.job.data) && b.job.bulk && s.interrupt != []
    ensures Work(s, true, true, true) == s.(interrupt := s.interrupt[1..],
              writer := Busy(Shut, b.(result := Err(InputCanceled)), Some(s.interrupt[0]), depth))
  {
    assert s.pty + [] == s.pty;
  }

  lemma CloseStep(s: State, b: Block, urgent: Option<Job>, depth: nat)
    requires s.writer == Busy(Shut, b, urgent, depth) && !b.closed
    ensures Work(s, true, true, true) == s.(pty := s.pty + (if b.begun then [Close(b.job.At())] else []),
                                            writer := Busy(Confirm, b.(closed := b.begun), urgent, depth))
  {
  }

  lemma NoReturn(s: State, b: Block, urgent: Option<Job>, depth: nat)
    requires s.writer == Busy(Confirm, b, urgent, depth) && b.result.Err?
    ensures Work(s, true, true, true) == s.(writer := Busy(Finish, b, urgent, depth))
  {
    assert s.pty + [] == s.pty;
  }

  lemma CutSteps(s: State, job: Job, n: nat, depth: nat)
    requires s.writer == Busy(Poll, Before(job, n), None, depth) && n < ChunkCount(job.data) && job.bulk && s.interrupt != []
    ensures Alone(s, 4) == s.(pty := s.pty + (if job.bracketed then [Close(job.At())] else []),
                              interrupt := s.interrupt[1..], parts := s.parts + [JobPart(CutBlock(job, n))],
                              ledger := G.Finished(s.ledger, job.id, G.DeliveryUnknown),
                              writer := Draining(s.interrupt[0], depth + 1))
  {
    var b := Before(job, n);
    var c := b.(result := Err(InputCanceled));
    var urgent := Some(s.interrupt[0]);
    var t1, t2, t3 := Alone(s, 1), Alone(s, 2), Alone(s, 3);
    AloneNext(s, 0);
    AloneNext(s, 1);
    AloneNext(s, 2);
    AloneNext(s, 3);
    CutPoll(s, b, depth);
    CloseStep(t1, c, urgent, depth);
    NoReturn(t2, c.(closed := c.begun), urgent, depth);
    CutEnd(t3, job, n, s.interrupt[0], depth);
  }

  lemma CutEnd(s: State, job: Job, n: nat, next: Job, depth: nat)
    requires s.writer == Busy(Finish, CutBlock(job, n), Some(next), depth)
    ensures Work(s, true, true, true) == s.(parts := s.parts + [JobPart(CutBlock(job, n))],
              ledger := G.Finished(s.ledger, job.id, G.DeliveryUnknown), writer := Draining(next, depth + 1))
  {
  }

  lemma CtrlCBytes(job: Job)
    requires IsCtrlC(job)
    ensures ChunkCount(job.data) == 1 && Render(Whole(job)) == [Data(job.At(), 0, INTERRUPT)]
  {
    assert Chunk(job.data, 0) == job.data;
    assert DataEntries(job, 1) == DataEntries(job, 0) + [Data(job.At(), 0, Chunk(job.data, 0))];
  }

  /** A permitted Ctrl+C that finds a paste before a chunk, with nothing to disturb it: the paste's bracket is closed,
      0x03 comes right after it, and everything queued as ordinary input is cancelled. */
  lemma CtrlCServed(acts: seq<Action>)
    requires var s := Run(acts);
             s.writer.Busy? && s.writer.point == Poll && s.writer.block.job.bulk && s.interrupt != []
             && s.writer.block.chunks < ChunkCount(s.writer.block.job.data)
             && Permitted(s, s.interrupt[0], true).Ok?
    ensures var s := Run(acts); var job, n, next := s.writer.block.job, s.writer.block.chunks, s.interrupt[0];
            var t := Alone(s, |s.normal| + 12);
            && t.pty == s.pty + (if job.bracketed then [Close(job.At())] else []) + [Data(next.At(), 0, INTERRUPT)]
            && t.parts == s.parts + [JobPart(CutBlock(job, n)), JobPart(Whole(next))]
            && t.cancelled == s.cancelled + s.normal && t.normal == [] && t.interrupt == s.interrupt[1..] && t.writer == Idle
            && t.ledger == G.Finished(AllRejected(G.Finished(s.ledger, job.id, G.DeliveryUnknown), s.normal), next.id, G.Written)
  {
    var s := Run(acts);
    JobShape(acts);
    QueuesSeparate(acts);
    assert s.interrupt[0] in s.interrupt;
    PollIsBefore(s.writer.block, s.writer.urgent);
    ServedFrom(s, s.writer.block.job, s.writer.block.chunks, s.writer.depth, s.interrupt[0]);
  }

  lemma PollIsBefore(b: Block, urgent: Option<Job>)
    requires InProgress(Poll, b, urgent)
    ensures b == Before(b.job, b.chunks) && urgent.None?
  {
    assert b.result.value == ();
  }

  lemma ServedFrom(s: State, job: Job, n: nat, depth: nat, next: Job)
    requires s.writer == Busy(Poll, Before(job, n), None, depth) && n < ChunkCount(job.data) && job.bulk
    requires s.interrupt != [] && next == s.interrupt[0] && IsCtrlC(next) && Permitted(s, next, true).Ok?
    ensures var t := Alone(s, |s.normal| + 12);
            && t.pty == s.pty + (if job.bracketed then [Close(job.At())] else []) + [Data(next.At(), 0, INTERRUPT)]
            && t.parts == s.parts + [JobPart(CutBlock(job, n)), JobPart(Whole(next))]
            && t.cancelled == s.cancelled + s.normal && t.normal == [] && t.interrupt == s.interrupt[1..] && t.writer == Idle
            && t.ledger == G.Finished(AllRejected(G.Finished(s.ledger, job.id, G.DeliveryUnknown), s.normal), next.id, G.Written)
  {
    var t1 := Alone(s, 4);
    CutSteps(s, job, n, depth);
    var t2 := Alone(t1, |s.normal| + 1);
    DrainSteps(t1, next, depth + 1);
    CtrlCBytes(next);
    UndisturbedJob(t2, next, depth + 1);
    AloneThen(t1, |s.normal| + 1, 7);
    AloneThen(s, 4, |s.normal| + 8);
    assert s.parts + [JobPart(CutBlock(job, n))] + [JobPart(Whole(next))]
        == s.parts + [JobPart(CutBlock(job, n)), JobPart(Whole(next))];
  }

  // ---- Whatever comes next ----

  /** The writer, idle, with a query's answer at hand or not: a Ctrl+C comes first, then the answer, then other input. */
  lemma NextServed(acts: seq<Action>, query: Option<seq<Byte>>)
    requires Run(acts).writer == Idle
    ensures var s := Run(acts); var t := Step(s, WriterSelects(false, query, true));
            && (s.interrupt != [] && Permitted(s, s.interrupt[0], true).Ok? ==>
                  var u := Alone(t, |s.normal| + 8);
                  && u.pty == s.pty + [Data(s.interrupt[0].At(), 0, INTERRUPT)] && u.writer == Idle
                  && u.interrupt == s.interrupt[1..] && u.normal == [] && u.cancelled == s.cancelled + s.normal)
            && (s.interrupt == [] && query.Some? ==>
                  t == s.(pty := s.pty + [Query(query.value)], parts := s.parts + [QueryPart(query.value)]))
            && (s.interrupt == [] && query.None? && s.normal != [] && Permitted(s, s.normal[0], true).Ok? ==>
                  var job := s.normal[0]; var u := Alone(t, 2 * ChunkCount(job.data) + 5);
                  && u.pty == s.pty + Render(Whole(job)) && u.writer == Idle
                  && u.normal == s.normal[1..] && u.parts == s.parts + [JobPart(Whole(job))])
            && (s.interrupt == [] && query.None? && s.normal == [] ==> t == s)
  {
    var s := Run(acts);
    if s.interrupt != [] {
      QueuesSeparate(acts);
      assert s.interrupt[0] in s.interrupt;
      if Permitted(s, s.interrupt[0], true).Ok? {
        InterruptServed(s, s.interrupt[0], query);
      }
    } else if query.None? && s.normal != [] && Permitted(s, s.normal[0], true).Ok? {
      NormalServed(s, s.normal[0]);
    }
  }

  lemma InterruptServed(s: State, next: Job, query: Option<seq<Byte>>)
    requires s.writer == Idle && s.interrupt != [] && next == s.interrupt[0] && IsCtrlC(next) && Permitted(s, next, true).Ok?
    ensures var u := Alone(Select(s, false, query, true), |s.normal| + 8);
            && u.pty == s.pty + [Data(next.At(), 0, INTERRUPT)] && u.writer == Idle
            && u.interrupt == s.interrupt[1..] && u.normal == [] && u.cancelled == s.cancelled + s.normal
  {
    var t := s.(interrupt := s.interrupt[1..], writer := Draining(next, 0));
    assert Select(s, false, query, true) == t;
    var u := Alone(t, |s.normal| + 1);
    DrainSteps(t, next, 0);
    CtrlCBytes(next);
    UndisturbedJob(u, next, 0);
    AloneThen(t, |s.normal| + 1, 7);
  }

  lemma NormalServed(s: State, job: Job)
    requires s.writer == Idle && s.interrupt == [] && s.normal != [] && job == s.normal[0] && Permitted(s, job, true).Ok?
    ensures var u := Alone(Select(s, false, None, true), 2 * ChunkCount(job.data) + 5);
            && u.pty == s.pty + Render(Whole(job)) && u.writer == Idle
            && u.normal == s.normal[1..] && u.parts == s.parts + [JobPart(Whole(job))]
  {
    var t := s.(normal := s.normal[1..], writer := Busy(Start, Fresh(job), None, 0));
    assert Select(s, false, None, true) == t;
    UndisturbedJob(t, job, 0);
  }

  // ---- The end ----

  predicate Ending(w: Writer) { w.Stopping? || w.Stopped? }

  lemma EndingStep(s: State, a: Action)
    requires Ending(s.writer)
    ensures var t := Step(s, a); Ending(t.writer) && t.pty == s.pty && t.parts == s.parts
  {
    RequestIsAdmit(s, a);
    if a.Input? {
      AdmitQuiet(s, TypedJob(a), MAX_INPUT, a.data == INTERRUPT);
    } else if a.Paste? {
      AdmitQuiet(s, PastedJob(a), MAX_PASTE, false);
    }
  }

  /** A writer that was told to stop writes nothing any more, whatever happens. */
  lemma {:induction false} NothingAfterStop(acts: seq<Action>, more: seq<Action>)
    requires Ending(Run(acts).writer)
    ensures Ending(Run(acts + more).writer) && Run(acts + more).pty == Run(acts).pty && Run(acts + more).parts == Run(acts).parts
  {
    if more == [] {
      assert acts + more == acts;
    } else {
      var m, a := more[..|more| - 1], more[|more| - 1];
      NothingAfterStop(acts, m);
      assert acts + more == (acts + m) + [a];
      RunOne(acts + m, a);
      EndingStep(Run(acts + m), a);
    }
  }

  /** Undisturbed, it leaves over what is queued, first the ordinary input, and is done. */
  lemma {:induction false} LeavesOver(s: State)
    requires s.writer == Stopping
    ensures Alone(s, |s.normal| + |s.interrupt| + 1)
         == s.(normal := [], interrupt := [], unknown := s.unknown + s.normal + s.interrupt, writer := Stopped)
    decreases |s.normal| + |s.interrupt|
  {
    var t := Work(s, true, true, true);
    if s.normal != [] {
      LeavesOver(t);
      assert (s.unknown + [s.normal[0]]) + s.normal[1..] == s.unknown + s.normal;
    } else if s.interrupt != [] {
      LeavesOver(t);
      assert (s.unknown + [s.interrupt[0]]) + [] + s.interrupt[1..] == s.unknown + s.normal + s.interrupt;
    } else {
      assert s.unknown + s.normal + s.interrupt == s.unknown;
      assert Alone(s, 1) == Alone(t, 0);
    }
  }

  /** A session that has ended grants no lease any more. */
  lemma {:induction false} NoLeaseAfterEnd(acts: seq<Action>, more: seq<Action>)
    requires !Run(acts).running
    ensures !Run(acts + more).running && Run(acts + more).lease.epoch == Run(acts).lease.epoch
  {
    if more == [] {
      assert acts + more == acts;
    } else {
      var m, a := more[..|more| - 1], more[|more| - 1];
      NoLeaseAfterEnd(acts, m);
      assert acts + more == (acts + m) + [a];
      RunOne(acts + m, a);
      EndedStep(Run(acts + m), a);
    }
  }

  lemma EndedStep(s: State, a: Action)
    requires !s.running
    ensures !Step(s, a).running && Step(s, a).lease.epoch == s.lease.epoch
  {
    match a {
      case LeaseOp(op, _) => L.EpochOwner(s.lease, op, s.now);
      case _ => RequestIsAdmit(s, a);
    }
  }
}
