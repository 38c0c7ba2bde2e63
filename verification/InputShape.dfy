/** What one job leaves in the PTY stream. */
module InputShape {
  import opened Bytes
  import opened Protocol
  import L = Lease
  import opened InputPath
  import opened InputTheory

  function DataEntries(job: Job, n: nat): seq<Entry>
    requires n <= ChunkCount(job.data)
  {
    if n == 0 then [] else DataEntries(job, n - 1) + [Data(job.At(), n - 1, Chunk(job.data, n - 1))]
  }

  /** The entries of a block, in order and with nothing between them. */
  function Render(b: Block): seq<Entry>
    requires b.chunks <= ChunkCount(b.job.data)
  {
    (if b.begun then [Open(b.job.At())] else []) + DataEntries(b.job, b.chunks)
    + (if b.closed then [Close(b.job.At())] else []) + (if b.entered then [Enter(b.job.At())] else [])
  }

  /** The job's full form: bracket if asked for, all data, closing bracket, return if asked for. */
  predicate Full(b: Block) {
    && b.begun == b.job.bracketed && b.chunks == ChunkCount(b.job.data)
    && b.closed == b.job.bracketed && b.entered == b.job.appendEnter
  }

  /** A finished block: a prefix of the full form, its bracket closed unless that very write failed, reported
      as written exactly when it is the full form. */
  predicate WellShaped(b: Block) {
    && b.chunks <= ChunkCount(b.job.data)
    && (b.begun ==> b.job.bracketed)
    && (b.chunks > 0 ==> b.begun == b.job.bracketed)
    && (b.closed <==> b.begun && !b.closeFailed)
    && (b.entered ==> b.job.appendEnter && b.chunks == ChunkCount(b.job.data) && b.closed == b.job.bracketed)
    && (b.result.Ok? <==> Full(b))
  }

  predicate InProgress(point: Point, b: Block, urgent: Option<Job>) {
    && b.chunks <= ChunkCount(b.job.data)
    && (b.begun ==> b.job.bracketed)
    && (b.chunks > 0 ==> b.begun == b.job.bracketed)
    && match point
       case Start => b == Fresh(b.job) && urgent.None?
       case Poll => b.result.Ok? && b.begun == b.job.bracketed && !b.closed && !b.closeFailed && !b.entered && urgent.None?
       case Write => b.result.Ok? && b.begun == b.job.bracketed && !b.closed && !b.closeFailed && !b.entered && urgent.None?
       case Shut =>
         && !b.closed && !b.closeFailed && !b.entered
         && (b.result.Ok? <==> b.begun == b.job.bracketed && b.chunks == ChunkCount(b.job.data))
       case Confirm =>
         && (b.closed <==> b.begun && !b.closeFailed) && !b.entered
         && (b.result.Ok? <==> b.closed == b.job.bracketed && b.begun == b.job.bracketed && b.chunks == ChunkCount(b.job.data))
       case Finish => WellShaped(b)
  }

  function RenderPart(p: Part): seq<Entry>
    requires p.JobPart? ==> p.block.chunks <= ChunkCount(p.block.job.data)
  {
    match p case JobPart(b) => Render(b) case QueryPart(q) => [Query(q)]
  }

  ghost predicate AllShaped(parts: seq<Part>) {
    forall p :: p in parts ==> p.JobPart? ==> WellShaped(p.block)
  }

  function RenderAll(parts: seq<Part>): seq<Entry>
    requires AllShaped(parts)
  {
    if parts == [] then [] else
    assert parts[|parts| - 1] in parts;
    RenderAll(parts[..|parts| - 1]) + RenderPart(parts[|parts| - 1])
  }

  ghost predicate Shaped(s: State) {
    && AllShaped(s.parts)
    && match s.writer
       case Busy(point, b, urgent, _) => InProgress(point, b, urgent) && s.pty == RenderAll(s.parts) + Render(b)
       case _ => s.pty == RenderAll(s.parts)
  }

  /** An entry that needs permission: everything but the closing bracket and query answers. */
  predicate NeedsPermission(e: Entry) { e.Open? || e.Data? || e.Enter? }

  lemma RenderMore(b: Block)
    requires b.chunks < ChunkCount(b.job.data) && !b.closed && !b.entered
    ensures Render(b.(chunks := b.chunks + 1)) == Render(b) + [Data(b.job.At(), b.chunks, Chunk(b.job.data, b.chunks))]
  {
    var o := if b.begun then [Open(b.job.At())] else [];
    var d := DataEntries(b.job, b.chunks);
    var e := Data(b.job.At(), b.chunks, Chunk(b.job.data, b.chunks));
    assert o + (d + [e]) + [] + [] == (o + d + [] + []) + [e];
  }

  ghost predicate GoodMove(s: State, point: Point, b: Block, urgent: Option<Job>, m: Move) {
    && b.chunks <= ChunkCount(b.job.data)
    && FairMove(s, b, urgent, m)
    && InProgress(m.point, m.block, if m.urgent.Some? then m.urgent else urgent)
    && Render(m.block) == Render(b) + m.written
    && |m.written| <= 1
    && (forall e :: e in m.written && NeedsPermission(e) ==>
          L.Verified(s.lease, b.job.client, b.job.connection, b.job.epoch, s.now).Ok?)
    && (forall e :: e in m.written ==> !e.Query? && e.key == b.job.At())
  }

  lemma NothingWritten(b: Block)
    requires b.chunks <= ChunkCount(b.job.data)
    ensures Render(b) == Render(b) + []
  {
  }

  lemma StartPoint(s: State, b: Block, allowed: bool, success: bool)
    requires InProgress(Start, b, None) && b.job.data != []
    ensures GoodMove(s, Start, b, None, Advance(s, Start, b, allowed, success))
  {
    assert ChunkCount(b.job.data) >= 1;
    var m := Advance(s, Start, b, allowed, success);
    if m.block.begun {
      assert Render(m.block) == [Open(b.job.At())];
    }
    NothingWritten(b);
  }

  lemma DataPoints(s: State, point: Point, b: Block, allowed: bool, success: bool)
    requires point in {Poll, Write} && InProgress(point, b, None)
    ensures GoodMove(s, point, b, None, Advance(s, point, b, allowed, success))
  {
    if point == Write && b.chunks < ChunkCount(b.job.data) {
      RenderMore(b);
    }
    NothingWritten(b);
  }

  lemma ShutPoint(s: State, b: Block, urgent: Option<Job>, allowed: bool, success: bool)
    requires InProgress(Shut, b, urgent)
    ensures GoodMove(s, Shut, b, urgent, Advance(s, Shut, b, allowed, success))
  {
    NothingWritten(b);
  }

  lemma ConfirmPoint(s: State, b: Block, urgent: Option<Job>, allowed: bool, success: bool)
    requires InProgress(Confirm, b, urgent)
    ensures GoodMove(s, Confirm, b, urgent, Advance(s, Confirm, b, allowed, success))
  {
    NothingWritten(b);
  }

  lemma MoveGood(s: State, point: Point, b: Block, urgent: Option<Job>, allowed: bool, success: bool)
    requires point != Finish && InProgress(point, b, urgent) && b.job.data != []
    ensures GoodMove(s, point, b, urgent, Advance(s, point, b, allowed, success))
  {
    match point
    case Start => StartPoint(s, b, allowed, success);
    case Poll => DataPoints(s, Poll, b, allowed, success);
    case Write => DataPoints(s, Write, b, allowed, success);
    case Shut => ShutPoint(s, b, urgent, allowed, success);
    case Confirm => ConfirmPoint(s, b, urgent, allowed, success);
  }
}
