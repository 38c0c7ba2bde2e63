/** crates/rc-agent/src/session.rs, input half: `enqueue`, `enqueue_paste`, `writer_loop` and `write_job`
    as one state machine. Taking a queue's head in `select_biased`, and each permission check with the write
    it guards, are single steps; lease changes may come between any two steps. */
module InputPath {
  import opened Bytes
  import opened Protocol
  import L = Lease
  import G = Ledger

  const QUEUE := 64
  const URGENT_QUEUE := 8
  const PASTE_OPEN: seq<Byte> := [0x1b, 0x5b, 0x32, 0x30, 0x30, 0x7e]
  const PASTE_CLOSE: seq<Byte> := [0x1b, 0x5b, 0x32, 0x30, 0x31, 0x7e]
  const CR: seq<Byte> := [0x0d]
  const INTERRUPT: seq<Byte> := [0x03]

  /** The position of an input in its session. */
  datatype Key = Key(epoch: nat, sequence: nat)

  predicate Less(a: Key, b: Key) { a.epoch < b.epoch || (a.epoch == b.epoch && a.sequence < b.sequence) }

  /** A queued input; `sequence` is the accepted input sequence number. */
  datatype Job = Job(client: Id, connection: Id, epoch: nat, sequence: nat, id: Id, data: seq<Byte>,
                     bulk: bool, bracketed: bool, appendEnter: bool)
  {
    function At(): Key { Key(epoch, sequence) }
  }

  /** The number of 8192-byte chunks. */
  function ChunkCount(data: seq<Byte>): nat { (|data| + 8191) / 8192 }

  function Chunk(data: seq<Byte>, i: nat): seq<Byte>
    requires i < ChunkCount(data)
  {
    data[i * 8192..if (i + 1) * 8192 <= |data| then (i + 1) * 8192 else |data|]
  }

  /** One successful write to the PTY. */
  datatype Entry =
    | Open(key: Key)
    | Data(key: Key, index: nat, bytes: seq<Byte>)
    | Close(key: Key)
    | Enter(key: Key)
    | Query(bytes: seq<Byte>)

  /** What one job has done so far: the locals of `write_job`. */
  datatype Block = Block(job: Job, begun: bool, chunks: nat, closed: bool, closeFailed: bool, entered: bool,
                         result: Result<()>)

  function Fresh(job: Job): Block { Block(job, false, 0, false, false, false, Ok(())) }

  /** The program point of `write_job`. */
  datatype Point = Start | Poll | Write | Shut | Confirm | Finish

  /** Where the writer thread is. `depth` counts nested `write_job` calls. */
  datatype Writer =
    | Idle
    | Draining(next: Job, depth: nat)
    | Busy(point: Point, block: Block, urgent: Option<Job>, depth: nat)
    | Stopping
    | Stopped

  /** History: a finished job, or an answer to a terminal query. */
  datatype Part = JobPart(block: Block) | QueryPart(bytes: seq<Byte>)

  datatype State = State(
    lease: L.State, ledger: G.State, now: nat, running: bool,
    normal: seq<Job>, interrupt: seq<Job>, writer: Writer,
    pty: seq<Entry>,
    // History: what was written for whom, and what became of every input the ledger accepted.
    parts: seq<Part>, admitted: seq<Job>, refused: seq<Job>, cancelled: seq<Job>, unknown: seq<Job>)

  const INITIAL := State(L.FREE, G.EMPTY, 0, true, [], [], Idle, [], [], [], [], [], [])

  // ---- Accepting input ----

  /** What the ledger accepted goes to its queue, or is refused when that is full or closed. */
  function Dispatch(s: State, job: Job, priority: bool): (State, Result<()>) {
    var full := s.writer.Stopped? || if priority then |s.interrupt| >= URGENT_QUEUE else |s.normal| >= QUEUE;
    if full then
      (s.(ledger := G.Finished(s.ledger, job.id, G.Rejected), admitted := s.admitted + [job],
          refused := s.refused + [job]), Err(RateLimited))
    else if priority then (s.(admitted := s.admitted + [job], interrupt := s.interrupt + [job]), Ok(()))
    else (s.(admitted := s.admitted + [job], normal := s.normal + [job]), Ok(()))
  }

  /** The checks of `enqueue` under the input lock, then the queue. */
  function Admit(s: State, job: Job, max: nat, priority: bool): (State, Result<()>) {
    match L.Verified(s.lease, job.client, job.connection, job.epoch, s.now)
    case Err(e) => (s, Err(e))
    case Ok(_) =>
      var (ledger, r) := G.AcceptedInput(s.ledger, job.connection, job.epoch, job.id, job.sequence, |job.data|, max);
      match r
      case Err(e) => (s, Err(e))
      case Ok(_) => Dispatch(s.(ledger := ledger), job, priority)
  }

  function Enqueue(s: State, client: Id, connection: Id, epoch: nat, id: Id, sequence: nat, data: seq<Byte>, allowed: bool)
    : (State, Result<()>)
  {
    if !allowed then (s, Err(Forbidden)) else
    Admit(s, Job(client, connection, epoch, sequence, id, data, false, false, false), MAX_INPUT, data == INTERRUPT)
  }

  predicate PasteByte(b: Byte) { (b >= 32 || b in {9, 10, 13}) && b != 127 }

  /** `text.replace("\r\n", "\r").replace('\n', "\r")`. */
  function Newlines(text: seq<Byte>): (r: seq<Byte>) {
    if text == [] then []
    else if |text| >= 2 && text[0] == 13 && text[1] == 10 then [13] + Newlines(text[2..])
    else [if text[0] == 10 then 13 else text[0]] + Newlines(text[1..])
  }

  function EnqueuePaste(s: State, client: Id, connection: Id, epoch: nat, id: Id, sequence: nat, text: seq<Byte>,
                        bracketed: bool, appendEnter: bool, allowed: bool): (State, Result<()>)
  {
    if !allowed then (s, Err(Forbidden))
    else if text == [] || |text| > MAX_PASTE || exists i :: 0 <= i < |text| && !PasteByte(text[i])
    then (s, Err(InvalidRequest))
    else
      var job := Job(client, connection, epoch, sequence, id, Newlines(text), true, bracketed, appendEnter);
      Admit(s, job, MAX_PASTE, false)
  }

  // ---- The writer thread ----

  /** `permitted()`: scope, session and lease, as of now. */
  function Permitted(s: State, job: Job, allowed: bool): Result<()> {
    if !allowed then Err(Forbidden)
    else if !s.running then Err(SessionLost)
    else L.Verified(s.lease, job.client, job.connection, job.epoch, s.now)
  }

  /** `select_biased`: stop, then Ctrl+C, then query answers, then ordinary input. */
  function Select(s: State, stop: bool, query: Option<seq<Byte>>, success: bool): State {
    if !s.writer.Idle? then s
    else if stop then s.(writer := Stopping)
    else if s.interrupt != [] then s.(interrupt := s.interrupt[1..], writer := Draining(s.interrupt[0], 0))
    else if query.Some? then
      if success then s.(pty := s.pty + [Query(query.value)], parts := s.parts + [QueryPart(query.value)]) else s
    else if s.normal != [] then s.(normal := s.normal[1..], writer := Busy(Start, Fresh(s.normal[0]), None, 0))
    else s
  }

  /** Cancels the oldest queued input, or starts on `next` once none is left. */
  function Drain(s: State, next: Job, depth: nat): State {
    if s.normal == [] then s.(writer := Busy(Start, Fresh(next), None, depth))
    else s.(normal := s.normal[1..], cancelled := s.cancelled + [s.normal[0]],
            ledger := G.Finished(s.ledger, s.normal[0].id, G.Rejected))
  }

  /** One step of `write_job`: the next block and point, an urgent job taken, and at most one write. */
  datatype Move = Move(point: Point, block: Block, urgent: Option<Job>, written: seq<Entry>)

  function Guarded(r: Result<()>, b: Block, success: bool, onError: Point, onSuccess: Point, after: Block, e: Entry): Move {
    match r
    case Err(code) => Move(onError, b.(result := Err(code)), None, [])
    case Ok(_) =>
      if success then Move(onSuccess, after, None, [e])
      else Move(onError, b.(result := Err(InputDeliveryUnknown)), None, [])
  }

  function Advance(s: State, point: Point, b: Block, allowed: bool, success: bool): Move {
    var ok := Permitted(s, b.job, allowed);
    match point
    case Start =>
      if b.job.bracketed then Guarded(ok, b, success, Shut, Poll, b.(begun := true), Open(b.job.At()))
      else if ok.Err? then Move(Shut, b.(result := Err(ok.error)), None, [])
      else Move(Poll, b, None, [])
    case Poll =>
      if b.chunks >= ChunkCount(b.job.data) then Move(Shut, b, None, [])
      else if b.job.bulk && s.interrupt != [] then
        Move(Shut, b.(result := Err(InputCanceled)), Some(s.interrupt[0]), [])
      else Move(Write, b, None, [])
    case Write =>
      if b.chunks >= ChunkCount(b.job.data) then Move(Shut, b, None, []) else
      Guarded(ok, b, success, Shut, Poll, b.(chunks := b.chunks + 1),
              Data(b.job.At(), b.chunks, Chunk(b.job.data, b.chunks)))
    case Shut =>
      if !b.begun then Move(Confirm, b, None, [])
      else if success then Move(Confirm, b.(closed := true), None, [Close(b.job.At())])
      else Move(Confirm, b.(closeFailed := true, result := if b.result.Ok? then Err(InputDeliveryUnknown) else b.result),
                None, [])
    case Confirm =>
      if b.result.Ok? && b.job.appendEnter
      then Guarded(ok, b, success, Finish, Finish, b.(entered := true), Enter(b.job.At()))
      else Move(Finish, b, None, [])
    case Finish => Move(Finish, b, None, [])
  }

  /** Records the outcome and goes on to the urgent job, if one cut this one short. */
  function Conclude(s: State, b: Block, urgent: Option<Job>, depth: nat): State {
    s.(ledger := G.Finished(s.ledger, b.job.id, if b.result.Ok? then G.Written else G.DeliveryUnknown),
       parts := s.parts + [JobPart(b)],
       writer := if urgent.Some? then Draining(urgent.value, depth + 1) else Idle)
  }

  function Proceed(s: State, m: Move, urgent: Option<Job>, depth: nat): State {
    s.(pty := s.pty + m.written,
       interrupt := if m.urgent.Some? && s.interrupt != [] then s.interrupt[1..] else s.interrupt,
       writer := Busy(m.point, m.block, if m.urgent.Some? then m.urgent else urgent, depth))
  }

  function Work(s: State, allowed: bool, success: bool, alive: bool): State {
    match s.writer
    case Draining(next, depth) => Drain(s, next, depth)
    case Busy(point, b, urgent, depth) =>
      if point == Finish then Conclude(s, b, urgent, depth)
      else if point == Start && !alive then
        s.(parts := s.parts + [JobPart(b.(result := Err(SessionLost)))], writer := Idle)
      else Proceed(s, Advance(s, point, b, allowed, success), urgent, depth)
    case Stopping =>
      if s.normal != [] then s.(normal := s.normal[1..], unknown := s.unknown + [s.normal[0]])
      else if s.interrupt != [] then s.(interrupt := s.interrupt[1..], unknown := s.unknown + [s.interrupt[0]])
      else s.(writer := Stopped)
    case _ => s
  }

  // ---- Runs ----

  datatype Action =
    | Tick(until: nat)
    | LeaseOp(op: L.Op, allowed: bool)
    | SessionEnds
    | Input(client: Id, connection: Id, epoch: nat, id: Id, sequence: nat, data: seq<Byte>, allowed: bool)
    | Paste(client: Id, connection: Id, epoch: nat, id: Id, sequence: nat, text: seq<Byte>,
            bracketed: bool, appendEnter: bool, allowed: bool)
    | WriterSelects(stop: bool, query: Option<seq<Byte>>, success: bool)
    | WriterWorks(allowed: bool, success: bool, alive: bool)

  function Step(s: State, a: Action): State {
    match a
    case Tick(t) => if t > s.now then s.(now := t) else s
    case LeaseOp(op, allowed) =>
      if !allowed || (op.DoAcquire? && !s.running) then s else s.(lease := L.Apply(s.lease, op, s.now))
    case SessionEnds => s.(running := false)
    case Input(c, k, e, id, n, data, allowed) => Enqueue(s, c, k, e, id, n, data, allowed).0
    case Paste(c, k, e, id, n, text, bracketed, enter, allowed) =>
      EnqueuePaste(s, c, k, e, id, n, text, bracketed, enter, allowed).0
    case WriterSelects(stop, query, success) => Select(s, stop, query, success)
    case WriterWorks(allowed, success, alive) => Work(s, allowed, success, alive)
  }

  function Run(acts: seq<Action>): State { Fold(Step, INITIAL, acts) }
}
