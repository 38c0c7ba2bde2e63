/** The whole output path as one system: the session's log and ring, one viewer's task, two FIFO wires, and the
    browser (the message handler of packages/terminal-client/src/terminal.ts). Any number of viewers share the log,
    ring and fence without touching each other, so one stands for all. */
module OutputPath {
  import opened Bytes
  import F = Frames
  import opened Protocol
  import Fence
  import Guard
  import Source = OutputSource
  import Conn = Connection

  /** The slots of the broadcast channel: a viewer that is further behind misses events, and is told so once. */
  const SLOTS := 64

  /** What the browser's terminal is told. */
  datatype TermOp = Reset(cols: nat, rows: nat) | Write(bytes: seq<Byte>) | Resize(cols: nat, rows: nat)

  /** The browser: guard, render budget, messages reserved but not yet applied, and what the terminal was told. */
  datatype Client = Client(guard: Guard.State, budget: nat, inbox: seq<F.Frame>, ops: seq<TermOp>, closed: bool)

  /** `meta` is the snapshot's metadata and `metaBytes` its JSON; `base`, `data` and `processed` are history. */
  datatype State = State(
    who: Guard.Identity, source: Source.State,
    started: bool, base: nat, data: seq<Byte>, metaBytes: seq<Byte>, meta: Guard.SnapshotMeta,
    conn: Conn.State, wire: seq<F.Frame>, acks: seq<nat>,
    client: Client, processed: seq<F.Frame>)

  function Initial(who: Guard.Identity, limit: nat, cols: nat, rows: nat): State {
    State(who, Source.State(Fence.FRESH, limit, [], cols, rows, []),
          false, 0, [], [], Guard.SnapshotMeta(0, 0, 0, 0, 0, 0), Conn.NEW, [], [],
          Client(Guard.NEW, 0, [], [], false), [])
  }

  /** What `select!` picks while waiting. `Message` is a ping or a renewed authorisation, which only goes round the
      loop. */
  datatype Pick = Quit | Message | TakeAck | TakeEvent | Lag

  /** `Read` is what one `read` of the PTY returned into a buffer of 32768 bytes. */
  datatype Action =
    | Read(bytes: seq<Byte>)
    | ResizeTo(cols: nat, rows: nat)
    | Subscribe(data: seq<Byte>, metaBytes: seq<Byte>)
    | Server(quit: bool, socket: bool, pick: Pick)
    | ClientReceives
    | ClientApplies

  /** `subscribe_snapshot`: cuts the log at its end, under the output lock. */
  function SubscribeAt(s: State, data: seq<Byte>, metaBytes: seq<Byte>): State {
    var base := |s.source.log|;
    var conn := Conn.Subscribe(s.who, base, metaBytes, data);
    var meta := Guard.SnapshotMeta(s.source.cols, s.source.rows, base, s.who.generation, s.who.agentEpoch, |data|);
    if conn.point == Conn.Closed then s.(conn := conn)
    else s.(started := true, base := base, data := data, metaBytes := metaBytes, meta := meta, conn := conn)
  }

  /** One turn of the viewer's task. A turn that is not enabled is no turn. */
  function ServerTurn(s: State, quit: bool, socket: bool, pick: Pick): (Conn.Turn, seq<nat>) {
    var c := s.conn;
    match c.point
    case Starting => (Conn.SendSnapshot(c, socket), s.acks)
    case Refill => (if quit then Conn.Close(c) else Conn.RefillTurn(c, s.source.ring), s.acks)
    case Deliver => (Conn.DeliverTurn(c, socket), s.acks)
    case Wait => WaitTurn(s, pick)
    case _ => (Conn.Turn(c, []), s.acks)
  }

  function WaitTurn(s: State, pick: Pick): (Conn.Turn, seq<nat>) {
    var c := s.conn;
    match pick
    case Quit => (Conn.Close(c), s.acks)
    case Message => (Conn.Backlog(c), s.acks)
    case TakeAck => if s.acks == [] then (Conn.Turn(c, []), s.acks) else (Conn.Acknowledge(c, s.acks[0]), s.acks[1..])
    case TakeEvent =>
      if c.unacked < Conn.CREDIT && c.cursor < |s.source.log| <= c.cursor + SLOTS
      then (Conn.Broadcast(c.(cursor := c.cursor + 1), s.source.log[c.cursor], s.source.ring), s.acks)
      else (Conn.Turn(c, []), s.acks)
    case Lag =>
      if c.unacked < Conn.CREDIT && c.cursor + SLOTS < |s.source.log|
      then (Conn.Lagged(c.(cursor := |s.source.log| - SLOTS), s.source.ring), s.acks)
      else (Conn.Turn(c, []), s.acks)
  }

  /** `JSON.parse` of what the agent serialised. */
  function Parsed(s: State, f: F.Frame): Option<Guard.SnapshotMeta> {
    if f.payload == s.metaBytes then Some(s.meta) else None
  }

  /** What the handler tells the terminal for an accepted frame. */
  function OpOf(f: F.Frame, meta: Guard.SnapshotMeta): seq<TermOp> {
    if f.kind == F.SNAPSHOT_META && meta.cols >= 0 && meta.rows >= 0 then [Reset(meta.cols, meta.rows)]
    else if f.kind == F.OUTPUT || f.kind == F.SNAPSHOT_CHUNK then [Write(f.payload)]
    else if f.kind == F.RESIZE && |f.payload| == 4 then [Resize(Guard.U16(f.payload, 0), Guard.U16(f.payload, 2))]
    else []
  }

  /** A message arrives: its bytes are reserved, or the socket is closed. */
  function Receive(s: State): State {
    if s.wire == [] || s.client.closed then s else
    var f, c := s.wire[0], s.client;
    if c.budget + f.Size() > Guard.BUDGET then s.(wire := s.wire[1..], client := c.(closed := true))
    else s.(wire := s.wire[1..], client := c.(budget := c.budget + f.Size(), inbox := c.inbox + [f]))
  }

  /** The oldest reserved message is checked, applied, acknowledged once live, and its bytes given back. */
  function ApplyNext(s: State): State {
    var c := s.client;
    if c.inbox == [] || c.closed then s else
    var f := c.inbox[0];
    var (g, v) := Guard.Checked(c.guard, f, Parsed(s, f), s.who);
    if v.Rejected? then s.(client := c.(guard := g, closed := true, inbox := c.inbox[1..]))
    else s.(client := c.(guard := g, inbox := c.inbox[1..], ops := c.ops + OpOf(f, s.meta),
                         budget := if f.Size() <= c.budget then c.budget - f.Size() else c.budget,
                         closed := f.Size() > c.budget),
            acks := s.acks + (if g.phase == Guard.Live then [g.sequence] else []),
            processed := s.processed + [f])
  }

  function Step(s: State, a: Action): State {
    match a
    case Read(bytes) =>
      if |bytes| <= F.MAX_PAYLOAD then s.(source := Source.Ingest(s.who, s.source, bytes)) else s
    case ResizeTo(cols, rows) =>
      if Guard.ValidSize(cols, rows) then s.(source := Source.CommitResize(s.who, s.source, cols, rows)) else s
    case Subscribe(data, metaBytes) =>
      if s.conn.point == Conn.Unsubscribed && |metaBytes| <= Guard.MAX_META then SubscribeAt(s, data, metaBytes) else s
    case Server(quit, socket, pick) =>
      var (t, acks) := ServerTurn(s, quit, socket, pick);
      s.(conn := t.next, wire := s.wire + t.wire, acks := acks)
    case ClientReceives => Receive(s)
    case ClientApplies => ApplyNext(s)
  }

  function Run(start: State, acts: seq<Action>): State { Fold(Step, start, acts) }
}
