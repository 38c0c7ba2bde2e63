/** packages/core/src/snapshot.ts: the browser's check of the incoming stream, and its render backlog. */
module Guard {
  import opened Bytes
  import F = Frames
  import opened Protocol

  datatype Phase = Awaiting | Snapshot | Live | Failed

  /** Which terminal this is. */
  datatype Identity = Identity(session: seq<Byte>, generation: nat, agentEpoch: Id)

  datatype SnapshotMeta = SnapshotMeta(cols: int, rows: int, sequence: int, generation: int, agentEpoch: Id, bytes: int)

  datatype State = State(phase: Phase, sequence: nat, meta: Option<SnapshotMeta>, received: nat)

  datatype Problem = StreamAlreadyFailed | WrongSession | UnexpectedSnapshot | InvalidSnapshot | SnapshotSequence
                   | SnapshotTooLarge | IncompleteSnapshot | OutputGap | InvalidResize

  datatype Verdict = Accepted | Rejected(problem: Problem)

  const MAX_META := 16384
  const MAX_SNAPSHOT := 4 * 1024 * 1024
  const BUDGET := 5 * 1024 * 1024

  const NEW := State(Awaiting, 0, None, 0)

  predicate ValidSize(cols: int, rows: int) { 2 <= cols <= MAX_COLS && 1 <= rows <= MAX_ROWS }

  predicate MetaFits(m: SnapshotMeta, f: F.Frame, who: Identity) {
    && m.agentEpoch == who.agentEpoch && m.generation == who.generation && m.sequence == f.sequence
    && ValidSize(m.cols, m.rows) && 0 <= m.bytes <= MAX_SNAPSHOT
  }

  function U16(p: seq<Byte>, i: nat): nat
    requires i + 1 < |p|
  {
    (p[i] as int) * 256 + p[i + 1] as int
  }

  predicate ResizePayload(p: seq<Byte>) { |p| == 4 && ValidSize(U16(p, 0), U16(p, 2)) }

  /** `validate`; `parsed` is what `JSON.parse` makes of the payload. */
  function Validated(g: State, f: F.Frame, parsed: Option<SnapshotMeta>, who: Identity): (State, Verdict) {
    if g.phase == Failed then (g, Rejected(StreamAlreadyFailed))
    else if f.session != who.session || f.generation != who.generation then (g, Rejected(WrongSession))
    else if f.kind == F.SNAPSHOT_META then
      if g.phase != Awaiting || |f.payload| > MAX_META then (g, Rejected(UnexpectedSnapshot))
      else if parsed.None? || !MetaFits(parsed.value, f, who) then (g, Rejected(InvalidSnapshot))
      else (State(Snapshot, f.sequence, parsed, g.received), Accepted)
    else if g.phase == Snapshot then
      if f.sequence != g.sequence then (g, Rejected(SnapshotSequence))
      else if f.kind == F.SNAPSHOT_CHUNK then
        var h := g.(received := g.received + |f.payload|);
        if h.received > (if g.meta.Some? then g.meta.value.bytes else 0) then (h, Rejected(SnapshotTooLarge)) else (h, Accepted)
      else if f.kind == F.SNAPSHOT_END && f.payload == [] && g.meta.Some? && g.received == g.meta.value.bytes
      then (g.(phase := Live), Accepted)
      else (g, Rejected(IncompleteSnapshot))
    else if g.phase != Live || f.kind !in {F.OUTPUT, F.RESIZE, F.EXIT} || f.sequence != g.sequence + 1
    then (g, Rejected(OutputGap))
    else if f.kind == F.RESIZE && !ResizePayload(f.payload) then (g, Rejected(InvalidResize))
    else (g.(sequence := f.sequence), Accepted)
  }

  /** `accept`: a rejected frame fails the stream for good. */
  function Checked(g: State, f: F.Frame, parsed: Option<SnapshotMeta>, who: Identity): (State, Verdict) {
    var (h, v) := Validated(g, f, parsed, who);
    if v.Rejected? then (h.(phase := Failed), v) else (h, v)
  }

  class StreamGuard {
    const who: Identity
    var phase: Phase
    var sequence: nat
    var meta: Option<SnapshotMeta>
    var received: nat

    function Value(): State
      reads this
    {
      State(phase, sequence, meta, received)
    }

    constructor (who: Identity)
      ensures Value() == NEW && this.who == who
    {
      this.who, phase, sequence, meta, received := who, Awaiting, 0, None, 0;
    }

    method Accept(f: F.Frame, parsed: Option<SnapshotMeta>) returns (v: Verdict)
      modifies this
      ensures (Value(), v) == Checked(old(Value()), f, parsed, who)
    {
      v := Validate(f, parsed);
      if v.Rejected? {
        phase := Failed;
      }
    }

    method Validate(f: F.Frame, parsed: Option<SnapshotMeta>) returns (v: Verdict)
      modifies this
      ensures (Value(), v) == Validated(old(Value()), f, parsed, who)
    {
      if phase == Failed {
        return Rejected(StreamAlreadyFailed);
      }
      if f.session != who.session || f.generation != who.generation {
        return Rejected(WrongSession);
      }
      if f.kind == F.SNAPSHOT_META {
        if phase != Awaiting || |f.payload| > 16384 {
          return Rejected(UnexpectedSnapshot);
        }
        if parsed.None? {
          return Rejected(InvalidSnapshot);
        }
        var m := parsed.value;
        if m.agentEpoch != who.agentEpoch || m.generation != who.generation || m.sequence != f.sequence
           || m.cols < 2 || m.cols > 400 || m.rows < 1 || m.rows > 150 || m.bytes < 0 || m.bytes > 4 * 1024 * 1024 {
          return Rejected(InvalidSnapshot);
        }
        meta, sequence, phase := Some(m), f.sequence, Snapshot;
        return Accepted;
      }
      if phase == Snapshot {
        if f.sequence != sequence {
          return Rejected(SnapshotSequence);
        }
        if f.kind == F.SNAPSHOT_CHUNK {
          received := received + |f.payload|;
          if received > (if meta.Some? then meta.value.bytes else 0) {
            return Rejected(SnapshotTooLarge);
          }
          return Accepted;
        }
        if f.kind == F.SNAPSHOT_END && |f.payload| == 0 && meta.Some? && received == meta.value.bytes {
          phase := Live;
          return Accepted;
        }
        return Rejected(IncompleteSnapshot);
      }
      if phase != Live || f.kind !in {F.OUTPUT, F.RESIZE, F.EXIT} || f.sequence != sequence + 1 {
        return Rejected(OutputGap);
      }
      if f.kind == F.RESIZE {
        if |f.payload| != 4 {
          return Rejected(InvalidResize);
        }
        var cols, rows := U16(f.payload, 0), U16(f.payload, 2);
        if cols < 2 || cols > 400 || rows < 1 || rows > 150 {
          return Rejected(InvalidResize);
        }
      }
      sequence := f.sequence;
      v := Accepted;
    }
  }

  /** Bytes received but not yet applied; exceeding the limit reconnects. */
  class RenderBudget {
    const limit: nat
    var bytes: nat

    constructor (limit: nat)
      ensures this.limit == limit && bytes == 0
    {
      this.limit, bytes := limit, 0;
    }

    /** Takes the bytes, or refuses and changes nothing. */
    method Reserve(n: nat) returns (ok: bool)
      modifies this
      ensures ok <==> old(bytes) + n <= limit
      ensures bytes == if ok then old(bytes) + n else old(bytes)
    {
      ok := bytes + n <= limit;
      if ok {
        bytes := bytes + n;
      }
    }

    /** Gives back bytes that were taken, or refuses and changes nothing. */
    method Applied(n: nat) returns (ok: bool)
      modifies this
      ensures ok <==> n <= old(bytes)
      ensures bytes == if ok then old(bytes) - n else old(bytes)
    {
      ok := n <= bytes;
      if ok {
        bytes := bytes - n;
      }
    }
  }
}
