/** crates/rc-agent/src/ws.rs: the `terminal` task of one viewer. Its loop is cut at every point where it waits or
    touches shared state: refilling from the ring, sending, and taking an acknowledgement or a broadcast event. */
module Connection {
  import opened Bytes
  import F = Frames
  import opened Protocol
  import Codec
  import Ring
  import Guard

  const CREDIT := 256 * 1024
  const BACKLOG := 1024 * 1024

  /** Before subscribing, sending the snapshot, the three points of the live loop, and done. */
  datatype Point = Unsubscribed | Starting | Refill | Deliver | Wait | Closed

  datatype InFlight = InFlight(sequence: nat, size: nat)

  /** The locals of its loop; `cursor` is the position of its broadcast receiver in the log. */
  datatype State = State(point: Point, applied: nat, sent: nat, unacked: nat, inflight: seq<InFlight>,
                         pending: seq<F.Frame>, cursor: nat, toSend: seq<F.Frame>, gap: bool)

  const NEW := State(Unsubscribed, 0, 0, 0, [], [], 0, [], false)

  // ---- The snapshot ----

  function ChunkCount(data: seq<Byte>): nat { (|data| + 32767) / 32768 }

  function Chunk(data: seq<Byte>, i: nat): seq<Byte>
    requires i < ChunkCount(data)
  {
    data[i * 32768..if (i + 1) * 32768 <= |data| then (i + 1) * 32768 else |data|]
  }

  function MetaFrame(who: Guard.Identity, sequence: nat, meta: seq<Byte>): F.Frame {
    F.Frame(F.SNAPSHOT_META, who.session, who.generation, sequence, meta)
  }

  function ChunkFrame(who: Guard.Identity, sequence: nat, data: seq<Byte>, i: nat): F.Frame
    requires i < ChunkCount(data)
  {
    F.Frame(F.SNAPSHOT_CHUNK, who.session, who.generation, sequence, Chunk(data, i))
  }

  function EndFrame(who: Guard.Identity, sequence: nat): F.Frame {
    F.Frame(F.SNAPSHOT_END, who.session, who.generation, sequence, [])
  }

  /** The frames of a snapshot, in order. */
  function SnapshotFrames(who: Guard.Identity, sequence: nat, meta: seq<Byte>, data: seq<Byte>): seq<F.Frame> {
    [MetaFrame(who, sequence, meta)]
    + seq(ChunkCount(data), i requires 0 <= i < ChunkCount(data) => ChunkFrame(who, sequence, data, i))
    + [EndFrame(who, sequence)]
  }

  function Subscribe(who: Guard.Identity, sequence: nat, meta: seq<Byte>, data: seq<Byte>): State {
    if |data| > Guard.MAX_SNAPSHOT then NEW.(point := Closed)
    else State(Starting, sequence, sequence, 0, [], [], sequence, SnapshotFrames(who, sequence, meta, data), false)
  }

  // ---- Sending ----

  /** One turn's outcome: the new locals, and the frame put on the wire if any. */
  datatype Turn = Turn(next: State, wire: seq<F.Frame>)

  function Close(c: State): Turn { Turn(c.(point := Closed), []) }

  /** `send_frame` fails for a frame `encode` rejects, and when the socket does. */
  predicate Sendable(f: F.Frame, socket: bool) { Codec.Encodable(f) && socket }

  function SendSnapshot(c: State, socket: bool): Turn {
    if c.toSend == [] then Turn(c.(point := Refill), [])
    else if !Sendable(c.toSend[0], socket) then Close(c)
    else Turn(c.(toSend := c.toSend[1..]), [c.toSend[0]])
  }

  /** Takes what the ring has after `sent`, or gives up. */
  function Extend(c: State, ring: seq<F.Frame>, then_: Point): Turn {
    match Ring.Answer(ring, c.sent)
    case ResyncRequired => Close(c)
    case Events(v) => Turn(c.(pending := c.pending + v, point := then_), [])
  }

  function RefillTurn(c: State, ring: seq<F.Frame>): Turn {
    if c.pending == [] then Extend(c, ring, Deliver) else Turn(c.(point := Deliver), [])
  }

  function DeliverTurn(c: State, socket: bool): Turn {
    if c.unacked < CREDIT && c.pending != [] then
      var f := c.pending[0];
      if f.sequence != c.sent + 1 then Close(c.(gap := true, pending := c.pending[1..]))
      else if !Sendable(f, socket) then Close(c.(pending := c.pending[1..]))
      else Turn(c.(point := Refill, pending := c.pending[1..], sent := f.sequence, unacked := c.unacked + f.Size(),
                   inflight := c.inflight + [InFlight(f.sequence, f.Size())]), [f])
    else Turn(c.(point := Wait), [])
  }

  // ---- Waiting ----

  /** Takes the acknowledged records off the front. */
  function Settle(inflight: seq<InFlight>, unacked: nat, sequence: nat): (seq<InFlight>, nat)
    decreases |inflight|
  {
    if inflight != [] && inflight[0].sequence <= sequence
    then Settle(inflight[1..], if inflight[0].size <= unacked then unacked - inflight[0].size else 0, sequence)
    else (inflight, unacked)
  }

  function Acknowledge(c: State, sequence: nat): Turn {
    if sequence < c.applied || sequence > c.sent then Close(c)
    else
      var (inflight, unacked) := Settle(c.inflight, c.unacked, sequence);
      Backlog(c.(applied := sequence, inflight := inflight, unacked := unacked))
  }

  /** The check at the bottom of the loop. */
  function Backlog(c: State): Turn {
    if F.TotalSize(c.pending) > BACKLOG then Close(c) else Turn(c.(point := Refill), [])
  }

  /** A broadcast event: the next one is queued, an old one skipped, and a gap filled from the ring. */
  function Broadcast(c: State, f: F.Frame, ring: seq<F.Frame>): Turn {
    if f.sequence <= c.sent then Backlog(c)
    else if f.sequence == c.sent + 1 then Backlog(c.(pending := c.pending + [f]))
    else Lagged(c, ring)
  }

  function Lagged(c: State, ring: seq<F.Frame>): Turn {
    var t := Extend(c, ring, Refill);
    if t.next.point == Closed then t else Backlog(t.next)
  }

  // ---- The same, as the loop's statements ----

  class Terminal {
    var point: Point
    var applied: nat
    var sent: nat
    var unacked: nat
    var inflight: seq<InFlight>
    var pending: seq<F.Frame>
    var cursor: nat
    var toSend: seq<F.Frame>
    ghost var gap: bool

    ghost function Value(): State
      reads this
    {
      State(point, applied, sent, unacked, inflight, pending, cursor, toSend, gap)
    }

    constructor (who: Guard.Identity, sequence: nat, meta: seq<Byte>, data: seq<Byte>)
      ensures Value() == Subscribe(who, sequence, meta, data)
    {
      if |data| > 4 * 1024 * 1024 {
        point, applied, sent, unacked, inflight, pending, cursor, toSend := Closed, 0, 0, 0, [], [], 0, [];
      } else {
        point := Starting;
        applied, sent, cursor := sequence, sequence, sequence;
        unacked, inflight, pending := 0, [], [];
        toSend := SnapshotFrames(who, sequence, meta, data);
      }
      gap := false;
    }

    /** Sends one frame of the snapshot; the loop starts when none is left. */
    method Start(socket: bool) returns (wire: seq<F.Frame>)
      modifies this
      ensures Turn(Value(), wire) == SendSnapshot(old(Value()), socket)
    {
      wire := [];
      if toSend == [] {
        point := Refill;
      } else if !Codec.Encodable(toSend[0]) || !socket {
        point := Closed;
      } else {
        wire := [toSend[0]];
        toSend := toSend[1..];
      }
    }

    method Fill(ring: seq<F.Frame>)
      modifies this
      ensures Turn(Value(), []) == RefillTurn(old(Value()), ring)
    {
      if pending == [] {
        match Ring.Answer(ring, sent) {
          case Events(v) => pending := pending + v;
          case ResyncRequired => point := Closed; return;
        }
      }
      point := Deliver;
    }

    method Send(socket: bool) returns (wire: seq<F.Frame>)
      modifies this
      ensures Turn(Value(), wire) == DeliverTurn(old(Value()), socket)
    {
      wire := [];
      if unacked < 256 * 1024 {
        if pending != [] {
          var f := pending[0];
          pending := pending[1..];
          if f.sequence != sent + 1 {
            gap := true;
            point := Closed;
            return;
          }
          var n := |f.payload| + F.HEADER_LEN;
          if !Codec.Encodable(f) || !socket {
            point := Closed;
            return;
          }
          sent := f.sequence;
          unacked := unacked + n;
          inflight := inflight + [InFlight(sent, n)];
          point := Refill;
          return [f];
        }
      }
      point := Wait;
    }

    method CheckBacklog()
      modifies this
      ensures Turn(Value(), []) == Backlog(old(Value()))
    {
      point := if F.TotalSize(pending) > 1024 * 1024 then Closed else Refill;
    }

    method Ack(sequence: nat)
      modifies this
      ensures Turn(Value(), []) == Acknowledge(old(Value()), sequence)
    {
      if sequence < applied || sequence > sent {
        point := Closed;
        return;
      }
      applied := sequence;
      while inflight != [] && inflight[0].sequence <= sequence
        invariant Settle(inflight, unacked, sequence) == Settle(old(inflight), old(unacked), sequence)
        invariant Value() == old(Value()).(applied := sequence, inflight := inflight, unacked := unacked)
        decreases |inflight|
      {
        unacked := if inflight[0].size <= unacked then unacked - inflight[0].size else 0;
        inflight := inflight[1..];
      }
      CheckBacklog();
    }

    method Event(f: F.Frame, ring: seq<F.Frame>)
      modifies this
      ensures Turn(Value(), []) == Broadcast(old(Value()), f, ring)
    {
      if f.sequence > sent {
        if f.sequence == sent + 1 {
          pending := pending + [f];
        } else {
          match Ring.Answer(ring, sent) {
            case Events(v) => pending := pending + v;
            case ResyncRequired => point := Closed; return;
          }
        }
      }
      CheckBacklog();
    }
  }
}
