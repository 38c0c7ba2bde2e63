/** crates/rc-agent/src/session.rs, output half: `reader_loop`, `emit` and `commit_resize`, each under the output lock. */
module OutputSource {
  import opened Bytes
  import F = Frames
  import opened Protocol
  import Fence
  import Ring
  import Guard

  type Identity = Guard.Identity

  /** The output state, with the full log of events as history. */
  datatype State = State(fence: Fence.State, limit: nat, ring: seq<F.Frame>, cols: nat, rows: nat, log: seq<F.Frame>)

  // ---- Batching tokens into events ----

  /** The batches closed so far, and the one being filled. */
  datatype Batches = Batches(closed: seq<seq<Byte>>, filling: seq<Byte>)

  function Put(b: Batches, token: seq<Byte>): Batches {
    if |b.filling| + |token| > F.MAX_PAYLOAD && b.filling != []
    then Batches(b.closed + [b.filling], token)
    else Batches(b.closed, b.filling + token)
  }

  /** The payloads of the events that carry `tokens`. */
  function Payloads(tokens: seq<seq<Byte>>): seq<seq<Byte>> {
    var b := Fold(Put, Batches([], []), tokens);
    if b.filling != [] then b.closed + [b.filling] else b.closed
  }

  // ---- Events ----

  function OutputEvent(who: Identity, sequence: nat, data: seq<Byte>): F.Frame {
    F.Frame(F.OUTPUT, who.session, who.generation, sequence, data)
  }

  function ResizePayload(cols: nat, rows: nat): seq<Byte>
    requires cols < 0x1_0000 && rows < 0x1_0000
  {
    [cols / 256, cols % 256, rows / 256, rows % 256]
  }

  function ResizeEvent(who: Identity, sequence: nat, cols: nat, rows: nat): F.Frame
    requires cols < 0x1_0000 && rows < 0x1_0000
  {
    F.Frame(F.RESIZE, who.session, who.generation, sequence, ResizePayload(cols, rows))
  }

  /** Logs one event: into the ring, and to every subscriber. */
  function Logged(s: State, e: F.Frame): State {
    s.(ring := Ring.Trim(s.ring + [e], s.limit), log := s.log + [e])
  }

  function Emit(who: Identity, s: State, data: seq<Byte>): State {
    Logged(s, OutputEvent(who, |s.log| + 1, data))
  }

  function EmitAll(who: Identity, s: State, payloads: seq<seq<Byte>>): State {
    if payloads == [] then s
    else Emit(who, EmitAll(who, s, payloads[..|payloads| - 1]), payloads[|payloads| - 1])
  }

  /** One turn of the reader loop over what one read returned. */
  function Ingest(who: Identity, s: State, bytes: seq<Byte>): State {
    var (fence, tokens) := Fence.Release(s.fence, bytes);
    EmitAll(who, s.(fence := fence), Payloads(tokens))
  }

  function CommitResize(who: Identity, s: State, cols: nat, rows: nat): State
    requires cols < 0x1_0000 && rows < 0x1_0000
  {
    Logged(s, ResizeEvent(who, |s.log| + 1, cols, rows)).(cols := cols, rows := rows)
  }

  /** The session's output side. `log` is history: what was sent to subscribers so far. */
  class OutputState {
    const who: Identity
    const fence: Fence.VtFence
    const ring: Ring.EventRing
    var count: nat
    var cols: nat
    var rows: nat
    ghost var log: seq<F.Frame>

    ghost predicate Valid()
      reads this, fence, ring
    {
      ring.Valid() && count == |log|
    }

    ghost function Value(): State
      reads this, fence, ring
    {
      State(fence.Value(), ring.limit, ring.events, cols, rows, log)
    }

    constructor (who: Identity, limit: nat, cols: nat, rows: nat)
      ensures Valid() && fresh(fence) && fresh(ring)
      ensures this.who == who && Value() == State(Fence.FRESH, limit, [], cols, rows, [])
    {
      this.who := who;
      fence := new Fence.VtFence();
      ring := new Ring.EventRing(limit);
      count, this.cols, this.rows, log := 0, cols, rows, [];
    }

    method EmitEvent(data: seq<Byte>)
      requires Valid()
      modifies this, ring
      ensures Valid() && Value() == Emit(who, old(Value()), data)
    {
      count := count + 1;
      var event := OutputEvent(who, count, data);
      ring.Push(event);
      log := log + [event];
    }

    /** The body of the reader loop. */
    method Read(buf: seq<Byte>)
      requires Valid()
      modifies this, fence, ring
      ensures Valid() && Value() == Ingest(who, old(Value()), buf)
    {
      var tokens := fence.PushBytes(buf);
      ghost var start := old(Value()).(fence := fence.Value());
      ghost var b := Batches([], []);
      var batch: seq<Byte> := [];
      for i := 0 to |tokens|
        invariant Valid() && fence.Value() == start.fence
        invariant b == Fold(Put, Batches([], []), tokens[..i]) && b.filling == batch
        invariant Value() == EmitAll(who, start, b.closed)
      {
        var token := tokens[i];
        assert tokens[..i + 1] == tokens[..i] + [token];
        FoldOne(Put, Batches([], []), tokens[..i], token);
        ghost var next := Put(b, token);
        if |batch| + |token| > F.MAX_PAYLOAD && batch != [] {
          EmitEvent(batch);
          EmitOneMore(who, start, b.closed, batch);
          batch := [];
        }
        batch := batch + token;
        b := next;
      }
      assert tokens[..|tokens|] == tokens;
      if batch != [] {
        EmitEvent(batch);
        EmitOneMore(who, start, b.closed, batch);
      }
    }

    method Resize(cols: nat, rows: nat)
      requires Valid() && cols < 0x1_0000 && rows < 0x1_0000
      modifies this, ring
      ensures Valid() && Value() == CommitResize(who, old(Value()), cols, rows)
    {
      count := count + 1;
      this.cols, this.rows := cols, rows;
      var event := ResizeEvent(who, count, cols, rows);
      ring.Push(event);
      log := log + [event];
    }

    /** `ring_after`. */
    method RingAfter(since: nat) returns (r: Ring.Replay)
      requires Valid()
      ensures r == Ring.Answer(Value().ring, since)
    {
      r := ring.After(since);
    }
  }

  lemma EmitOneMore(who: Identity, s: State, payloads: seq<seq<Byte>>, data: seq<Byte>)
    ensures EmitAll(who, s, payloads + [data]) == Emit(who, EmitAll(who, s, payloads), data)
  {
    assert (payloads + [data])[..|payloads|] == payloads;
  }

  // ---- What the batches are ----

  /** The batches hold the tokens, in order; a batch over the limit is a single token. */
  ghost predicate Holds(b: Batches, tokens: seq<seq<Byte>>) {
    && Flatten(b.closed) + b.filling == Flatten(tokens)
    && (forall p :: p in b.closed ==> p != [] && (|p| > F.MAX_PAYLOAD ==> p in tokens))
    && (|b.filling| > F.MAX_PAYLOAD ==> b.filling in tokens)
    && (forall t :: t in tokens && |t| > F.MAX_PAYLOAD ==> t in b.closed || t == b.filling)
  }

  lemma PutBytes(b: Batches, t: seq<Byte>)
    ensures Flatten(Put(b, t).closed) + Put(b, t).filling == (Flatten(b.closed) + b.filling) + t
  {
    assert (b.closed + [b.filling])[..|b.closed|] == b.closed;
    assert Flatten(b.closed) + (b.filling + t) == (Flatten(b.closed) + b.filling) + t;
  }

  lemma FlattenMore(tokens: seq<seq<Byte>>, t: seq<Byte>)
    ensures Flatten(tokens + [t]) == Flatten(tokens) + t
  {
    assert (tokens + [t])[..|tokens|] == tokens;
  }

  lemma PutHolds(b: Batches, tokens: seq<seq<Byte>>, t: seq<Byte>)
    requires Holds(b, tokens) && t != []
    ensures Holds(Put(b, t), tokens + [t])
  {
    PutBytes(b, t);
    FlattenMore(tokens, t);
    assert t in tokens + [t];
    if b.filling == [] {
      assert Put(b, t).filling == t;
    }
  }

  lemma {:induction false} BatchesHold(tokens: seq<seq<Byte>>)
    requires [] !in tokens
    ensures Holds(Fold(Put, Batches([], []), tokens), tokens)
  {
    if tokens != [] {
      var ts, t := tokens[..|tokens| - 1], tokens[|tokens| - 1];
      BatchesHold(ts);
      assert t in tokens && ts + [t] == tokens;
      PutHolds(Fold(Put, Batches([], []), ts), ts, t);
      FoldOne(Put, Batches([], []), ts, t);
    }
  }

  /** The events of one read carry its tokens, in order and none of them empty. Their payloads all keep within
      32768 bytes exactly when every single token does: a token is never split. */
  lemma BatchExactly(tokens: seq<seq<Byte>>)
    requires [] !in tokens
    ensures Flatten(Payloads(tokens)) == Flatten(tokens) && [] !in Payloads(tokens)
    ensures (forall p :: p in Payloads(tokens) ==> |p| <= F.MAX_PAYLOAD) <==>
            (forall t :: t in tokens ==> |t| <= F.MAX_PAYLOAD)
  {
    BatchesHold(tokens);
    var b := Fold(Put, Batches([], []), tokens);
    if b.filling != [] {
      assert Payloads(tokens)[..|b.closed|] == b.closed;
      assert b.filling in Payloads(tokens);
    } else {
      assert Flatten(b.closed) + [] == Flatten(b.closed);
    }
    forall p | p in b.closed ensures p in Payloads(tokens) {}
  }
}
