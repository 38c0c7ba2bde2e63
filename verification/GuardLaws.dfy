/** Which streams packages/core/src/snapshot.ts accepts, over a description of its own. */
module GuardLaws {
  import opened Bytes
  import F = Frames
  import opened Protocol
  import opened Guard

  /** A frame, and what its payload is as JSON. */
  datatype Item = Item(frame: F.Frame, parsed: Option<SnapshotMeta>)

  /** The guard after these frames. */
  function After(g: State, who: Identity, items: seq<Item>): State
    decreases |items|
  {
    if items == [] then g else After(Checked(g, items[0].frame, items[0].parsed, who).0, who, items[1..])
  }

  predicate AcceptsAll(g: State, who: Identity, items: seq<Item>)
    decreases |items|
  {
    items == [] || (var (h, v) := Checked(g, items[0].frame, items[0].parsed, who); v.Accepted? && AcceptsAll(h, who, items[1..]))
  }

  // ---- The streams ----

  predicate Mine(who: Identity, f: F.Frame) { f.session == who.session && f.generation == who.generation }

  /** A terminal has 2 to 400 columns and 1 to 150 rows. */
  predicate Sized(cols: int, rows: int) { 2 <= cols <= 400 && 1 <= rows <= 150 }

  predicate Opening(who: Identity, i: Item) {
    && Mine(who, i.frame) && i.frame.kind == F.SNAPSHOT_META && |i.frame.payload| <= 16384 && i.parsed.Some?
    && var m := i.parsed.value;
    m.agentEpoch == who.agentEpoch && m.generation == who.generation && m.sequence == i.frame.sequence
    && Sized(m.cols, m.rows) && 0 <= m.bytes <= 4 * 1024 * 1024
  }

  predicate ChunkOf(who: Identity, f: F.Frame, sequence: nat) {
    Mine(who, f) && f.kind == F.SNAPSHOT_CHUNK && f.sequence == sequence
  }

  predicate EndOf(who: Identity, f: F.Frame, sequence: nat) {
    Mine(who, f) && f.kind == F.SNAPSHOT_END && f.sequence == sequence && f.payload == []
  }

  predicate EventOf(who: Identity, f: F.Frame, sequence: nat) {
    && Mine(who, f) && f.kind in {F.OUTPUT, F.RESIZE, F.EXIT} && f.sequence == sequence
    && (f.kind == F.RESIZE ==>
          |f.payload| == 4 && Sized((f.payload[0] as int) * 256 + f.payload[1] as int, (f.payload[2] as int) * 256 + f.payload[3] as int))
  }

  function Payload(items: seq<Item>): nat {
    if items == [] then 0 else |items[0].frame.payload| + Payload(items[1..])
  }

  /** Frame i is event number `sequence` + i. */
  predicate Events(who: Identity, items: seq<Item>, sequence: nat) {
    forall i :: 0 <= i < |items| ==> EventOf(who, items[i].frame, sequence + i)
  }

  /** How many chunks come first. */
  function Chunks(items: seq<Item>): (n: nat)
    ensures n <= |items|
  {
    if items != [] && items[0].frame.kind == F.SNAPSHOT_CHUNK then 1 + Chunks(items[1..]) else 0
  }

  /** First `n` chunks that make `bytes` bytes, or the beginning of them; then the end and the events. */
  predicate Body(who: Identity, items: seq<Item>, n: nat, sequence: nat, bytes: nat) {
    && n <= |items| && (forall i :: 0 <= i < n ==> ChunkOf(who, items[i].frame, sequence)) && Payload(items[..n]) <= bytes
    && (n < |items| ==> EndOf(who, items[n].frame, sequence) && Payload(items[..n]) == bytes
                        && Events(who, items[n + 1..], sequence + 1))
  }

  // ---- Live ----

  function LiveAt(g: State, sequence: nat): State { g.(phase := Live, sequence := sequence) }

  lemma EventExactly(g: State, who: Identity, i: Item)
    requires g.phase == Live
    ensures var (h, v) := Checked(g, i.frame, i.parsed, who);
            && (v.Accepted? <==> EventOf(who, i.frame, g.sequence + 1))
            && (v.Accepted? ==> h == LiveAt(g, g.sequence + 1))
  {
  }

  lemma {:induction false} EventsExactly(g: State, who: Identity, items: seq<Item>)
    requires g.phase == Live
    ensures AcceptsAll(g, who, items) <==> Events(who, items, g.sequence + 1)
    ensures AcceptsAll(g, who, items) ==> After(g, who, items) == LiveAt(g, g.sequence + |items|)
    decreases |items|
  {
    if items != [] {
      EventExactly(g, who, items[0]);
      var h := LiveAt(g, g.sequence + 1);
      EventsExactly(h, who, items[1..]);
      EventsFront(who, items, g.sequence + 1);
    }
  }

  lemma EventsFront(who: Identity, items: seq<Item>, sequence: nat)
    requires items != []
    ensures Events(who, items, sequence) <==> EventOf(who, items[0].frame, sequence) && Events(who, items[1..], sequence + 1)
  {
    if Events(who, items, sequence) {
      forall i | 0 <= i < |items[1..]| ensures EventOf(who, items[1..][i].frame, sequence + 1 + i) {
        assert EventOf(who, items[i + 1].frame, sequence + (i + 1));
      }
    }
    if EventOf(who, items[0].frame, sequence) && Events(who, items[1..], sequence + 1) {
      forall i | 0 <= i < |items| ensures EventOf(who, items[i].frame, sequence + i) {
        if i > 0 {
          assert EventOf(who, items[1..][i - 1].frame, sequence + 1 + (i - 1));
        }
      }
    }
  }

  // ---- The snapshot ----

  /** The guard inside a snapshot, with `left` bytes still due. */
  predicate Inside(g: State, left: nat) {
    g.phase == Snapshot && g.meta.Some? && g.meta.value.bytes == g.received + left
  }

  lemma ChunkExactly(g: State, who: Identity, i: Item, left: nat)
    requires Inside(g, left)
    ensures var (h, v) := Checked(g, i.frame, i.parsed, who);
            && (v.Accepted? <==> (ChunkOf(who, i.frame, g.sequence) && |i.frame.payload| <= left)
                                 || (EndOf(who, i.frame, g.sequence) && left == 0))
            && (v.Accepted? && i.frame.kind == F.SNAPSHOT_CHUNK ==>
                  h == g.(received := g.received + |i.frame.payload|) && Inside(h, left - |i.frame.payload|))
            && (v.Accepted? && i.frame.kind != F.SNAPSHOT_CHUNK ==> h == LiveAt(g, g.sequence))
  {
  }

  lemma BodyChunk(who: Identity, items: seq<Item>, n: nat, sequence: nat, bytes: nat)
    requires items != [] && ChunkOf(who, items[0].frame, sequence) && |items[0].frame.payload| <= bytes
    ensures Body(who, items[1..], n, sequence, bytes - |items[0].frame.payload|) <==> Body(who, items, n + 1, sequence, bytes)
  {
    var more := items[1..];
    if n <= |more| {
      assert items[..n + 1][1..] == more[..n];
      assert forall i :: 0 <= i < n ==> more[i] == items[i + 1];
      if Body(who, more, n, sequence, bytes - |items[0].frame.payload|) {
        forall i | 0 <= i < n + 1 ensures ChunkOf(who, items[i].frame, sequence) {
          if i > 0 {
            assert ChunkOf(who, more[i - 1].frame, sequence);
          }
        }
      }
      if n < |more| {
        assert items[n + 2..] == more[n + 1..];
      }
    }
  }

  lemma BodyNone(who: Identity, items: seq<Item>, sequence: nat, bytes: nat)
    ensures Body(who, items, 0, sequence, bytes) <==>
            items == [] || (EndOf(who, items[0].frame, sequence) && bytes == 0 && Events(who, items[1..], sequence + 1))
  {
    assert items[..0] == [];
  }

  lemma BodyTooLong(who: Identity, items: seq<Item>, n: nat, sequence: nat, bytes: nat)
    requires items != [] && n > 0 && Body(who, items, n, sequence, bytes)
    ensures ChunkOf(who, items[0].frame, sequence) && |items[0].frame.payload| <= bytes
  {
    assert items[..n][0] == items[0];
  }

  /** Inside a snapshot the guard accepts exactly what completes it. */
  lemma {:induction false} BodyExactly(g: State, who: Identity, items: seq<Item>, left: nat)
    requires Inside(g, left)
    ensures AcceptsAll(g, who, items) <==> Body(who, items, Chunks(items), g.sequence, left)
    ensures AcceptsAll(g, who, items) ==>
              if Chunks(items) == |items| then After(g, who, items).phase == Snapshot
              else After(g, who, items).phase == Live
                   && After(g, who, items).sequence == g.sequence + (|items| - Chunks(items) - 1)
    decreases |items|
  {
    BodyNone(who, items, g.sequence, left);
    if items != [] {
      var f := items[0].frame;
      ChunkExactly(g, who, items[0], left);
      if f.kind == F.SNAPSHOT_CHUNK {
        if ChunkOf(who, f, g.sequence) && |f.payload| <= left {
          BodyExactly(g.(received := g.received + |f.payload|), who, items[1..], left - |f.payload|);
          BodyChunk(who, items, Chunks(items[1..]), g.sequence, left);
        } else if Body(who, items, Chunks(items), g.sequence, left) {
          BodyTooLong(who, items, Chunks(items), g.sequence, left);
        }
      } else if EndOf(who, f, g.sequence) && left == 0 {
        EventsExactly(LiveAt(g, g.sequence), who, items[1..]);
      }
    }
  }

  // ---- Whole streams ----

  /** A stream as it should be, or its beginning: the snapshot's metadata, its chunks, its end, and then consecutive
      events, all of this terminal. */
  predicate Stream(who: Identity, items: seq<Item>) {
    items != [] && Opening(who, items[0])
    && Body(who, items[1..], Chunks(items[1..]), items[0].frame.sequence, items[0].parsed.value.bytes)
  }

  /** The guard accepts all of a list of frames exactly if it is the beginning of such a stream; and then it is live
      exactly once the snapshot has ended, at the last event. */
  lemma AcceptsExactly(who: Identity, items: seq<Item>)
    ensures AcceptsAll(NEW, who, items) <==> items == [] || Stream(who, items)
    ensures items != [] && Stream(who, items) ==>
              var g, n := After(NEW, who, items), Chunks(items[1..]);
              if n + 1 == |items| then g.phase == Snapshot
              else g.phase == Live && g.sequence == items[0].frame.sequence + (|items| - n - 2)
  {
    if items != [] && Opening(who, items[0]) {
      var i := items[0];
      var g := State(Snapshot, i.frame.sequence, i.parsed, 0);
      assert Checked(NEW, i.frame, i.parsed, who) == (g, Accepted);
      BodyExactly(g, who, items[1..], i.parsed.value.bytes);
    }
  }

  /** Once a frame was rejected, every later one is. */
  lemma {:induction false} RejectedForever(g: State, who: Identity, items: seq<Item>, i: nat, j: nat)
    requires i < j < |items|
    requires Checked(After(g, who, items[..i]), items[i].frame, items[i].parsed, who).1.Rejected?
    ensures Checked(After(g, who, items[..j]), items[j].frame, items[j].parsed, who).1 == Rejected(StreamAlreadyFailed)
    decreases j
  {
    AfterOne(g, who, items, j - 1);
    if i < j - 1 {
      RejectedForever(g, who, items, i, j - 1);
    }
  }

  lemma {:induction false} AfterOne(g: State, who: Identity, items: seq<Item>, j: nat)
    requires j < |items|
    ensures After(g, who, items[..j + 1]) == Checked(After(g, who, items[..j]), items[j].frame, items[j].parsed, who).0
    decreases j
  {
    if j > 0 {
      AfterOne(Checked(g, items[0].frame, items[0].parsed, who).0, who, items[1..], j - 1);
      assert items[..j + 1][1..] == items[1..][..j] && items[..j][1..] == items[1..][..j - 1];
    } else {
      assert items[..1] == [items[0]] && [items[0]][1..] == [] && items[..0] == [];
    }
  }
}
