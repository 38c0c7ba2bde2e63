/** The invariant of the output path, part by part. */
module OutputTheory {
  import opened Bytes
  import F = Frames
  import opened Protocol
  import Fence
  import Ring
  import Guard
  import Source = OutputSource
  import Conn = Connection
  import opened OutputPath

  // ---- The session ----

  predicate IsEvent(who: Guard.Identity, e: F.Frame) {
    && e.session == who.session && e.generation == who.generation
    && (e.kind == F.OUTPUT || (e.kind == F.RESIZE && Guard.ResizePayload(e.payload)))
  }

  ghost predicate SourceGood(who: Guard.Identity, s: Source.State) {
    && F.Numbered(s.log)
    && s.ring == Ring.Contents(s.log, s.limit)
    && (forall e :: e in s.log ==> IsEvent(who, e))
    && Guard.ValidSize(s.cols, s.rows)
  }

  lemma LoggedGood(who: Guard.Identity, s: Source.State, e: F.Frame)
    requires SourceGood(who, s) && IsEvent(who, e) && e.sequence == |s.log| + 1
    ensures SourceGood(who, Source.Logged(s, e))
  {
    assert (s.log + [e])[..|s.log|] == s.log;
  }

  lemma {:induction false} EmitAllGood(who: Guard.Identity, s: Source.State, payloads: seq<seq<Byte>>)
    requires SourceGood(who, s)
    ensures SourceGood(who, Source.EmitAll(who, s, payloads)) && s.log <= Source.EmitAll(who, s, payloads).log
  {
    if payloads != [] {
      var front := payloads[..|payloads| - 1];
      EmitAllGood(who, s, front);
      var t := Source.EmitAll(who, s, front);
      LoggedGood(who, t, Source.OutputEvent(who, |t.log| + 1, payloads[|payloads| - 1]));
    }
  }

  lemma IngestGood(who: Guard.Identity, s: Source.State, bytes: seq<Byte>)
    requires SourceGood(who, s)
    ensures SourceGood(who, Source.Ingest(who, s, bytes)) && s.log <= Source.Ingest(who, s, bytes).log
  {
    var (fence, tokens) := Fence.Release(s.fence, bytes);
    EmitAllGood(who, s.(fence := fence), Source.Payloads(tokens));
  }

  lemma ResizeGood(who: Guard.Identity, s: Source.State, cols: nat, rows: nat)
    requires SourceGood(who, s) && Guard.ValidSize(cols, rows)
    ensures SourceGood(who, Source.CommitResize(who, s, cols, rows)) && s.log <= Source.CommitResize(who, s, cols, rows).log
  {
    var p := Source.ResizePayload(cols, rows);
    assert Guard.U16(p, 0) == cols && Guard.U16(p, 2) == rows;
    LoggedGood(who, s, Source.ResizeEvent(who, |s.log| + 1, cols, rows));
  }

  // ---- The viewer's task ----

  /** The records in flight when everything up to `a` is acknowledged and everything up to `b` is sent. */
  function InflightOf(log: seq<F.Frame>, a: nat, b: nat): seq<Conn.InFlight>
    requires a <= b <= |log|
    decreases b - a
  {
    if a == b then [] else [Conn.InFlight(a + 1, log[a].Size())] + InflightOf(log, a + 1, b)
  }

  const FULL_FRAME := F.MAX_PAYLOAD + F.HEADER_LEN

  ghost predicate ConnGood(log: seq<F.Frame>, base: nat, c: Conn.State) {
    && base <= c.applied <= c.sent <= |log| && c.cursor <= |log| && !c.gap
    && c.inflight == InflightOf(log, c.applied, c.sent)
    && c.unacked == F.TotalSize(log[c.applied..c.sent])
    && c.unacked <= Conn.CREDIT - 1 + FULL_FRAME
    && (c.point != Conn.Closed ==> c.sent + |c.pending| <= |log| && c.pending == log[c.sent..c.sent + |c.pending|])
    && (c.point == Conn.Starting ==> c.sent == base && c.pending == [])
    && (c.point == Conn.Wait && c.unacked < Conn.CREDIT ==> c.pending == [])
    && (c.point in {Conn.Refill, Conn.Deliver, Conn.Wait} ==> c.toSend == [])
  }

  lemma {:induction false} InflightGrows(log: seq<F.Frame>, more: seq<F.Frame>, a: nat, b: nat)
    requires a <= b <= |log| && log <= more
    ensures InflightOf(more, a, b) == InflightOf(log, a, b)
    decreases b - a
  {
    if a < b {
      InflightGrows(log, more, a + 1, b);
    }
  }

  lemma ConnGrows(log: seq<F.Frame>, more: seq<F.Frame>, base: nat, c: Conn.State)
    requires ConnGood(log, base, c) && log <= more
    ensures ConnGood(more, base, c)
  {
    InflightGrows(log, more, c.applied, c.sent);
    assert more[c.applied..c.sent] == log[c.applied..c.sent];
    if c.point != Conn.Closed {
      assert more[c.sent..c.sent + |c.pending|] == log[c.sent..c.sent + |c.pending|];
    }
  }

  lemma {:induction false} InflightMore(log: seq<F.Frame>, a: nat, b: nat)
    requires a <= b < |log|
    ensures InflightOf(log, a, b + 1) == InflightOf(log, a, b) + [Conn.InFlight(b + 1, log[b].Size())]
    decreases b - a
  {
    if a < b {
      InflightMore(log, a + 1, b);
    } else {
      assert InflightOf(log, b + 1, b + 1) == [];
    }
  }

  lemma SizeMore(log: seq<F.Frame>, a: nat, b: nat)
    requires a <= b < |log|
    ensures F.TotalSize(log[a..b + 1]) == F.TotalSize(log[a..b]) + log[b].Size()
  {
    assert log[a..b + 1] == log[a..b] + [log[b]];
    F.TotalSizeAppend(log[a..b], [log[b]]);
    F.TotalSizeOne(log[b]);
  }

  lemma SizeFirst(log: seq<F.Frame>, a: nat, b: nat)
    requires a < b <= |log|
    ensures F.TotalSize(log[a..b]) == log[a].Size() + F.TotalSize(log[a + 1..b])
  {
    assert log[a..b][1..] == log[a + 1..b];
  }

  /** Acknowledging up to `q` leaves exactly the records after `q`, and their bytes. */
  lemma {:induction false} SettleExactly(log: seq<F.Frame>, a: nat, b: nat, q: nat)
    requires a <= q <= b <= |log|
    ensures Conn.Settle(InflightOf(log, a, b), F.TotalSize(log[a..b]), q) == (InflightOf(log, q, b), F.TotalSize(log[q..b]))
    decreases q - a
  {
    if a < q {
      SizeFirst(log, a, b);
      assert InflightOf(log, a, b)[1..] == InflightOf(log, a + 1, b);
      SettleExactly(log, a + 1, b, q);
    } else if a < b {
      assert InflightOf(log, a, b)[0].sequence == a + 1;
    }
  }

  /** What the ring returns for a viewer is the part of the log it has not been sent. */
  lemma RingServes(who: Guard.Identity, src: Source.State, sent: nat)
    requires SourceGood(who, src) && sent <= |src.log|
    ensures var r := Ring.Answer(src.ring, sent); r.Events? ==> r.events == [] || r.events == src.log[sent..]
  {
    Ring.AfterIsConsecutive(src.log, src.limit, sent);
  }

  /** The turn sends nothing and leaves the acknowledgements alone. */
  predicate Idles(c: Conn.State, t: Conn.Turn) {
    && t.wire == [] && t.next.sent == c.sent && t.next.applied == c.applied && t.next.toSend == c.toSend
    && t.next.point in {Conn.Refill, Conn.Deliver, Conn.Closed}
  }

  lemma BacklogGood(log: seq<F.Frame>, base: nat, c: Conn.State, t: Conn.Turn)
    requires ConnGood(log, base, c.(point := Conn.Refill)) && t == Conn.Backlog(c)
    ensures ConnGood(log, base, t.next) && Idles(c, t)
  {
  }

  lemma ExtendGood(who: Guard.Identity, src: Source.State, base: nat, c: Conn.State, p: Conn.Point, t: Conn.Turn)
    requires SourceGood(who, src) && c.pending == [] && p in {Conn.Refill, Conn.Deliver}
    requires ConnGood(src.log, base, c.(point := p)) && t == Conn.Extend(c, src.ring, p)
    ensures ConnGood(src.log, base, t.next) && Idles(c, t)
  {
    RingServes(who, src, c.sent);
    var r := Ring.Answer(src.ring, c.sent);
    if r.Events? {
      ServedGood(src.log, base, c.(point := p), r.events);
    }
  }

  lemma ServedGood(log: seq<F.Frame>, base: nat, c: Conn.State, v: seq<F.Frame>)
    requires ConnGood(log, base, c) && c.pending == [] && c.point in {Conn.Refill, Conn.Deliver}
    requires v == [] || v == log[c.sent..]
    ensures ConnGood(log, base, c.(pending := c.pending + v))
  {
    assert [] + v == v;
    assert log[c.sent..|log|] == log[c.sent..];
  }

  lemma LaggedGood(who: Guard.Identity, src: Source.State, base: nat, c: Conn.State, t: Conn.Turn)
    requires SourceGood(who, src) && c.pending == [] && ConnGood(src.log, base, c.(point := Conn.Refill))
    requires t == Conn.Lagged(c, src.ring)
    ensures ConnGood(src.log, base, t.next) && Idles(c, t)
  {
    var e := Conn.Extend(c, src.ring, Conn.Refill);
    ExtendGood(who, src, base, c, Conn.Refill, e);
    if e.next.point != Conn.Closed {
      BacklogGood(src.log, base, e.next, t);
    }
  }

  lemma QueuedGood(log: seq<F.Frame>, base: nat, c: Conn.State, f: F.Frame)
    requires c.pending == [] && ConnGood(log, base, c.(point := Conn.Refill)) && c.sent < |log| && f == log[c.sent]
    ensures ConnGood(log, base, c.(point := Conn.Refill, pending := c.pending + [f]))
  {
    assert log[c.sent..c.sent + 1] == [f];
    assert [] + [f] == [f];
  }

  lemma BroadcastGood(who: Guard.Identity, src: Source.State, base: nat, c: Conn.State, i: nat, t: Conn.Turn)
    requires SourceGood(who, src) && i < |src.log| && c.pending == [] && ConnGood(src.log, base, c.(point := Conn.Refill))
    requires t == Conn.Broadcast(c, src.log[i], src.ring)
    ensures ConnGood(src.log, base, t.next) && Idles(c, t)
  {
    var f := src.log[i];
    if f.sequence <= c.sent {
      BacklogGood(src.log, base, c, t);
    } else if f.sequence == c.sent + 1 {
      QueuedGood(src.log, base, c, f);
      BacklogGood(src.log, base, c.(pending := c.pending + [f]), t);
    } else {
      LaggedGood(who, src, base, c, t);
    }
  }

  lemma AcknowledgeGood(log: seq<F.Frame>, base: nat, c: Conn.State, q: nat)
    requires ConnGood(log, base, c) && c.point == Conn.Wait && c.applied <= q <= c.sent
    ensures ConnGood(log, base, Conn.Acknowledge(c, q).next)
    ensures Conn.Acknowledge(c, q).wire == [] && Conn.Acknowledge(c, q).next.applied == q
  {
    SettleExactly(log, c.applied, c.sent, q);
    var d := c.(applied := q, inflight := InflightOf(log, q, c.sent), unacked := F.TotalSize(log[q..c.sent]));
    SettledGood(log, base, c, q);
    BacklogGood(log, base, d, Conn.Backlog(d));
  }

  lemma SettledGood(log: seq<F.Frame>, base: nat, c: Conn.State, q: nat)
    requires ConnGood(log, base, c) && c.point == Conn.Wait && c.applied <= q <= c.sent
    ensures ConnGood(log, base, c.(point := Conn.Refill, applied := q, inflight := InflightOf(log, q, c.sent),
                                   unacked := F.TotalSize(log[q..c.sent])))
  {
    SizeSplit(log, c.applied, q, c.sent);
  }

  lemma SizeSplit(log: seq<F.Frame>, a: nat, q: nat, b: nat)
    requires a <= q <= b <= |log|
    ensures F.TotalSize(log[a..b]) == F.TotalSize(log[a..q]) + F.TotalSize(log[q..b])
  {
    assert log[a..b] == log[a..q] + log[q..b];
    F.TotalSizeAppend(log[a..q], log[q..b]);
  }

  /** The frame just put on the wire, as a record in flight. */
  function Flown(c: Conn.State, f: F.Frame): Conn.State {
    c.(point := Conn.Refill, pending := if c.pending == [] then [] else c.pending[1..], sent := c.sent + 1,
       unacked := c.unacked + f.Size(), inflight := c.inflight + [Conn.InFlight(c.sent + 1, f.Size())])
  }

  lemma FlownGood(log: seq<F.Frame>, base: nat, c: Conn.State, f: F.Frame)
    requires F.Numbered(log) && ConnGood(log, base, c) && c.point == Conn.Deliver
    requires c.unacked < Conn.CREDIT && c.pending != [] && f == c.pending[0] && |f.payload| <= F.MAX_PAYLOAD
    ensures c.sent < |log| && f == log[c.sent] && ConnGood(log, base, Flown(c, f))
  {
    assert f == log[c.sent];
    InflightMore(log, c.applied, c.sent);
    SizeMore(log, c.applied, c.sent);
    assert c.pending[1..] == log[c.sent + 1..c.sent + |c.pending|];
  }

  lemma DroppedGood(log: seq<F.Frame>, base: nat, c: Conn.State, pending: seq<F.Frame>)
    requires ConnGood(log, base, c) && c.point == Conn.Deliver
    ensures ConnGood(log, base, c.(point := Conn.Closed, pending := pending))
  {
  }

  /** Sending never skips: the frame put on the wire is the next one of the log, and the gap break is not reached. */
  lemma DeliverGood(log: seq<F.Frame>, base: nat, c: Conn.State, socket: bool, t: Conn.Turn)
    requires F.Numbered(log) && ConnGood(log, base, c) && c.point == Conn.Deliver && t == Conn.DeliverTurn(c, socket)
    ensures ConnGood(log, base, t.next) && t.next.applied == c.applied && t.next.toSend == c.toSend
    ensures c.sent <= t.next.sent && t.wire == log[c.sent..t.next.sent]
  {
    assert log[c.sent..c.sent] == [];
    if c.unacked < Conn.CREDIT && c.pending != [] {
      var f := c.pending[0];
      assert f == log[c.sent];
      if Conn.Sendable(f, socket) {
        FlownGood(log, base, c, f);
        assert log[c.sent..c.sent + 1] == [f];
      } else {
        DroppedGood(log, base, c, c.pending[1..]);
      }
    }
  }
}
