/** The ring sizes for which a viewer can be left waiting: those too small for the largest event. */
module OutputStalls {
  import opened Bytes
  import F = Frames
  import Codec
  import Fence
  import Guard
  import Ring
  import Source = OutputSource
  import Conn = Connection
  import opened OutputPath
  import opened OutputTheory
  import opened OutputTheorems
  import opened OutputSizes
  import opened OutputProgress

  const TURN := Server(false, true, Message)

  lemma Joined(s: State, a: seq<Action>, t: State, b: seq<Action>, u: State) returns (acts: seq<Action>)
    requires t == Run(s, a) && u == Run(t, b)
    ensures acts == a + b && u == Run(s, acts)
  {
    FoldAppend(Step, s, a, b);
    acts := a + b;
  }

  lemma OneStep(s: State, a: Action)
    ensures Run(s, [a]) == Step(s, a)
  {
    FoldOne(Step, s, [], a);
    assert [] + [a] == [a];
  }

  lemma TwoSteps(s: State, a: Action, b: Action)
    ensures Run(s, [a, b]) == Step(Step(s, a), b)
  {
    OneStep(s, a);
    FoldOne(Step, s, [a], b);
    assert [a] + [b] == [a, b];
  }

  // ---- A snapshot is sent ----

  /** The widths of the Rust fields. */
  predicate TypedRun(who: Guard.Identity, sequence: nat) {
    |who.session| == 16 && who.generation < 0x1_0000_0000 && sequence < 0x1_0000_0000_0000_0000
  }

  lemma SnapshotEncodable(who: Guard.Identity, sequence: nat, metaBytes: seq<Byte>, data: seq<Byte>)
    requires TypedRun(who, sequence) && |metaBytes| <= Guard.MAX_META
    ensures forall f :: f in Conn.SnapshotFrames(who, sequence, metaBytes, data) ==> Codec.Encodable(f)
  {
  }

  /** The viewer's task alone, going round its loop. */
  predicate TurnsOnly(acts: seq<Action>) { forall a :: a in acts ==> a == TURN }

  lemma SendOne(s: State)
    requires s.conn.point == Conn.Starting && s.conn.toSend != [] && Codec.Encodable(s.conn.toSend[0])
    ensures Step(s, TURN) == s.(conn := s.conn.(toSend := s.conn.toSend[1..]), wire := s.wire + [s.conn.toSend[0]])
  {
  }

  lemma {:induction false} SendAll(s: State) returns (acts: seq<Action>, t: State)
    requires s.conn.point == Conn.Starting && forall f :: f in s.conn.toSend ==> Codec.Encodable(f)
    ensures TurnsOnly(acts) && t == Run(s, acts)
    ensures t == s.(conn := s.conn.(toSend := []), wire := s.wire + s.conn.toSend)
    decreases |s.conn.toSend|
  {
    if s.conn.toSend == [] {
      acts, t := [], s;
      assert s.wire + [] == s.wire;
    } else {
      SendOne(s);
      var u := Step(s, TURN);
      var more: seq<Action>;
      more, t := SendAll(u);
      FoldFront(Step, s, TURN, more);
      acts := [TURN] + more;
      assert (s.wire + [s.conn.toSend[0]]) + s.conn.toSend[1..] == s.wire + s.conn.toSend;
    }
  }

  /** A viewer subscribes and is sent its snapshot, whatever that is. */
  lemma SnapshotSent(s: State, data: seq<Byte>, metaBytes: seq<Byte>) returns (acts: seq<Action>, t: State)
    requires Good(s) && s.conn.point == Conn.Unsubscribed && TypedRun(s.who, |s.source.log|)
    requires |data| <= Guard.MAX_SNAPSHOT && |metaBytes| <= Guard.MAX_META
    ensures |acts| >= 1 && acts[0] == Subscribe(data, metaBytes) && TurnsOnly(acts[1..]) && t == Run(s, acts)
    ensures t.started && t.who == s.who && t.source == s.source && t.base == |s.source.log|
    ensures t.conn == Conn.State(Conn.Starting, t.base, t.base, 0, [], [], t.base, [], false)
    ensures t.wire == Conn.SnapshotFrames(s.who, t.base, metaBytes, data)
  {
    var u := SubscribeAt(s, data, metaBytes);
    SnapshotEncodable(s.who, u.base, metaBytes, data);
    var sent: seq<Action>;
    sent, t := SendAll(u);
    FoldFront(Step, s, Subscribe(data, metaBytes), sent);
    acts := [Subscribe(data, metaBytes)] + sent;
    assert [] + u.conn.toSend == u.conn.toSend;
  }

  // ---- A viewer that was sent nothing after its snapshot at 0 ----

  function Unsent(point: Conn.Point, cursor: nat): Conn.State { Conn.State(point, 0, 0, 0, [], [], cursor, [], false) }

  lemma Begins(s: State)
    requires s.conn == Unsent(Conn.Starting, 0)
    ensures Step(s, TURN) == s.(conn := Unsent(Conn.Refill, 0))
  {
    assert s.wire + [] == s.wire;
  }

  /** With an empty ring the loop goes straight back to waiting. */
  lemma FindsNothing(s: State, cursor: nat)
    requires s.conn == Unsent(Conn.Refill, cursor) && s.source.ring == []
    ensures Run(s, [TURN, TURN]) == s.(conn := Unsent(Conn.Wait, cursor))
  {
    assert s.wire + [] == s.wire;
    assert Step(s, TURN) == s.(conn := Unsent(Conn.Deliver, cursor));
    TwoSteps(s, TURN, TURN);
  }

  /** Anything that sends the loop round again with an empty ring leaves it waiting as before. */
  lemma GoesRound(s: State, a: Action, cursor: nat)
    requires Step(s, a) == s.(conn := Unsent(Conn.Refill, cursor)) && s.source.ring == []
    ensures Run(s, [a] + [TURN, TURN]) == s.(conn := Unsent(Conn.Wait, cursor))
  {
    FoldFront(Step, s, a, [TURN, TURN]);
    FindsNothing(Step(s, a), cursor);
  }

  lemma Lags(s: State)
    requires s.conn == Unsent(Conn.Wait, 0) && s.source.ring == [] && |s.source.log| == SLOTS + 1
    ensures Run(s, [Server(false, true, Lag)] + [TURN, TURN]) == s.(conn := Unsent(Conn.Wait, 1))
  {
    assert s.wire + [] == s.wire;
    GoesRound(s, Server(false, true, Lag), 1);
  }

  /** An event further on than the next is no use without the ring. */
  lemma Takes(s: State, cursor: nat)
    requires s.conn == Unsent(Conn.Wait, cursor) && s.source.ring == [] && F.Numbered(s.source.log)
    requires 1 <= cursor < |s.source.log| <= cursor + SLOTS
    ensures Run(s, [Server(false, true, TakeEvent)] + [TURN, TURN]) == s.(conn := Unsent(Conn.Wait, cursor + 1))
  {
    assert s.source.log[cursor].sequence == cursor + 1;
    assert s.wire + [] == s.wire;
    GoesRound(s, Server(false, true, TakeEvent), cursor + 1);
  }

  lemma {:induction false} TakesAll(s: State, cursor: nat) returns (acts: seq<Action>, t: State)
    requires s.conn == Unsent(Conn.Wait, cursor) && s.source.ring == [] && F.Numbered(s.source.log)
    requires 1 <= cursor <= |s.source.log| <= cursor + SLOTS
    ensures t == Run(s, acts) && t == s.(conn := Unsent(Conn.Wait, |s.source.log|))
    decreases |s.source.log| - cursor
  {
    if cursor == |s.source.log| {
      acts, t := [], s;
    } else {
      Takes(s, cursor);
      var first := [Server(false, true, TakeEvent)] + [TURN, TURN];
      var u := Run(s, first);
      var more: seq<Action>;
      more, t := TakesAll(u, cursor + 1);
      acts := Joined(s, first, u, more, t);
    }
  }

  // ---- Sixty-five events are logged while it waits ----

  lemma {:induction false} Resizes(s: State, n: nat) returns (acts: seq<Action>, t: State)
    requires SourceGood(s.who, s.source)
    ensures t == Run(s, acts) && t == s.(source := t.source) && SourceGood(t.who, t.source)
    ensures |t.source.log| == |s.source.log| + n && t.source.fence == s.source.fence && t.source.limit == s.source.limit
  {
    if n == 0 {
      acts, t := [], s;
    } else {
      var front, mid := Resizes(s, n - 1);
      var a := ResizeTo(80, 24);
      t := Step(mid, a);
      ResizeGood(mid.who, mid.source, 80, 24);
      FoldOne(Step, s, front, a);
      acts := front + [a];
    }
  }

  /** Two reads log one event too large for the ring. */
  lemma RingLost(s: State, t: State)
    requires SourceGood(s.who, s.source) && s.source.fence == Fence.FRESH && s.source.limit < LARGEST_EVENT
    requires t == Run(s, [Read(LEAD), Read(MOST)])
    ensures t == s.(source := t.source) && |t.source.log| == |s.source.log| + 1 && t.source.ring == []
    ensures SourceGood(t.who, t.source) && Ring.LostAll(t.source.log, s.source.limit)
  {
    TwoSteps(s, Read(LEAD), Read(MOST));
    var mid := Source.Ingest(s.who, s.source, LEAD);
    LargestLogged(s.who, s.source, mid, Source.Ingest(s.who, mid, MOST));
    IngestGood(s.who, s.source, LEAD);
    IngestGood(s.who, mid, MOST);
    IngestFence(s.who, mid, MOST);
    Ring.LostAllExactly(t.source.log, s.source.limit);
  }

  /** The viewer waits with everything that was logged out of its queue and out of the ring, and nothing of it sent. */
  lemma Overrun(s: State) returns (acts: seq<Action>, t: State)
    requires s.conn == Unsent(Conn.Wait, 0) && SourceGood(s.who, s.source) && s.source.log == []
    requires s.source.fence == Fence.FRESH && s.source.limit < LARGEST_EVENT
    ensures t == Run(s, acts) && t == s.(conn := Unsent(Conn.Wait, SLOTS + 1), source := t.source)
    ensures |t.source.log| == SLOTS + 1 && t.source.ring == [] && Ring.LostAll(t.source.log, s.source.limit)
  {
    var resizes, full := Resizes(s, SLOTS);
    var lost := Run(full, [Read(LEAD), Read(MOST)]);
    RingLost(full, lost);
    acts := Joined(s, resizes, full, [Read(LEAD), Read(MOST)], lost);
    Lags(lost);
    var behind := Run(lost, [Server(false, true, Lag)] + [TURN, TURN]);
    acts := Joined(s, acts, lost, [Server(false, true, Lag)] + [TURN, TURN], behind);
    var takes: seq<Action>;
    takes, t := TakesAll(behind, 1);
    acts := Joined(s, acts, behind, takes, t);
  }

  /** From the start to a waiting viewer that has its snapshot. */
  lemma Waits(s: State, data: seq<Byte>, metaBytes: seq<Byte>) returns (acts: seq<Action>, t: State)
    requires Good(s) && s.conn.point == Conn.Unsubscribed && TypedRun(s.who, 0) && s.source.log == [] && s.source.ring == []
    requires |data| <= Guard.MAX_SNAPSHOT && |metaBytes| <= Guard.MAX_META
    ensures t == Run(s, acts) && t.conn == Unsent(Conn.Wait, 0) && t.source == s.source && t.started && t.who == s.who
    ensures |acts| >= 1 && acts[0] == Subscribe(data, metaBytes)
  {
    var sent, u := SnapshotSent(s, data, metaBytes);
    Begins(u);
    GoesRound(u, TURN, 0);
    t := Run(u, [TURN] + [TURN, TURN]);
    acts := Joined(s, sent, u, [TURN] + [TURN, TURN], t);
  }

  // ---- Quiet, and incomplete ----

  /** Nothing is on its way or queued, and the browser has not seen the end of the log. */
  predicate Stalled(s: State) { Quiet(s) && s.conn.sent < |s.source.log| && s.client.guard.sequence < |s.source.log| }

  /** The browser catches up and its acknowledgement is taken, which changes nothing. */
  lemma Settles(s: State) returns (acts: seq<Action>, t: State)
    requires Good(s) && s.started && s.source.log != [] && s.source.ring == []
    requires s.conn == Unsent(Conn.Wait, |s.source.log|)
    ensures t == Run(s, acts) && Stalled(t) && t.source == s.source
  {
    var drained: seq<Action>, u: State;
    drained, u := CatchUp(s);
    if u.acks == [] {
      acts, t := drained, u;
    } else {
      t := AckSettles(u);
      acts := Joined(s, drained, u, [Server(false, true, TakeAck)] + [TURN, TURN], t);
    }
  }

  lemma AckSettles(u: State) returns (t: State)
    requires Good(u) && u.started && u.conn == Unsent(Conn.Wait, |u.source.log|) && u.source.ring == [] && u.acks != []
    requires u.wire == [] && u.client.inbox == [] && u.client.guard.phase == Guard.Live && u.client.guard.sequence == 0
    ensures t == Run(u, [Server(false, true, TakeAck)] + [TURN, TURN]) && t == u.(acks := [])
  {
    OneAck(u);
    AckTurn(u);
    var v := Step(u, Server(false, true, TakeAck));
    FoldFront(Step, u, Server(false, true, TakeAck), [TURN, TURN]);
    FindsNothing(v, |u.source.log|);
    t := u.(acks := []);
  }

  /** Only the end of the snapshot was acknowledged. */
  lemma OneAck(u: State)
    requires Good(u) && u.started && u.acks != [] && u.conn.sent == 0 && u.client.guard.phase == Guard.Live
    requires u.client.guard.sequence == 0
    ensures u.acks == [0]
  {
    LiveCount(u);
    SnapCount(u);
    AckInRange(u, 0);
  }

  lemma AckTurn(u: State)
    requires u.conn == Unsent(Conn.Wait, |u.source.log|) && u.acks == [0]
    ensures Step(u, Server(false, true, TakeAck)) == u.(conn := Unsent(Conn.Refill, |u.source.log|), acks := [])
  {
    assert u.wire + [] == u.wire;
  }

  /** For every ring smaller than the largest event there is a run that stalls, whatever the snapshot: 65 events are
      logged while the viewer waits, the last of them too large for the ring; it is told that it missed one, asks the
      ring, learns of nothing new, finds the other 64 of no use, and waits on with credit and everything unsent. */
  lemma StallReachable(who: Guard.Identity, limit: nat, cols: nat, rows: nat, data: seq<Byte>, metaBytes: seq<Byte>)
    returns (acts: seq<Action>)
    requires Guard.ValidSize(cols, rows) && TypedRun(who, 0) && limit < LARGEST_EVENT
    requires |data| <= Guard.MAX_SNAPSHOT && |metaBytes| <= Guard.MAX_META
    ensures |acts| >= 1 && acts[0] == Subscribe(data, metaBytes)
    ensures Stalled(Run(Initial(who, limit, cols, rows), acts))
  {
    var start := Initial(who, limit, cols, rows);
    RunGood(who, limit, cols, rows, []);
    var waits, waiting := Waits(start, data, metaBytes);
    RunGood(who, limit, cols, rows, waits);
    var overrun, behind := Overrun(waiting);
    acts := Joined(start, waits, waiting, overrun, behind);
    RunGood(who, limit, cols, rows, acts);
    var settles, end := Settles(behind);
    acts := Joined(start, acts, behind, settles, end);
  }

  ghost predicate StallsAfter(who: Guard.Identity, limit: nat, cols: nat, rows: nat, acts: seq<Action>) {
    Stalled(Run(Initial(who, limit, cols, rows), acts))
  }

  /** A viewer can be left waiting with events unsent if and only if the ring is smaller than the largest event, which
      takes 98345 bytes. */
  lemma StallsExactly(who: Guard.Identity, limit: nat, cols: nat, rows: nat)
    requires Guard.ValidSize(cols, rows) && TypedRun(who, 0)
    ensures (exists acts :: StallsAfter(who, limit, cols, rows, acts)) <==> limit < LARGEST_EVENT
  {
    if limit < LARGEST_EVENT {
      var acts := StallReachable(who, limit, cols, rows, [], []);
      assert StallsAfter(who, limit, cols, rows, acts);
    } else {
      forall acts ensures !StallsAfter(who, limit, cols, rows, acts) {
        if StallsAfter(who, limit, cols, rows, acts) {
          QuietIsComplete(who, limit, cols, rows, acts);
        }
      }
    }
  }
}
