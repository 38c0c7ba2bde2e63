/** Main results about every run of the output path. */
module OutputTheorems {
  import opened Bytes
  import F = Frames
  import opened Protocol
  import Guard
  import Source = OutputSource
  import Conn = Connection
  import opened OutputPath
  import opened OutputTheory

  // ---- What the viewer is owed ----

  /** The snapshot's frames. */
  function Snap(s: State): seq<F.Frame> { Conn.SnapshotFrames(s.who, s.base, s.metaBytes, s.data) }

  /** Everything the agent has sent or is committed to send: the snapshot at `base`, then the log from there. */
  function Stream(s: State): seq<F.Frame>
    requires s.base <= s.conn.sent <= |s.source.log|
  {
    Snap(s) + s.source.log[s.base..s.conn.sent]
  }

  /** The bytes of the first `n` snapshot chunks. */
  function Reached(data: seq<Byte>, n: nat): nat { if n * 32768 <= |data| then n * 32768 else |data| }

  function Chunks(s: State): nat { Conn.ChunkCount(s.data) }

  /** The guard after `p` frames of an honest stream. */
  function GuardAt(s: State, p: nat): Guard.State {
    if p == 0 then Guard.NEW
    else if p <= Chunks(s) + 1 then Guard.State(Guard.Snapshot, s.base, Some(s.meta), Reached(s.data, p - 1))
    else Guard.State(Guard.Live, s.base + (p - Chunks(s) - 2), Some(s.meta), |s.data|)
  }

  /** What the terminal was told after `fs`. */
  function OpsOf(fs: seq<F.Frame>, meta: Guard.SnapshotMeta): seq<TermOp> {
    if fs == [] then [] else OpsOf(fs[..|fs| - 1], meta) + OpOf(fs[|fs| - 1], meta)
  }

  ghost predicate MetaGood(s: State) {
    && |s.metaBytes| <= Guard.MAX_META && |s.data| <= Guard.MAX_SNAPSHOT
    && Guard.ValidSize(s.meta.cols, s.meta.rows)
    && s.meta == Guard.SnapshotMeta(s.meta.cols, s.meta.rows, s.base, s.who.generation, s.who.agentEpoch, |s.data|)
  }

  /** Nothing is lost or reordered between the two ends. */
  ghost predicate WiresGood(s: State)
    requires s.base <= s.conn.sent <= |s.source.log|
  {
    s.processed + s.client.inbox + s.wire + s.conn.toSend == Stream(s)
  }

  predicate ClientGood(s: State) {
    && !s.client.closed
    && s.client.guard == GuardAt(s, |s.processed|)
    && s.client.budget == F.TotalSize(s.client.inbox)
    && s.client.ops == OpsOf(s.processed, s.meta)
  }

  /** The acknowledgements on their way are consecutive and end at what the browser applied last. */
  ghost predicate AcksGood(s: State) {
    if |s.processed| < Chunks(s) + 2 then s.acks == [] && s.conn.applied == s.base
    else
      var k := s.base + (|s.processed| - Chunks(s) - 2);
      && |s.acks| <= k - s.base + 1
      && s.conn.applied == (if |s.acks| == k - s.base + 1 then s.base else k - |s.acks|)
      && forall i :: 0 <= i < |s.acks| ==> s.acks[i] == k - |s.acks| + 1 + i
  }

  ghost predicate Good(s: State) {
    && SourceGood(s.who, s.source)
    && if !s.started then
         && s.conn.point in {Conn.Unsubscribed, Conn.Closed} && s.conn == Conn.NEW.(point := s.conn.point)
         && s.wire == [] && s.acks == [] && s.processed == [] && s.client == Client(Guard.NEW, 0, [], [], false)
       else
         && s.conn.point != Conn.Unsubscribed
         && ConnGood(s.source.log, s.base, s.conn)
         && MetaGood(s) && WiresGood(s) && ClientGood(s) && AcksGood(s)
  }

  // ---- Frames of the honest stream ----

  lemma StreamAt(s: State, p: nat)
    requires s.base <= s.conn.sent <= |s.source.log| && p < |Stream(s)|
    ensures |Snap(s)| == Chunks(s) + 2
    ensures p == 0 ==> Stream(s)[p] == Conn.MetaFrame(s.who, s.base, s.metaBytes)
    ensures 1 <= p <= Chunks(s) ==> Stream(s)[p] == Conn.ChunkFrame(s.who, s.base, s.data, p - 1)
    ensures p == Chunks(s) + 1 ==> Stream(s)[p] == Conn.EndFrame(s.who, s.base)
    ensures p >= Chunks(s) + 2 ==> s.base + (p - Chunks(s) - 2) < s.conn.sent
                                   && Stream(s)[p] == s.source.log[s.base + (p - Chunks(s) - 2)]
  {
  }

  lemma ChunkReached(data: seq<Byte>, i: nat)
    requires i < Conn.ChunkCount(data)
    ensures Reached(data, i) + |Conn.Chunk(data, i)| == Reached(data, i + 1) <= |data|
    ensures i + 1 == Conn.ChunkCount(data) ==> Reached(data, i + 1) == |data|
  {
    assert i * 32768 < |data|;
  }

  lemma NoChunks(data: seq<Byte>)
    requires Conn.ChunkCount(data) == 0
    ensures Reached(data, 0) == |data|
  {
  }

  /** `f` is the frame at the browser's place in the stream. */
  ghost predicate Upcoming(s: State, f: F.Frame) {
    && s.base <= s.conn.sent <= |s.source.log|
    && |s.processed| < |Stream(s)| && f == Stream(s)[|s.processed|]
  }

  lemma SnapAccepted(s: State, f: F.Frame, parsed: Option<Guard.SnapshotMeta>)
    requires MetaGood(s) && Upcoming(s, f) && |s.processed| <= Chunks(s) + 1
    requires |s.processed| == 0 ==> parsed == Some(s.meta)
    ensures Guard.Checked(GuardAt(s, |s.processed|), f, parsed, s.who)
         == (GuardAt(s, |s.processed| + 1), Guard.Accepted)
  {
    var p := |s.processed|;
    StreamAt(s, p);
    if 1 <= p <= Chunks(s) {
      ChunkReached(s.data, p - 1);
    } else if p == Chunks(s) + 1 {
      if Chunks(s) == 0 {
        NoChunks(s.data);
      } else {
        ChunkReached(s.data, Chunks(s) - 1);
      }
    }
  }

  lemma EventAccepted(s: State, f: F.Frame, parsed: Option<Guard.SnapshotMeta>)
    requires SourceGood(s.who, s.source) && Upcoming(s, f) && |s.processed| >= Chunks(s) + 2
    ensures Guard.Checked(GuardAt(s, |s.processed|), f, parsed, s.who)
         == (GuardAt(s, |s.processed| + 1), Guard.Accepted)
  {
    StreamAt(s, |s.processed|);
    var i := s.base + (|s.processed| - Chunks(s) - 2);
    assert s.source.log[i] in s.source.log;
  }

  /** The guard accepts the next frame of an honest stream, whatever it is. */
  lemma NextAccepted(s: State, f: F.Frame, parsed: Option<Guard.SnapshotMeta>)
    requires SourceGood(s.who, s.source) && MetaGood(s) && Upcoming(s, f)
    requires |s.processed| == 0 ==> parsed == Some(s.meta)
    ensures Guard.Checked(GuardAt(s, |s.processed|), f, parsed, s.who)
         == (GuardAt(s, |s.processed| + 1), Guard.Accepted)
  {
    if |s.processed| <= Chunks(s) + 1 {
      SnapAccepted(s, f, parsed);
    } else {
      EventAccepted(s, f, parsed);
    }
  }

  // ---- Each action keeps the invariant ----

  lemma LogStep(s: State, src: Source.State, t: State)
    requires Good(s) && SourceGood(s.who, src) && s.source.log <= src.log && t == s.(source := src)
    ensures Good(t)
  {
    if s.started {
      ConnGrows(s.source.log, src.log, s.base, s.conn);
      assert src.log[s.base..s.conn.sent] == s.source.log[s.base..s.conn.sent];
    }
  }

  lemma SubscribeStep(s: State, data: seq<Byte>, metaBytes: seq<Byte>, t: State)
    requires Good(s) && s.conn.point == Conn.Unsubscribed && |metaBytes| <= Guard.MAX_META
    requires t == SubscribeAt(s, data, metaBytes)
    ensures Good(t)
  {
    if t.started {
      assert InflightOf(t.source.log, t.base, t.base) == [];
      assert t.source.log[t.base..t.base] == [];
      assert Snap(t) + [] == Snap(t);
      assert [] + [] + [] + t.conn.toSend == t.conn.toSend;
    }
  }

  lemma ReceiveWires(s: State, t: State)
    requires s.base <= s.conn.sent <= |s.source.log| && WiresGood(s) && s.wire != []
    requires t == s.(wire := s.wire[1..], client := t.client) && t.client.inbox == s.client.inbox + [s.wire[0]]
    ensures WiresGood(t)
  {
    assert s.wire == [s.wire[0]] + t.wire;
    Associates(s.processed, s.client.inbox, [s.wire[0]]);
    assert s.processed + t.client.inbox + t.wire == s.processed + s.client.inbox + s.wire;
    assert Stream(t) == Stream(s);
  }

  lemma ReceiveStep(s: State, t: State)
    requires Good(s) && s.started && s.wire != [] && t == Receive(s)
    requires s.client.budget + s.wire[0].Size() <= Guard.BUDGET
    ensures Good(t)
  {
    var f := s.wire[0];
    F.TotalSizeAppend(s.client.inbox, [f]);
    F.TotalSizeOne(f);
    ReceiveWires(s, t);
  }

  /** What the browser has not applied yet is the rest of the stream. */
  lemma Owed(s: State)
    requires s.base <= s.conn.sent <= |s.source.log| && WiresGood(s)
    ensures |s.processed| <= |Stream(s)|
    ensures Stream(s)[|s.processed|..] == s.client.inbox + s.wire + s.conn.toSend
  {
    Associates(s.processed, s.client.inbox, s.wire);
    Associates(s.processed, s.client.inbox + s.wire, s.conn.toSend);
  }

  lemma HeadOfInbox(s: State)
    requires s.started && Good(s) && s.client.inbox != []
    ensures |s.processed| < |Stream(s)| && s.client.inbox[0] == Stream(s)[|s.processed|]
    ensures |s.processed| == 0 ==> Parsed(s, s.client.inbox[0]) == Some(s.meta)
  {
    Owed(s);
    var rest := s.client.inbox + s.wire + s.conn.toSend;
    assert rest[0] == s.client.inbox[0];
    assert Stream(s)[|s.processed|..][0] == rest[0];
    StreamAt(s, |s.processed|);
  }

  lemma OpsOneMore(fs: seq<F.Frame>, f: F.Frame, meta: Guard.SnapshotMeta)
    ensures OpsOf(fs + [f], meta) == OpsOf(fs, meta) + OpOf(f, meta)
  {
    assert (fs + [f])[..|fs|] == fs;
  }

  lemma AckAppended(s: State, t: State)
    requires Good(s) && s.started && |t.processed| == |s.processed| + 1
    requires t == s.(client := t.client, processed := t.processed,
                     acks := s.acks + (if t.client.guard.phase == Guard.Live then [t.client.guard.sequence] else []))
    requires t.client.guard == GuardAt(s, |t.processed|)
    ensures AcksGood(t)
  {
  }

  /** The browser's part of an apply step, once the guard has accepted. */
  lemma ApplyClient(s: State, f: F.Frame)
    requires s.started && Good(s) && s.client.inbox != [] && f == s.client.inbox[0]
    requires Guard.Checked(s.client.guard, f, Parsed(s, f), s.who) == (GuardAt(s, |s.processed| + 1), Guard.Accepted)
    ensures var t := ApplyNext(s);
            && t == s.(client := t.client, processed := s.processed + [f], acks := t.acks)
            && t.client.inbox == s.client.inbox[1..] && ClientGood(t) && AcksGood(t)
  {
    var t := ApplyNext(s);
    SizeOfHead(s.client.inbox);
    OpsOneMore(s.processed, f, s.meta);
    AckAppended(s, t);
  }

  lemma ApplyWires(s: State, t: State)
    requires s.started && Good(s) && s.client.inbox != []
    requires t == s.(client := t.client, processed := s.processed + [s.client.inbox[0]], acks := t.acks)
    requires t.client.inbox == s.client.inbox[1..]
    ensures WiresGood(t)
  {
    assert t.processed + t.client.inbox == s.processed + s.client.inbox;
    assert Stream(t) == Stream(s);
  }

  lemma ApplyStep(s: State, t: State)
    requires Good(s) && s.started && s.client.inbox != [] && t == ApplyNext(s)
    ensures Good(t)
  {
    HeadOfInbox(s);
    var f := s.client.inbox[0];
    NextAccepted(s, f, Parsed(s, f));
    ApplyClient(s, f);
    ApplyWires(s, t);
  }

  lemma SizeOfHead(fs: seq<F.Frame>)
    requires fs != []
    ensures F.TotalSize(fs) == fs[0].Size() + F.TotalSize(fs[1..])
  {
  }

  // ---- Credit ----

  lemma {:induction false} ChunkFramesSize(who: Guard.Identity, seqno: nat, data: seq<Byte>, n: nat)
    requires n <= Conn.ChunkCount(data)
    ensures F.TotalSize(seq(n, i requires 0 <= i < n => Conn.ChunkFrame(who, seqno, data, i))) == Reached(data, n) + 40 * n
  {
    var fs := seq(n, i requires 0 <= i < n => Conn.ChunkFrame(who, seqno, data, i));
    if n > 0 {
      var f := Conn.ChunkFrame(who, seqno, data, n - 1);
      ChunkFramesSize(who, seqno, data, n - 1);
      assert fs == seq(n - 1, i requires 0 <= i < n - 1 => Conn.ChunkFrame(who, seqno, data, i)) + [f];
      F.TotalSizeAppend(fs[..n - 1], [f]);
      F.TotalSizeOne(f);
      ChunkReached(data, n - 1);
    }
  }

  /** A snapshot's frames take at most 4 MiB and its headers. */
  lemma SnapSize(s: State)
    requires MetaGood(s)
    ensures F.TotalSize(Snap(s)) <= Guard.MAX_META + Guard.MAX_SNAPSHOT + 40 * 130
  {
    var n := Chunks(s);
    assert n <= 128;
    var a := [Conn.MetaFrame(s.who, s.base, s.metaBytes)];
    var b := seq(n, i requires 0 <= i < n => Conn.ChunkFrame(s.who, s.base, s.data, i));
    var c := [Conn.EndFrame(s.who, s.base)];
    assert Snap(s) == a + b + c;
    F.TotalSizeAppend(a + b, c);
    F.TotalSizeAppend(a, b);
    F.TotalSizeOne(a[0]);
    F.TotalSizeOne(c[0]);
    ChunkFramesSize(s.who, s.base, s.data, n);
  }

  lemma SnapTailFits(s: State, p: nat)
    requires MetaGood(s) && ConnGood(s.source.log, s.base, s.conn) && s.conn.applied == s.base && p < |Snap(s)|
    ensures F.TotalSize(Stream(s)[p..]) <= Guard.BUDGET
  {
    var snap, sent := Snap(s), s.source.log[s.base..s.conn.sent];
    assert Stream(s)[p..] == snap[p..] + sent;
    F.TotalSizeAppend(snap[p..], sent);
    assert snap == snap[..p] + snap[p..];
    F.TotalSizeAppend(snap[..p], snap[p..]);
    SnapSize(s);
  }

  lemma LogTailFits(s: State, p: nat)
    requires ConnGood(s.source.log, s.base, s.conn) && |Snap(s)| <= p <= |Stream(s)|
    requires s.conn.applied <= s.base + (p - |Snap(s)|)
    ensures F.TotalSize(Stream(s)[p..]) <= Guard.BUDGET
  {
    var k := s.base + (p - |Snap(s)|);
    assert Stream(s)[p..] == s.source.log[k..s.conn.sent];
    SizeSplit(s.source.log, s.conn.applied, k, s.conn.sent);
  }

  /** What is still owed of the snapshot and the log fits the budget. */
  lemma TailFits(s: State, p: nat)
    requires Good(s) && s.started && p == |s.processed| && p <= |Stream(s)|
    ensures F.TotalSize(Stream(s)[p..]) <= Guard.BUDGET
  {
    assert |Snap(s)| == Chunks(s) + 2;
    if p < |Snap(s)| {
      SnapTailFits(s, p);
    } else {
      LogTailFits(s, p);
    }
  }

  /** All the browser could still be owed fits its budget: what it has not applied is part of the snapshot, or was
      sent on credit and not yet acknowledged. */
  lemma OwedFits(s: State)
    requires Good(s) && s.started
    ensures F.TotalSize(s.client.inbox + s.wire) <= Guard.BUDGET
  {
    var p := |s.processed|;
    Owed(s);
    TailFits(s, p);
    F.TotalSizeAppend(s.client.inbox + s.wire, s.conn.toSend);
  }

  // ---- The viewer's task ----

  /** The turn sent the next frames of the stream and nothing else. */
  ghost predicate TurnFollows(s: State, t: Conn.Turn)
    requires s.base <= s.conn.sent <= |s.source.log|
  {
    && s.conn.sent <= t.next.sent <= |s.source.log|
    && t.wire + t.next.toSend == s.conn.toSend + s.source.log[s.conn.sent..t.next.sent]
  }

  lemma TurnKeepsWires(s: State, t: Conn.Turn, u: State)
    requires s.base <= s.conn.sent <= |s.source.log| && WiresGood(s) && TurnFollows(s, t)
    requires u == s.(conn := t.next, wire := s.wire + t.wire, acks := u.acks)
    ensures WiresGood(u)
  {
    var log := s.source.log;
    assert log[s.base..t.next.sent] == log[s.base..s.conn.sent] + log[s.conn.sent..t.next.sent];
    assert u.processed + u.client.inbox + u.wire + u.conn.toSend
        == s.processed + s.client.inbox + s.wire + (t.wire + t.next.toSend);
    assert Stream(s) + log[s.conn.sent..t.next.sent] == Snap(s) + log[s.base..t.next.sent];
  }

  lemma TurnKeeps(s: State, t: Conn.Turn, u: State)
    requires Good(s) && s.started && TurnFollows(s, t) && ConnGood(s.source.log, s.base, t.next)
    requires t.next.point != Conn.Unsubscribed
    requires u == s.(conn := t.next, wire := s.wire + t.wire, acks := u.acks) && AcksGood(u)
    ensures Good(u)
  {
    TurnKeepsWires(s, t, u);
  }

  lemma Nothing(log: seq<F.Frame>, i: nat, toSend: seq<F.Frame>)
    requires i <= |log|
    ensures [] + toSend == toSend + log[i..i]
  {
  }

  /** A turn that sends nothing and does not touch the acknowledgements. */
  lemma QuietTurn(s: State, t: Conn.Turn, u: State)
    requires Good(s) && s.started && ConnGood(s.source.log, s.base, t.next) && Idles(s.conn, t)
    requires u == s.(conn := t.next, wire := s.wire + t.wire)
    ensures Good(u)
  {
    Nothing(s.source.log, s.conn.sent, s.conn.toSend);
    TurnKeeps(s, t, u);
  }

  lemma CloseGood(s: State)
    requires Good(s) && s.started
    ensures ConnGood(s.source.log, s.base, s.conn.(point := Conn.Closed))
  {
  }

  lemma StartSends(s: State, t: Conn.Turn)
    requires Good(s) && s.started && s.conn.point == Conn.Starting && t == Conn.SendSnapshot(s.conn, true) && t.wire != []
    ensures ConnGood(s.source.log, s.base, t.next) && TurnFollows(s, t)
  {
    assert [s.conn.toSend[0]] + s.conn.toSend[1..] == s.conn.toSend;
    Nothing(s.source.log, s.conn.sent, s.conn.toSend);
  }

  lemma StartTurn(s: State, socket: bool, t: Conn.Turn, u: State)
    requires Good(s) && s.started && s.conn.point == Conn.Starting && t == Conn.SendSnapshot(s.conn, socket)
    requires u == s.(conn := t.next, wire := s.wire + t.wire)
    ensures Good(u)
  {
    if t.wire == [] {
      CloseGood(s);
      QuietTurn(s, t, u);
    } else {
      StartSends(s, t);
      TurnKeeps(s, t, u);
    }
  }

  lemma RefillStep(s: State, quit: bool, t: Conn.Turn, u: State)
    requires Good(s) && s.started && s.conn.point == Conn.Refill
    requires t == if quit then Conn.Close(s.conn) else Conn.RefillTurn(s.conn, s.source.ring)
    requires u == s.(conn := t.next, wire := s.wire + t.wire)
    ensures Good(u)
  {
    CloseGood(s);
    if !quit && s.conn.pending == [] {
      ExtendGood(s.who, s.source, s.base, s.conn, Conn.Deliver, t);
    }
    QuietTurn(s, t, u);
  }

  lemma DeliverStep(s: State, socket: bool, t: Conn.Turn, u: State)
    requires Good(s) && s.started && s.conn.point == Conn.Deliver && t == Conn.DeliverTurn(s.conn, socket)
    requires u == s.(conn := t.next, wire := s.wire + t.wire)
    ensures Good(u)
  {
    DeliverGood(s.source.log, s.base, s.conn, socket, t);
    assert s.conn.toSend == [];
    assert t.wire + [] == [] + s.source.log[s.conn.sent..t.next.sent];
    TurnKeeps(s, t, u);
  }

  lemma AckInRange(s: State, i: nat)
    requires Good(s) && s.started && i < |s.acks|
    ensures s.conn.applied <= s.acks[i] <= s.conn.sent
  {
    var k := s.base + (|s.processed| - Chunks(s) - 2);
    assert s.acks[i] == k - |s.acks| + 1 + i;
    assert |s.processed| <= |Stream(s)| && |Snap(s)| == Chunks(s) + 2;
  }

  lemma AckTaken(s: State, u: State)
    requires AcksGood(s) && s.acks != []
    requires u == s.(conn := u.conn, wire := u.wire, acks := s.acks[1..]) && u.conn.applied == s.acks[0]
    ensures AcksGood(u)
  {
  }

  lemma AckStep(s: State, t: Conn.Turn, u: State)
    requires Good(s) && s.started && s.conn.point == Conn.Wait && s.acks != [] && t == Conn.Acknowledge(s.conn, s.acks[0])
    requires u == s.(conn := t.next, wire := s.wire + t.wire, acks := s.acks[1..])
    ensures Good(u)
  {
    AckInRange(s, 0);
    AcknowledgeGood(s.source.log, s.base, s.conn, s.acks[0]);
    Nothing(s.source.log, s.conn.sent, s.conn.toSend);
    AckTaken(s, u);
    TurnKeeps(s, t, u);
  }

  lemma CursorGood(s: State, to: nat)
    requires Good(s) && s.started && s.conn.point == Conn.Wait && to <= |s.source.log|
    ensures s.conn.unacked < Conn.CREDIT ==> s.conn.pending == []
    ensures ConnGood(s.source.log, s.base, s.conn.(cursor := to, point := Conn.Refill))
  {
  }

  lemma LagStep(s: State, to: nat, t: Conn.Turn, u: State)
    requires Good(s) && s.started && s.conn.point == Conn.Wait && s.conn.unacked < Conn.CREDIT && to <= |s.source.log|
    requires t == Conn.Lagged(s.conn.(cursor := to), s.source.ring)
    requires u == s.(conn := t.next, wire := s.wire + t.wire)
    ensures Good(u)
  {
    CursorGood(s, to);
    LaggedGood(s.who, s.source, s.base, s.conn.(cursor := to), t);
    QuietTurn(s, t, u);
  }

  lemma EventStep(s: State, t: Conn.Turn, u: State)
    requires Good(s) && s.started && s.conn.point == Conn.Wait && s.conn.unacked < Conn.CREDIT
    requires s.conn.cursor < |s.source.log|
    requires t == Conn.Broadcast(s.conn.(cursor := s.conn.cursor + 1), s.source.log[s.conn.cursor], s.source.ring)
    requires u == s.(conn := t.next, wire := s.wire + t.wire)
    ensures Good(u)
  {
    CursorGood(s, s.conn.cursor + 1);
    BroadcastGood(s.who, s.source, s.base, s.conn.(cursor := s.conn.cursor + 1), s.conn.cursor, t);
    QuietTurn(s, t, u);
  }

  lemma MessageStep(s: State, t: Conn.Turn, u: State)
    requires Good(s) && s.started && s.conn.point == Conn.Wait && t == Conn.Backlog(s.conn)
    requires u == s.(conn := t.next, wire := s.wire + t.wire)
    ensures Good(u)
  {
    CursorGood(s, s.conn.cursor);
    BacklogGood(s.source.log, s.base, s.conn, t);
    QuietTurn(s, t, u);
  }

  lemma NoTurn(s: State, u: State)
    requires u == s.(conn := s.conn, wire := s.wire + [], acks := s.acks)
    ensures u == s
  {
    assert s.wire + [] == s.wire;
  }

  lemma WaitStep(s: State, pick: Pick, t: Conn.Turn, acks: seq<nat>, u: State)
    requires Good(s) && s.started && s.conn.point == Conn.Wait && WaitTurn(s, pick) == (t, acks)
    requires u == s.(conn := t.next, wire := s.wire + t.wire, acks := acks)
    ensures Good(u)
  {
    if WaitTurn(s, pick) == (Conn.Turn(s.conn, []), s.acks) {
      NoTurn(s, u);
    } else {
      match pick {
        case Quit =>
          CloseGood(s);
          QuietTurn(s, t, u);
        case Message => MessageStep(s, t, u);
        case TakeAck => AckStep(s, t, u);
        case TakeEvent => EventStep(s, t, u);
        case Lag => LagStep(s, |s.source.log| - SLOTS, t, u);
      }
    }
  }

  lemma ServerStep(s: State, quit: bool, socket: bool, pick: Pick, t: Conn.Turn, acks: seq<nat>, u: State)
    requires Good(s) && ServerTurn(s, quit, socket, pick) == (t, acks)
    requires u == s.(conn := t.next, wire := s.wire + t.wire, acks := acks)
    ensures Good(u)
  {
    if !s.started || s.conn.point == Conn.Closed || s.conn.point == Conn.Unsubscribed {
      NoTurn(s, u);
    } else {
      match s.conn.point {
        case Starting => StartTurn(s, socket, t, u);
        case Refill => RefillStep(s, quit, t, u);
        case Deliver => DeliverStep(s, socket, t, u);
        case Wait => WaitStep(s, pick, t, acks, u);
        case _ =>
      }
    }
  }

  lemma StepGood(s: State, a: Action, t: State)
    requires Good(s) && t == Step(s, a)
    ensures Good(t)
  {
    match a {
      case Read(bytes) =>
        if |bytes| <= F.MAX_PAYLOAD {
          IngestGood(s.who, s.source, bytes);
          LogStep(s, Source.Ingest(s.who, s.source, bytes), t);
        }
      case ResizeTo(cols, rows) =>
        if Guard.ValidSize(cols, rows) {
          ResizeGood(s.who, s.source, cols, rows);
          LogStep(s, Source.CommitResize(s.who, s.source, cols, rows), t);
        }
      case Subscribe(data, metaBytes) =>
        if s.conn.point == Conn.Unsubscribed && |metaBytes| <= Guard.MAX_META {
          SubscribeStep(s, data, metaBytes, t);
        }
      case Server(quit, socket, pick) =>
        var (turn, acks) := ServerTurn(s, quit, socket, pick);
        ServerStep(s, quit, socket, pick, turn, acks, t);
      case ClientReceives =>
        if s.started && s.wire != [] {
          OwedFits(s);
          HeadFits(s);
          ReceiveStep(s, t);
        }
      case ClientApplies =>
        if s.started && s.client.inbox != [] {
          ApplyStep(s, t);
        }
    }
  }

  lemma HeadFits(s: State)
    requires Good(s) && s.started && s.wire != [] && F.TotalSize(s.client.inbox + s.wire) <= Guard.BUDGET
    ensures s.client.budget + s.wire[0].Size() <= Guard.BUDGET
  {
    F.TotalSizeAppend(s.client.inbox, s.wire);
    SizeOfHead(s.wire);
  }

  // ---- Runs ----

  lemma {:induction false} RunGood(who: Guard.Identity, limit: nat, cols: nat, rows: nat, acts: seq<Action>)
    requires Guard.ValidSize(cols, rows)
    ensures Good(Run(Initial(who, limit, cols, rows), acts))
  {
    if acts != [] {
      RunGood(who, limit, cols, rows, acts[..|acts| - 1]);
      StepGood(Run(Initial(who, limit, cols, rows), acts[..|acts| - 1]), acts[|acts| - 1],
               Run(Initial(who, limit, cols, rows), acts));
    }
  }

  /** Against an honest agent the browser's guard never fails, its render budget is never exceeded, and the agent
      never meets a gap in what it is about to send, in any interleaving of reads, resizes, lagging broadcasts,
      sends and acknowledgements, for any ring size. */
  lemma NothingFails(who: Guard.Identity, limit: nat, cols: nat, rows: nat, acts: seq<Action>)
    requires Guard.ValidSize(cols, rows)
    ensures var s := Run(Initial(who, limit, cols, rows), acts);
            s.client.guard.phase != Guard.Failed && !s.client.closed && !s.conn.gap
  {
    RunGood(who, limit, cols, rows, acts);
  }

  /** Credit across the two languages: the bytes the agent counts as unacknowledged are those of the log it sent
      and was not acknowledged, at most 262143 + 32808; every acknowledgement on its way lies between `applied` and
      `sent`; and the next message always fits the browser's 5 MiB. */
  lemma CreditComposition(who: Guard.Identity, limit: nat, cols: nat, rows: nat, acts: seq<Action>)
    requires Guard.ValidSize(cols, rows)
    ensures var s := Run(Initial(who, limit, cols, rows), acts); var c := s.conn;
            s.started ==>
              && c.applied <= c.sent <= |s.source.log|
              && c.unacked == F.TotalSize(s.source.log[c.applied..c.sent]) <= 262143 + 32808
              && c.inflight == InflightOf(s.source.log, c.applied, c.sent)
              && (forall q :: q in s.acks ==> c.applied <= q <= c.sent)
              && (s.wire != [] ==> s.client.budget + s.wire[0].Size() <= Guard.BUDGET)
  {
    RunGood(who, limit, cols, rows, acts);
    var s := Run(Initial(who, limit, cols, rows), acts);
    if s.started {
      if s.wire != [] {
        OwedFits(s);
        HeadFits(s);
      }
      forall q | q in s.acks ensures s.conn.applied <= q <= s.conn.sent {
        var i :| 0 <= i < |s.acks| && s.acks[i] == q;
        AckInRange(s, i);
      }
    }
  }

  // ---- End to end ----

  /** The snapshot as the browser's terminal is told it. */
  function SnapOps(s: State): seq<TermOp> { OpsOf(Snap(s), s.meta) }

  lemma {:induction false} OpsAppend(a: seq<F.Frame>, b: seq<F.Frame>, meta: Guard.SnapshotMeta)
    ensures OpsOf(a + b, meta) == OpsOf(a, meta) + OpsOf(b, meta)
  {
    if b == [] {
      assert a + b == a;
    } else {
      assert (a + b)[..|a + b| - 1] == a + b[..|b| - 1];
      OpsAppend(a, b[..|b| - 1], meta);
    }
  }

  /** A live browser at sequence k has told its terminal exactly the snapshot taken at `base`, then the logged events
      base+1 to k: each once, in order, and nothing else. */
  lemma ExactReplay(who: Guard.Identity, limit: nat, cols: nat, rows: nat, acts: seq<Action>)
    requires Guard.ValidSize(cols, rows)
    ensures var s := Run(Initial(who, limit, cols, rows), acts); var k := s.client.guard.sequence;
            s.client.guard.phase == Guard.Live ==>
              && s.base <= k <= |s.source.log|
              && s.client.ops == SnapOps(s) + OpsOf(s.source.log[s.base..k], s.meta)
  {
    RunGood(who, limit, cols, rows, acts);
    var s := Run(Initial(who, limit, cols, rows), acts);
    if s.client.guard.phase == Guard.Live {
      LiveProcessed(s);
      OpsAppend(Snap(s), s.source.log[s.base..s.client.guard.sequence], s.meta);
    }
  }

  lemma JoinPrefix(a: seq<F.Frame>, log: seq<F.Frame>, i: nat, j: nat, n: nat)
    requires i <= j <= |log| && i + n <= j
    ensures (a + log[i..j])[..|a| + n] == a + log[i..i + n]
  {
    assert log[i..j][..n] == log[i..i + n];
  }

  lemma LiveStarted(s: State)
    requires Good(s) && s.client.guard.phase == Guard.Live
    ensures s.started && s.base <= s.conn.sent <= |s.source.log| && WiresGood(s) && ClientGood(s)
  {
  }

  lemma SnapCount(s: State)
    ensures |Snap(s)| == Chunks(s) + 2
  {
  }

  lemma LiveCount(s: State)
    requires ClientGood(s) && s.client.guard.phase == Guard.Live
    ensures |s.processed| >= |Snap(s)| && s.client.guard.sequence == s.base + (|s.processed| - |Snap(s)|)
  {
    SnapCount(s);
  }

  lemma ProcessedPrefix(s: State)
    requires s.base <= s.conn.sent <= |s.source.log| && WiresGood(s)
    ensures |s.processed| <= |Stream(s)| && s.processed == Stream(s)[..|s.processed|]
  {
    Associates(s.processed, s.client.inbox, s.wire);
    Associates(s.processed, s.client.inbox + s.wire, s.conn.toSend);
  }

  lemma LiveProcessed(s: State)
    requires Good(s) && s.client.guard.phase == Guard.Live
    ensures s.started && s.base <= s.client.guard.sequence <= s.conn.sent
    ensures s.processed == Snap(s) + s.source.log[s.base..s.client.guard.sequence]
  {
    LiveStarted(s);
    LiveCount(s);
    ProcessedPrefix(s);
    JoinPrefix(Snap(s), s.source.log, s.base, s.conn.sent, |s.processed| - |Snap(s)|);
  }
}
