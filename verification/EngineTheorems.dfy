/** The terminal engine, kept abstract: what agent and browser show is a fold over what they were told. The browser's
    screen is the agent's if the snapshot it was handed restores the agent's screen of that moment. That is shown
    for engines that each whole token leaves in the middle of nothing; for parsers that are not of this kind see
    `RestartingScreen`. */
module EngineTheorems {
  import opened Bytes
  import F = Frames
  import opened Protocol
  import Fence
  import FenceTheory
  import FT = FenceTheorems
  import Guard
  import P = OutputProgress
  import opened OutputSizes
  import Source = OutputSource
  import Conn = Connection
  import opened OutputPath
  import opened OutputTheory
  import opened OutputTheorems

  /** A terminal engine over screens `S`; a screen includes what the parser holds of an unfinished sequence. `rest`
      says that it holds nothing. */
  datatype Engine<!S> = Engine(blank: (nat, nat) -> S, feed: (S, Byte) -> S, resize: (S, nat, nat) -> S,
                               size: S -> (nat, nat), snapshot: S -> seq<Byte>, rest: S -> bool)

  /** The size is what it was last set to. */
  ghost predicate Sized<S(!new)>(e: Engine<S>) {
    && (forall c: nat, r: nat :: e.size(e.blank(c, r)) == (c, r))
    && (forall st, b :: e.size(e.feed(st, b)) == e.size(st))
    && (forall st, c: nat, r: nat :: e.size(e.resize(st, c, r)) == (c, r))
  }

  // ---- Snapshots ----

  /** Fed to a blank screen of the same size, `data` restores the screen. */
  ghost predicate Restores<S(!new)>(e: Engine<S>, st: S, data: seq<Byte>) {
    Fold(e.feed, e.blank(e.size(st).0, e.size(st).1), data) == st
  }

  /** A whole token leaves a screen at rest at rest, and so does a resize. Not every parser is like this. */
  ghost predicate Rests<S(!new)>(e: Engine<S>) {
    && (forall c: nat, r: nat :: e.rest(e.blank(c, r)))
    && (forall st, c: nat, r: nat :: e.rest(st) ==> e.rest(e.resize(st, c, r)))
    && (forall st, t: seq<Byte> :: e.rest(st) && FenceTheory.SafeToken(t) ==> e.rest(Fold(e.feed, st, t)))
  }

  /** The snapshot of a screen at rest, fed to a blank screen of its size, restores it. Nothing is said of others. */
  ghost predicate Faithful<S(!new)>(e: Engine<S>) {
    && Sized(e) && Rests(e)
    && (forall st :: e.rest(st) ==> Restores(e, st, e.snapshot(st)))
  }

  // ---- The agent's screen ----

  /** The agent's screen after one action: `reader_loop` feeds it every token, `commit_resize` resizes it. */
  function ModelStep<S>(e: Engine<S>, s: State, m: S, a: Action): S {
    match a
    case Read(bytes) =>
      if |bytes| <= F.MAX_PAYLOAD then Fold(e.feed, m, Flatten(Fence.Release(s.source.fence, bytes).1)) else m
    case ResizeTo(cols, rows) => if Guard.ValidSize(cols, rows) then e.resize(m, cols, rows) else m
    case _ => m
  }

  function Model<S>(e: Engine<S>, who: Guard.Identity, limit: nat, cols: nat, rows: nat, acts: seq<Action>): S {
    if acts == [] then e.blank(cols, rows)
    else var before := acts[..|acts| - 1];
      ModelStep(e, Run(Initial(who, limit, cols, rows), before), Model(e, who, limit, cols, rows, before), acts[|acts| - 1])
  }

  /** The subscription that was served, if any, was handed a snapshot that is as `given` says for the agent's screen at
      that moment. */
  ghost predicate Handed<S(!new)>(e: Engine<S>, given: (S, seq<Byte>) -> bool, who: Guard.Identity, limit: nat,
                                  cols: nat, rows: nat, acts: seq<Action>) {
    acts == [] ||
    (var before := acts[..|acts| - 1]; var a := acts[|acts| - 1]; var start := Initial(who, limit, cols, rows);
     && Handed(e, given, who, limit, cols, rows, before)
     && (a.Subscribe? && !Run(start, before).started && Run(start, acts).started ==>
           given(Model(e, who, limit, cols, rows, before), a.data)))
  }

  ghost function Restoring<S(!new)>(e: Engine<S>): (S, seq<Byte>) -> bool { (st, data) => Restores(e, st, data) }

  ghost function Snapping<S(!new)>(e: Engine<S>): (S, seq<Byte>) -> bool { (st, data) => data == e.snapshot(st) }

  /** The snapshot handed out restored the agent's screen of that moment. */
  ghost predicate Honest<S(!new)>(e: Engine<S>, who: Guard.Identity, limit: nat, cols: nat, rows: nat, acts: seq<Action>) {
    Handed(e, Restoring(e), who, limit, cols, rows, acts)
  }

  /** The snapshot handed out was the engine's snapshot of the agent's screen of that moment. */
  ghost predicate Snapped<S(!new)>(e: Engine<S>, who: Guard.Identity, limit: nat, cols: nat, rows: nat, acts: seq<Action>) {
    Handed(e, Snapping(e), who, limit, cols, rows, acts)
  }

  // ---- Screens from events ----

  function See<S>(e: Engine<S>, st: S, f: F.Frame): S {
    if f.kind == F.OUTPUT then Fold(e.feed, st, f.payload)
    else if f.kind == F.RESIZE && |f.payload| == 4 then e.resize(st, Guard.U16(f.payload, 0), Guard.U16(f.payload, 2))
    else st
  }

  /** The screen after a list of events. */
  function Follow<S>(e: Engine<S>, st: S, log: seq<F.Frame>): S {
    if log == [] then st else See(e, Follow(e, st, log[..|log| - 1]), log[|log| - 1])
  }

  lemma FollowMore<S>(e: Engine<S>, st: S, log: seq<F.Frame>, f: F.Frame)
    ensures Follow(e, st, log + [f]) == See(e, Follow(e, st, log), f)
  {
    assert (log + [f])[..|log|] == log;
  }

  lemma {:induction false} FollowAppend<S>(e: Engine<S>, st: S, a: seq<F.Frame>, b: seq<F.Frame>)
    ensures Follow(e, st, a + b) == Follow(e, Follow(e, st, a), b)
  {
    if b == [] {
      assert a + b == a;
    } else {
      assert (a + b)[..|a + b| - 1] == a + b[..|b| - 1];
      FollowAppend(e, st, a, b[..|b| - 1]);
    }
  }

  /** The screen shown by a log of events, from a blank one. */
  function LogScreen<S>(e: Engine<S>, cols: nat, rows: nat, log: seq<F.Frame>): S { Follow(e, e.blank(cols, rows), log) }

  lemma LogScreenMore<S>(e: Engine<S>, cols: nat, rows: nat, log: seq<F.Frame>, f: F.Frame)
    ensures LogScreen(e, cols, rows, log + [f]) == See(e, LogScreen(e, cols, rows, log), f)
  {
    FollowMore(e, e.blank(cols, rows), log, f);
  }

  lemma {:induction false} FeedKeepsSize<S(!new)>(e: Engine<S>, st: S, bytes: seq<Byte>)
    requires Sized(e)
    ensures e.size(Fold(e.feed, st, bytes)) == e.size(st)
  {
    if bytes != [] {
      FeedKeepsSize(e, st, bytes[..|bytes| - 1]);
    }
  }

  // ---- One read ----

  /** Logging the payloads shows what feeding their bytes does. */
  lemma {:induction false} EmitAllShows<S>(e: Engine<S>, cols: nat, rows: nat, who: Guard.Identity, s: Source.State,
                                           ps: seq<seq<Byte>>)
    ensures var t := Source.EmitAll(who, s, ps);
            && LogScreen(e, cols, rows, t.log) == Fold(e.feed, LogScreen(e, cols, rows, s.log), Flatten(ps))
            && (t.cols, t.rows) == (s.cols, s.rows)
  {
    if ps != [] {
      var front, p := ps[..|ps| - 1], ps[|ps| - 1];
      EmitAllShows(e, cols, rows, who, s, front);
      var t := Source.EmitAll(who, s, front);
      LogScreenMore(e, cols, rows, t.log, Source.OutputEvent(who, |t.log| + 1, p));
      FoldAppend(e.feed, LogScreen(e, cols, rows, s.log), Flatten(front), p);
    }
  }

  lemma ReadShows<S>(e: Engine<S>, cols: nat, rows: nat, who: Guard.Identity, s: Source.State, bytes: seq<Byte>)
    ensures var t := Source.Ingest(who, s, bytes);
            && LogScreen(e, cols, rows, t.log)
               == Fold(e.feed, LogScreen(e, cols, rows, s.log), Flatten(Fence.Release(s.fence, bytes).1))
            && (t.cols, t.rows) == (s.cols, s.rows)
  {
    var (fence, tokens) := Fence.Release(s.fence, bytes);
    NoEmptyToken(Fence.Work(s.fence, [], []), bytes);
    Source.BatchExactly(tokens);
    EmitAllShows(e, cols, rows, who, s.(fence := fence), Source.Payloads(tokens));
  }

  lemma ResizeShows<S>(e: Engine<S>, cols: nat, rows: nat, who: Guard.Identity, s: Source.State, c: nat, r: nat)
    requires Guard.ValidSize(c, r)
    ensures LogScreen(e, cols, rows, Source.CommitResize(who, s, c, r).log) == e.resize(LogScreen(e, cols, rows, s.log), c, r)
  {
    var p := Source.ResizePayload(c, r);
    assert Guard.U16(p, 0) == c && Guard.U16(p, 2) == r;
    LogScreenMore(e, cols, rows, s.log, Source.ResizeEvent(who, |s.log| + 1, c, r));
  }

  // ---- At rest ----

  lemma {:induction false} TokensRest<S(!new)>(e: Engine<S>, st: S, tokens: seq<seq<Byte>>)
    requires Rests(e) && e.rest(st) && FenceTheory.AllSafe(tokens)
    ensures e.rest(Fold(e.feed, st, Flatten(tokens)))
  {
    if tokens != [] {
      var front, t := tokens[..|tokens| - 1], tokens[|tokens| - 1];
      TokensRest(e, st, front);
      FoldAppend(e.feed, st, Flatten(front), t);
    }
  }

  /** What the fence releases from one read leaves the engine at rest. */
  lemma ReadRests<S(!new)>(e: Engine<S>, st: S, f: Fence.State, bytes: seq<Byte>)
    requires Rests(e) && e.rest(st) && FenceTheory.Good(f)
    ensures e.rest(Fold(e.feed, st, Flatten(Fence.Release(f, bytes).1))) && FenceTheory.Good(Fence.Release(f, bytes).0)
  {
    FenceTheory.OneCall(FenceTheory.From(f), bytes);
    TokensRest(e, st, Fence.Release(f, bytes).1);
  }

  /** Whatever is read, however it is cut, and whenever a snapshot is asked for, the agent's screen is at rest then. */
  lemma {:induction false} AgentRests<S(!new)>(e: Engine<S>, who: Guard.Identity, limit: nat, cols: nat, rows: nat, acts: seq<Action>)
    requires Rests(e)
    ensures e.rest(Model(e, who, limit, cols, rows, acts))
    ensures FenceTheory.Good(Run(Initial(who, limit, cols, rows), acts).source.fence)
  {
    if acts != [] {
      var before, a := acts[..|acts| - 1], acts[|acts| - 1];
      AgentRests(e, who, limit, cols, rows, before);
      var s := Run(Initial(who, limit, cols, rows), before);
      StepRests(e, s, Model(e, who, limit, cols, rows, before), a);
    }
  }

  lemma StepRests<S(!new)>(e: Engine<S>, s: State, m: S, a: Action)
    requires Rests(e) && e.rest(m) && FenceTheory.Good(s.source.fence)
    ensures e.rest(ModelStep(e, s, m, a)) && FenceTheory.Good(Step(s, a).source.fence)
  {
    match a {
      case Read(bytes) =>
        if |bytes| <= F.MAX_PAYLOAD {
          ReadRests(e, m, s.source.fence, bytes);
          IngestFence(s.who, s.source, bytes);
        }
      case ResizeTo(c, r) =>
      case Subscribe(data, metaBytes) =>
      case _ => QuietActions(s, a);
    }
  }

  predicate SameSession(s: State, t: State) {
    && t.source == s.source && t.started == s.started && t.base == s.base && t.data == s.data && t.meta == s.meta
  }

  lemma QuietActions(s: State, a: Action)
    requires a.Server? || a.ClientReceives? || a.ClientApplies?
    ensures SameSession(s, Step(s, a))
  {
  }

  // ---- Every run ----

  /** The agent's screen is what its log shows, and the viewer was handed what `given` says for the screen at `base`. */
  ghost predicate ScreensGood<S(!new)>(e: Engine<S>, given: (S, seq<Byte>) -> bool, cols: nat, rows: nat, s: State, m: S) {
    && m == LogScreen(e, cols, rows, s.source.log)
    && e.size(m) == (s.source.cols, s.source.rows)
    && (s.started ==>
        && s.base <= |s.source.log|
        && given(LogScreen(e, cols, rows, s.source.log[..s.base]), s.data)
        && e.size(LogScreen(e, cols, rows, s.source.log[..s.base])) == (s.meta.cols, s.meta.rows))
  }

  /** An action that only extends the log. */
  lemma ScreensGrow<S(!new)>(e: Engine<S>, given: (S, seq<Byte>) -> bool, cols: nat, rows: nat, s: State, m: S,
                             src: Source.State, n: S)
    requires ScreensGood(e, given, cols, rows, s, m) && s.source.log <= src.log
    requires n == LogScreen(e, cols, rows, src.log) && e.size(n) == (src.cols, src.rows)
    ensures ScreensGood(e, given, cols, rows, s.(source := src), n)
  {
    if s.started {
      assert src.log[..s.base] == s.source.log[..s.base];
    }
  }

  lemma SubscribeScreens<S(!new)>(e: Engine<S>, given: (S, seq<Byte>) -> bool, cols: nat, rows: nat, s: State, m: S,
                                  data: seq<Byte>, metaBytes: seq<Byte>)
    requires ScreensGood(e, given, cols, rows, s, m) && !s.started
    requires SubscribeAt(s, data, metaBytes).started ==> given(m, data)
    ensures ScreensGood(e, given, cols, rows, SubscribeAt(s, data, metaBytes), m)
  {
    assert s.source.log[..|s.source.log|] == s.source.log;
  }

  lemma StepScreens<S(!new)>(e: Engine<S>, given: (S, seq<Byte>) -> bool, cols: nat, rows: nat, s: State, m: S, a: Action)
    requires Sized(e) && Good(s) && ScreensGood(e, given, cols, rows, s, m)
    requires a.Subscribe? && !s.started && Step(s, a).started ==> given(m, a.data)
    ensures ScreensGood(e, given, cols, rows, Step(s, a), ModelStep(e, s, m, a))
  {
    match a {
      case Read(bytes) =>
        if |bytes| <= F.MAX_PAYLOAD {
          ReadShows(e, cols, rows, s.who, s.source, bytes);
          IngestGood(s.who, s.source, bytes);
          FeedKeepsSize(e, m, Flatten(Fence.Release(s.source.fence, bytes).1));
          ScreensGrow(e, given, cols, rows, s, m, Source.Ingest(s.who, s.source, bytes), ModelStep(e, s, m, a));
        }
      case ResizeTo(c, r) =>
        if Guard.ValidSize(c, r) {
          ResizeShows(e, cols, rows, s.who, s.source, c, r);
          ScreensGrow(e, given, cols, rows, s, m, Source.CommitResize(s.who, s.source, c, r), ModelStep(e, s, m, a));
        }
      case Subscribe(data, metaBytes) =>
        if s.conn.point == Conn.Unsubscribed && |metaBytes| <= Guard.MAX_META {
          SubscribeScreens(e, given, cols, rows, s, m, data, metaBytes);
        }
      case _ => QuietActions(s, a);
    }
  }

  lemma {:induction false} RunScreens<S(!new)>(e: Engine<S>, given: (S, seq<Byte>) -> bool, who: Guard.Identity, limit: nat,
                                               cols: nat, rows: nat, acts: seq<Action>)
    requires Sized(e) && Guard.ValidSize(cols, rows) && Handed(e, given, who, limit, cols, rows, acts)
    ensures ScreensGood(e, given, cols, rows, Run(Initial(who, limit, cols, rows), acts),
                        Model(e, who, limit, cols, rows, acts))
  {
    if acts != [] {
      var before, a := acts[..|acts| - 1], acts[|acts| - 1];
      RunScreens(e, given, who, limit, cols, rows, before);
      RunGood(who, limit, cols, rows, before);
      StepScreens(e, given, cols, rows, Run(Initial(who, limit, cols, rows), before),
                  Model(e, who, limit, cols, rows, before), a);
    }
  }

  // ---- The browser's screen ----

  function Told<S>(e: Engine<S>, st: S, op: TermOp): S {
    match op
    case Reset(cols, rows) => e.blank(cols, rows)
    case Write(bytes) => Fold(e.feed, st, bytes)
    case Resize(cols, rows) => e.resize(st, cols, rows)
  }

  /** The browser's screen after `ops`, from whatever it showed before. */
  function Screen<S>(e: Engine<S>, st: S, ops: seq<TermOp>): S {
    if ops == [] then st else Told(e, Screen(e, st, ops[..|ops| - 1]), ops[|ops| - 1])
  }

  lemma {:induction false} ScreenAppend<S>(e: Engine<S>, st: S, a: seq<TermOp>, b: seq<TermOp>)
    ensures Screen(e, st, a + b) == Screen(e, Screen(e, st, a), b)
  {
    if b == [] {
      assert a + b == a;
    } else {
      assert (a + b)[..|a + b| - 1] == a + b[..|b| - 1];
      ScreenAppend(e, st, a, b[..|b| - 1]);
    }
  }

  lemma ScreenOne<S>(e: Engine<S>, st: S, op: TermOp)
    ensures Screen(e, st, [op]) == Told(e, st, op)
  {
    assert [op][..0] == [];
  }

  /** The live part shows what the events show. */
  lemma {:induction false} LogTold<S>(e: Engine<S>, st: S, who: Guard.Identity, meta: Guard.SnapshotMeta, fs: seq<F.Frame>)
    requires forall f :: f in fs ==> IsEvent(who, f)
    ensures Screen(e, st, OpsOf(fs, meta)) == Follow(e, st, fs)
  {
    if fs != [] {
      var gs, f := fs[..|fs| - 1], fs[|fs| - 1];
      assert fs == gs + [f] && f in fs;
      LogTold(e, st, who, meta, gs);
      OneMoreTold(e, st, who, gs, f, meta);
    }
  }

  lemma OneMoreTold<S>(e: Engine<S>, st: S, who: Guard.Identity, fs: seq<F.Frame>, f: F.Frame, meta: Guard.SnapshotMeta)
    requires IsEvent(who, f)
    ensures Screen(e, st, OpsOf(fs + [f], meta)) == See(e, Screen(e, st, OpsOf(fs, meta)), f)
  {
    OpsOneMore(fs, f, meta);
    ScreenAppend(e, st, OpsOf(fs, meta), OpOf(f, meta));
    EventTold(e, Screen(e, st, OpsOf(fs, meta)), who, f, meta);
  }

  lemma EventTold<S>(e: Engine<S>, st: S, who: Guard.Identity, f: F.Frame, meta: Guard.SnapshotMeta)
    requires IsEvent(who, f)
    ensures Screen(e, st, OpOf(f, meta)) == See(e, st, f)
  {
    ScreenOne(e, st, OpOf(f, meta)[0]);
    assert OpOf(f, meta) == [OpOf(f, meta)[0]];
  }

  /** The first `n` snapshot chunks. */
  function ChunkFrames(s: State, n: nat): seq<F.Frame>
    requires n <= Chunks(s)
  {
    seq(n, i requires 0 <= i < n => Conn.ChunkFrame(s.who, s.base, s.data, i))
  }

  lemma WriteTold<S>(e: Engine<S>, st: S, fs: seq<F.Frame>, f: F.Frame, meta: Guard.SnapshotMeta)
    requires f.kind == F.SNAPSHOT_CHUNK
    ensures Screen(e, st, OpsOf(fs + [f], meta)) == Fold(e.feed, Screen(e, st, OpsOf(fs, meta)), f.payload)
  {
    OpsOneMore(fs, f, meta);
    ScreenAppend(e, st, OpsOf(fs, meta), [Write(f.payload)]);
    ScreenOne(e, Screen(e, st, OpsOf(fs, meta)), Write(f.payload));
  }

  lemma ReachedMore(data: seq<Byte>, i: nat)
    requires i < Conn.ChunkCount(data)
    ensures Reached(data, i) <= |data| && Reached(data, i + 1) <= |data|
    ensures data[..Reached(data, i + 1)] == data[..Reached(data, i)] + Conn.Chunk(data, i)
  {
    ChunkReached(data, i);
    assert i * 32768 < |data|;
  }

  lemma {:induction false} ChunksTold<S>(e: Engine<S>, st: S, s: State, n: nat)
    requires n <= Chunks(s)
    ensures Screen(e, st, OpsOf(ChunkFrames(s, n), s.meta)) == Fold(e.feed, st, s.data[..Reached(s.data, n)])
  {
    if n == 0 {
      assert s.data[..0] == [];
    } else {
      var f := Conn.ChunkFrame(s.who, s.base, s.data, n - 1);
      ReachedMore(s.data, n - 1);
      var done := s.data[..Reached(s.data, n - 1)];
      calc {
        Screen(e, st, OpsOf(ChunkFrames(s, n), s.meta));
        { ChunkFramesMore(s, n - 1); }
        Screen(e, st, OpsOf(ChunkFrames(s, n - 1) + [f], s.meta));
        { WriteTold(e, st, ChunkFrames(s, n - 1), f, s.meta); }
        Fold(e.feed, Screen(e, st, OpsOf(ChunkFrames(s, n - 1), s.meta)), f.payload);
        { ChunksTold(e, st, s, n - 1); }
        Fold(e.feed, Fold(e.feed, st, done), f.payload);
        { FoldAppend(e.feed, st, done, f.payload); }
        Fold(e.feed, st, done + f.payload);
      }
    }
  }

  lemma ChunkFramesMore(s: State, i: nat)
    requires i < Chunks(s)
    ensures ChunkFrames(s, i + 1) == ChunkFrames(s, i) + [Conn.ChunkFrame(s.who, s.base, s.data, i)]
  {
  }

  lemma AllReached(data: seq<Byte>)
    ensures data[..Reached(data, Conn.ChunkCount(data))] == data
  {
    var n := Conn.ChunkCount(data);
    if n == 0 {
      NoChunks(data);
    } else {
      ChunkReached(data, n - 1);
    }
  }

  lemma OpsOfOne(f: F.Frame, meta: Guard.SnapshotMeta)
    ensures OpsOf([f], meta) == OpOf(f, meta)
  {
    OpsOneMore([], f, meta);
    assert [] + [f] == [f];
    assert OpsOf([], meta) + OpOf(f, meta) == OpOf(f, meta);
  }

  lemma OpsOfThree(a: F.Frame, b: seq<F.Frame>, c: F.Frame, meta: Guard.SnapshotMeta)
    ensures OpsOf([a] + b + [c], meta) == OpOf(a, meta) + OpsOf(b, meta) + OpOf(c, meta)
  {
    OpsOneMore([a] + b, c, meta);
    OpsAppend([a], b, meta);
    OpsOfOne(a, meta);
  }

  lemma SnapOpsShape(s: State)
    requires MetaGood(s)
    ensures SnapOps(s) == [Reset(s.meta.cols, s.meta.rows)] + OpsOf(ChunkFrames(s, Chunks(s)), s.meta)
  {
    var first, last := Conn.MetaFrame(s.who, s.base, s.metaBytes), Conn.EndFrame(s.who, s.base);
    OpsOfThree(first, ChunkFrames(s, Chunks(s)), last, s.meta);
    assert Snap(s) == [first] + ChunkFrames(s, Chunks(s)) + [last];
  }

  /** The snapshot's frames reset the screen and feed it the snapshot. */
  lemma SnapTold<S>(e: Engine<S>, st: S, s: State)
    requires MetaGood(s)
    ensures Screen(e, st, SnapOps(s)) == Fold(e.feed, e.blank(s.meta.cols, s.meta.rows), s.data)
  {
    var reset, blank := [Reset(s.meta.cols, s.meta.rows)], e.blank(s.meta.cols, s.meta.rows);
    var ops := OpsOf(ChunkFrames(s, Chunks(s)), s.meta);
    calc {
      Screen(e, st, SnapOps(s));
      { SnapOpsShape(s); ScreenAppend(e, st, reset, ops); }
      Screen(e, Screen(e, st, reset), ops);
      { ScreenOne(e, st, reset[0]); }
      Screen(e, blank, ops);
      { ChunksTold(e, blank, s, Chunks(s)); AllReached(s.data); }
      Fold(e.feed, blank, s.data);
    }
  }

  lemma AllEvents(who: Guard.Identity, src: Source.State, i: nat, j: nat)
    requires SourceGood(who, src) && i <= j <= |src.log|
    ensures forall f :: f in src.log[i..j] ==> IsEvent(who, f)
  {
  }

  /** The snapshot the viewer was handed, as it shows on a blank screen. */
  function Restored<S>(e: Engine<S>, s: State): S
    requires s.meta.cols >= 0 && s.meta.rows >= 0
  {
    Fold(e.feed, e.blank(s.meta.cols, s.meta.rows), s.data)
  }

  /** Whatever the engine and the snapshot are: a live browser at sequence k shows the snapshot followed by the events
      after it, whatever it showed before. */
  lemma BrowserShows<S>(e: Engine<S>, who: Guard.Identity, limit: nat, cols: nat, rows: nat, acts: seq<Action>, st: S)
    requires Guard.ValidSize(cols, rows)
    ensures var s := Run(Initial(who, limit, cols, rows), acts); var k := s.client.guard.sequence;
            s.client.guard.phase == Guard.Live ==>
              && s.base <= k <= |s.source.log| && s.meta.cols >= 0 && s.meta.rows >= 0
              && Screen(e, st, s.client.ops) == Follow(e, Restored(e, s), s.source.log[s.base..k])
  {
    RunGood(who, limit, cols, rows, acts);
    var s := Run(Initial(who, limit, cols, rows), acts);
    var k := s.client.guard.sequence;
    if s.client.guard.phase == Guard.Live {
      ExactReplay(who, limit, cols, rows, acts);
      LiveParts(s);
      var live := s.source.log[s.base..k];
      AllEvents(s.who, s.source, s.base, k);
      SnapTold(e, st, s);
      ScreenAppend(e, st, SnapOps(s), OpsOf(live, s.meta));
      LogTold(e, Restored(e, s), s.who, s.meta, live);
    }
  }

  /** The screen at `k` is the screen at `base` followed by the events between. */
  lemma LogScreenSplit<S>(e: Engine<S>, cols: nat, rows: nat, log: seq<F.Frame>, base: nat, k: nat)
    requires base <= k <= |log|
    ensures LogScreen(e, cols, rows, log[..k]) == Follow(e, LogScreen(e, cols, rows, log[..base]), log[base..k])
  {
    assert log[..k] == log[..base] + log[base..k];
    FollowAppend(e, e.blank(cols, rows), log[..base], log[base..k]);
  }

  /** What holds for any snapshot: the agent shows its log, and the viewer was told the agent's size. */
  lemma AgentShowsLog<S(!new)>(e: Engine<S>, who: Guard.Identity, limit: nat, cols: nat, rows: nat, acts: seq<Action>)
    requires Sized(e) && Guard.ValidSize(cols, rows)
    ensures var s := Run(Initial(who, limit, cols, rows), acts);
            && Model(e, who, limit, cols, rows, acts) == LogScreen(e, cols, rows, s.source.log)
            && (s.started ==>
                  && s.base <= |s.source.log|
                  && e.size(LogScreen(e, cols, rows, s.source.log[..s.base])) == (s.meta.cols, s.meta.rows))
  {
    HandedAnything(e, who, limit, cols, rows, acts);
    RunScreens(e, Anything(), who, limit, cols, rows, acts);
  }

  function Anything<S(!new)>(): (S, seq<Byte>) -> bool { (st, data) => true }

  lemma {:induction false} HandedAnything<S(!new)>(e: Engine<S>, who: Guard.Identity, limit: nat, cols: nat, rows: nat,
                                                   acts: seq<Action>)
    ensures Handed(e, Anything(), who, limit, cols, rows, acts)
  {
    if acts != [] {
      HandedAnything(e, who, limit, cols, rows, acts[..|acts| - 1]);
    }
  }

  lemma HandedMore<S(!new)>(e: Engine<S>, given: (S, seq<Byte>) -> bool, who: Guard.Identity, limit: nat,
                            cols: nat, rows: nat, acts: seq<Action>, a: Action)
    requires Handed(e, given, who, limit, cols, rows, acts)
    requires a.Subscribe? ==> given(Model(e, who, limit, cols, rows, acts), a.data)
    ensures Handed(e, given, who, limit, cols, rows, acts + [a])
  {
    assert (acts + [a])[..|acts|] == acts;
  }

  /** Without a subscription nothing more is handed out. */
  lemma {:induction false} HandedStill<S(!new)>(e: Engine<S>, given: (S, seq<Byte>) -> bool, who: Guard.Identity, limit: nat,
                                                cols: nat, rows: nat, acts: seq<Action>, more: seq<Action>)
    requires Handed(e, given, who, limit, cols, rows, acts) && forall a :: a in more ==> !a.Subscribe?
    ensures Handed(e, given, who, limit, cols, rows, acts + more)
  {
    if more == [] {
      assert acts + more == acts;
    } else {
      var front, a := more[..|more| - 1], more[|more| - 1];
      assert acts + more == (acts + front) + [a] && a in more;
      HandedStill(e, given, who, limit, cols, rows, acts, front);
      HandedMore(e, given, who, limit, cols, rows, acts + front, a);
    }
  }

  /** What was handed out is what it was handed out as, for the screen the log shows at `base`. */
  lemma HandedAtBase<S(!new)>(e: Engine<S>, given: (S, seq<Byte>) -> bool, who: Guard.Identity, limit: nat,
                              cols: nat, rows: nat, acts: seq<Action>)
    requires Sized(e) && Guard.ValidSize(cols, rows) && Handed(e, given, who, limit, cols, rows, acts)
    ensures var s := Run(Initial(who, limit, cols, rows), acts);
            s.started ==> s.base <= |s.source.log| && given(LogScreen(e, cols, rows, s.source.log[..s.base]), s.data)
  {
    RunScreens(e, given, who, limit, cols, rows, acts);
  }

  /** A snapshot that restores the screen at `base` is enough for every later event; and for the screen at `base`
      itself nothing less is. */
  lemma SnapshotDecides<S(!new)>(e: Engine<S>, who: Guard.Identity, limit: nat, cols: nat, rows: nat, acts: seq<Action>, st: S)
    requires Sized(e) && Guard.ValidSize(cols, rows)
    ensures var s := Run(Initial(who, limit, cols, rows), acts); var k := s.client.guard.sequence;
            s.client.guard.phase == Guard.Live ==>
              && s.base <= k <= |s.source.log|
              && var restored := Restores(e, LogScreen(e, cols, rows, s.source.log[..s.base]), s.data);
                 && (restored ==> Screen(e, st, s.client.ops) == LogScreen(e, cols, rows, s.source.log[..k]))
                 && (k == s.base && !restored ==> Screen(e, st, s.client.ops) != LogScreen(e, cols, rows, s.source.log[..k]))
  {
    var s := Run(Initial(who, limit, cols, rows), acts);
    RunGood(who, limit, cols, rows, acts);
    BrowserShows(e, who, limit, cols, rows, acts, st);
    AgentShowsLog(e, who, limit, cols, rows, acts);
    if s.client.guard.phase == Guard.Live {
      LiveParts(s);
      LogScreenSplit(e, cols, rows, s.source.log, s.base, s.client.guard.sequence);
      assert s.source.log[s.base..s.base] == [];
    }
  }

  /** A live browser at sequence k shows what the whole log up to k shows from the session's blank screen, however
      the reads, resizes, lagging broadcasts, sends and acknowledgements interleaved, whatever the browser showed
      before, and although it never saw the log before `base`. When k is the end of the log that is the agent's
      own screen. Of the engine nothing is assumed but its size, and of the snapshot that it restored the agent's
      screen when it was taken. */
  lemma SameScreen<S(!new)>(e: Engine<S>, who: Guard.Identity, limit: nat, cols: nat, rows: nat, acts: seq<Action>, st: S)
    requires Sized(e) && Guard.ValidSize(cols, rows) && Honest(e, who, limit, cols, rows, acts)
    ensures var s := Run(Initial(who, limit, cols, rows), acts); var k := s.client.guard.sequence;
            s.client.guard.phase == Guard.Live ==>
              && k <= |s.source.log|
              && Screen(e, st, s.client.ops) == LogScreen(e, cols, rows, s.source.log[..k])
              && (k == |s.source.log| ==> Screen(e, st, s.client.ops) == Model(e, who, limit, cols, rows, acts))
  {
    var s := Run(Initial(who, limit, cols, rows), acts);
    HandedAtBase(e, Restoring(e), who, limit, cols, rows, acts);
    SnapshotDecides(e, who, limit, cols, rows, acts, st);
    AgentShowsLog(e, who, limit, cols, rows, acts);
    if s.client.guard.phase == Guard.Live {
      RunGood(who, limit, cols, rows, acts);
      LiveParts(s);
      assert s.source.log[..|s.source.log|] == s.source.log;
    }
  }

  /** When everything is quiet the browser shows the agent's screen, for every ring that holds the last event. */
  lemma QuietScreen<S(!new)>(e: Engine<S>, who: Guard.Identity, limit: nat, cols: nat, rows: nat, acts: seq<Action>, st: S)
    requires Sized(e) && Guard.ValidSize(cols, rows) && Honest(e, who, limit, cols, rows, acts)
    requires P.Quiet(Run(Initial(who, limit, cols, rows), acts))
    ensures var s := Run(Initial(who, limit, cols, rows), acts);
            P.RingHolds(limit, s.source.log) ==> Screen(e, st, s.client.ops) == Model(e, who, limit, cols, rows, acts)
  {
    P.QuietIsComplete(who, limit, cols, rows, acts);
    SameScreen(e, who, limit, cols, rows, acts, st);
  }

  // ---- Engines that every token leaves at rest ----

  lemma {:induction false} SnapshotsRestore<S(!new)>(e: Engine<S>, who: Guard.Identity, limit: nat, cols: nat, rows: nat,
                                                     acts: seq<Action>)
    requires Faithful(e) && Snapped(e, who, limit, cols, rows, acts)
    ensures Honest(e, who, limit, cols, rows, acts)
  {
    if acts != [] {
      var before := acts[..|acts| - 1];
      SnapshotsRestore(e, who, limit, cols, rows, before);
      AgentRests(e, who, limit, cols, rows, before);
    }
  }

  /** For an engine that whole tokens leave at rest, and whose snapshots restore screens at rest, the snapshots do
      what `SameScreen` asks: the fence feeds it nothing but whole tokens. */
  lemma SameScreenAtRest<S(!new)>(e: Engine<S>, who: Guard.Identity, limit: nat, cols: nat, rows: nat, acts: seq<Action>, st: S)
    requires Faithful(e) && Guard.ValidSize(cols, rows) && Snapped(e, who, limit, cols, rows, acts)
    ensures var s := Run(Initial(who, limit, cols, rows), acts); var k := s.client.guard.sequence;
            s.client.guard.phase == Guard.Live ==>
              && k <= |s.source.log|
              && Screen(e, st, s.client.ops) == LogScreen(e, cols, rows, s.source.log[..k])
              && (k == |s.source.log| ==> Screen(e, st, s.client.ops) == Model(e, who, limit, cols, rows, acts))
  {
    SnapshotsRestore(e, who, limit, cols, rows, acts);
    SameScreen(e, who, limit, cols, rows, acts, st);
  }

  lemma LiveParts(s: State)
    requires Good(s) && s.client.guard.phase == Guard.Live
    ensures s.started && SourceGood(s.who, s.source) && MetaGood(s)
  {
  }

  // ---- An engine of this kind ----

  /** A screen that is the bytes it was fed. */
  datatype Tape = Tape(cols: nat, rows: nat, bytes: seq<Byte>)

  /** No sequence and no scalar is unfinished at the end of these bytes. */
  predicate Finished(bytes: seq<Byte>) {
    var f := Fence.Release(Fence.FRESH, bytes).0; f.mode == Fence.Ground && f.utf8 == []
  }

  /** The engine that records, and snapshots nothing in the middle of a sequence. */
  function Recorder(): Engine<Tape> {
    Engine((c: nat, r: nat) => Tape(c, r, []), (t: Tape, b: Byte) => t.(bytes := t.bytes + [b]),
           (t: Tape, c: nat, r: nat) => t.(cols := c, rows := r), (t: Tape) => (t.cols, t.rows),
           (t: Tape) => if Finished(t.bytes) then t.bytes else [], (t: Tape) => Finished(t.bytes))
  }

  lemma {:induction false} Recorded(t: Tape, bytes: seq<Byte>)
    ensures Fold(Recorder().feed, t, bytes) == t.(bytes := t.bytes + bytes)
  {
    if bytes == [] {
      assert t.bytes + bytes == t.bytes;
    } else {
      Recorded(t, bytes[..|bytes| - 1]);
      assert t.bytes + bytes == t.bytes + bytes[..|bytes| - 1] + [bytes[|bytes| - 1]];
    }
  }

  lemma FinishedMore(bytes: seq<Byte>, t: seq<Byte>)
    requires Finished(bytes) && FenceTheory.SafeToken(t)
    ensures Finished(bytes + t)
  {
    var start := FenceTheory.From(Fence.FRESH);
    var mid := FenceTheory.Read(start, bytes);
    FenceTheory.OneCall(start, bytes);
    FenceTheory.OneCall(start, bytes + t);
    FT.ReadAppend(start, bytes, t);
    assert mid.fence == Fence.Rest(mid.fence.omitted);
    FT.TokenReplay(mid.fence.omitted, t);
    FenceTheory.ReadShift(mid, FenceTheory.From(mid.fence), t);
  }

  /** It meets the hypothesis of `SameScreenAtRest`, although it has screens that no snapshot restores. */
  lemma RecorderFaithful()
    ensures Faithful(Recorder())
    ensures var t := Tape(80, 24, [ESC]);
            !Recorder().rest(t) && Fold(Recorder().feed, Recorder().blank(80, 24), Recorder().snapshot(t)) != t
  {
    var e := Recorder();
    assert Finished([]);
    forall st, t: seq<Byte> | e.rest(st) && FenceTheory.SafeToken(t) ensures e.rest(Fold(e.feed, st, t)) {
      Recorded(st, t);
      FinishedMore(st.bytes, t);
    }
    forall st | e.rest(st) ensures Restores(e, st, e.snapshot(st)) {
      Recorded(e.blank(st.cols, st.rows), st.bytes);
      assert [] + st.bytes == st.bytes;
    }
    EscapeUnfinished();
    Recorded(e.blank(80, 24), []);
  }

  lemma EscapeUnfinished()
    ensures !Finished([ESC])
  {
    FoldOne(Fence.Advance, Fence.Work(Fence.FRESH, [], []), [], ESC);
    assert [] + [ESC] == [ESC];
  }
}
