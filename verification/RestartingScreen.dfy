/** What browser and agent show when their engine's parser starts a new sequence at every ESC: exactly when a snapshot
    between two tokens loses what that parser holds. */
module RestartingScreen {
  import opened Bytes
  import F = Frames
  import Fence
  import FenceTheory
  import FT = FenceTheorems
  import Guard
  import Source = OutputSource
  import Conn = Connection
  import opened OutputPath
  import T = OutputTheorems
  import OutputSizes
  import P = OutputProgress
  import V = OutputStalls
  import opened EngineTheorems
  import opened RestartingParser

  /** A screen that keeps the text outside sequences. */
  datatype Paper = Paper(cols: nat, rows: nat, mode: Mode, text: seq<Byte>)

  function Feed(p: Paper, b: Byte): Paper {
    p.(mode := Next(p.mode, b), text := if p.mode == Ground && b != ESC then p.text + [b] else p.text)
  }

  /** Its snapshot is its text: like any snapshot of whole sequences it says nothing of one that is unfinished. */
  function Typewriter(): Engine<Paper> {
    Engine((c: nat, r: nat) => Paper(c, r, Ground, []), Feed, (p: Paper, c: nat, r: nat) => p.(cols := c, rows := r),
           (p: Paper) => (p.cols, p.rows), (p: Paper) => p.text, (p: Paper) => p.mode == Ground && ESC !in p.text)
  }

  lemma {:induction false} Fed(p: Paper, s: seq<Byte>)
    ensures var q := Fold(Feed, p, s);
            && q.mode == Parse(p.mode, s) && q.cols == p.cols && q.rows == p.rows
            && (ESC !in p.text ==> ESC !in q.text)
            && (p.mode == Ground && ESC !in s ==> q.text == p.text + s)
  {
    if s == [] {
      assert p.text + [] == p.text;
    } else {
      var front, b := s[..|s| - 1], s[|s| - 1];
      Fed(p, front);
      if p.mode == Ground && ESC !in s {
        GroundStays(front);
        assert p.text + s == (p.text + front) + [b];
      }
    }
  }

  lemma TypewriterSized()
    ensures Sized(Typewriter())
  {
  }

  /** It is not among the engines that every token leaves at rest. */
  lemma TokensDoNotRest()
    ensures !Rests(Typewriter())
  {
    var e, t := Typewriter(), [ESC, ESC];
    TokensInTheMiddle();
    Fed(e.blank(80, 24), t);
    assert e.rest(e.blank(80, 24)) && FenceTheory.SafeToken(t) && !e.rest(Fold(e.feed, e.blank(80, 24), t));
  }

  /** Its snapshot restores exactly the screens with nothing unfinished. */
  lemma TextRestores(p: Paper)
    requires ESC !in p.text
    ensures Restores(Typewriter(), p, p.text) <==> p.mode == Ground
  {
    Fed(Paper(p.cols, p.rows, Ground, []), p.text);
    GroundStays(p.text);
    assert [] + p.text == p.text;
  }

  /** The output bytes of a log. */
  function Emitted(log: seq<F.Frame>): seq<Byte> {
    if log == [] then [] else
    Emitted(log[..|log| - 1]) + if log[|log| - 1].kind == F.OUTPUT then log[|log| - 1].payload else []
  }

  lemma {:induction false} LogMode(cols: nat, rows: nat, log: seq<F.Frame>)
    ensures var p := LogScreen(Typewriter(), cols, rows, log); p.mode == Parse(Ground, Emitted(log)) && ESC !in p.text
  {
    if log != [] {
      var front, f := log[..|log| - 1], log[|log| - 1];
      LogMode(cols, rows, front);
      if f.kind == F.OUTPUT {
        Fed(LogScreen(Typewriter(), cols, rows, front), f.payload);
        FoldAppend(Next, Ground, Emitted(front), f.payload);
      } else {
        assert Emitted(front) + [] == Emitted(front);
      }
    }
  }

  /** Exactly when snapshots work for this parser: if the output before the snapshot closes all it opens, a live browser
      shows the log at every sequence; and if it does not, the browser does not even show the agent's screen of the
      moment of the snapshot. */
  lemma RestartExactly(who: Guard.Identity, limit: nat, cols: nat, rows: nat, acts: seq<Action>, st: Paper)
    requires Guard.ValidSize(cols, rows) && Snapped(Typewriter(), who, limit, cols, rows, acts)
    ensures var s := Run(Initial(who, limit, cols, rows), acts); var k := s.client.guard.sequence; var e := Typewriter();
            s.client.guard.phase == Guard.Live ==>
              && s.base <= k <= |s.source.log|
              && (Closed(Emitted(s.source.log[..s.base])) ==>
                    Screen(e, st, s.client.ops) == LogScreen(e, cols, rows, s.source.log[..k]))
              && (k == s.base && !Closed(Emitted(s.source.log[..s.base])) ==>
                    Screen(e, st, s.client.ops) != LogScreen(e, cols, rows, s.source.log[..k]))
  {
    var e := Typewriter();
    var s := Run(Initial(who, limit, cols, rows), acts);
    TypewriterSized();
    SnapshotDecides(e, who, limit, cols, rows, acts, st);
    HandedAtBase(e, Snapping(e), who, limit, cols, rows, acts);
    if s.client.guard.phase == Guard.Live {
      T.RunGood(who, limit, cols, rows, acts);
      LiveParts(s);
      var at := LogScreen(e, cols, rows, s.source.log[..s.base]);
      LogMode(cols, rows, s.source.log[..s.base]);
      TextRestores(at);
      AtRestExactly(Emitted(s.source.log[..s.base]));
    }
  }

  // ---- A run that loses one ----

  const TWICE: seq<Byte> := [ESC, ESC]

  lemma TwiceReleased()
    ensures Fence.Release(Fence.FRESH, TWICE) == (Fence.FRESH, [TWICE])
  {
    TwoBytes(ESC);
    assert TWICE == [ESC, ESC];
    FT.ReleasedExactly(TWICE);
  }

  lemma TwiceLogged(who: Guard.Identity, src: Source.State)
    requires src.fence == Fence.FRESH && src.log == []
    ensures Source.Ingest(who, src, TWICE).log == [Source.OutputEvent(who, 1, TWICE)]
  {
    TwiceReleased();
    OutputSizes.OneLogged(who, src, TWICE, Fence.FRESH, TWICE);
  }

  /** The agent's screen after it, blank but inside a sequence. */
  lemma TwiceFed(p: Paper)
    requires p.mode == Ground
    ensures Fold(Feed, p, TWICE) == p.(mode := Escape)
  {
    FoldFront(Feed, p, ESC, [ESC]);
    FoldFront(Feed, Feed(p, ESC), ESC, []);
    assert TWICE == [ESC] + [ESC] && [ESC] == [ESC] + [];
  }

  lemma TwiceScreen(who: Guard.Identity, cols: nat, rows: nat)
    ensures var f := Source.OutputEvent(who, 1, TWICE);
            LogScreen(Typewriter(), cols, rows, [f]) == Paper(cols, rows, Escape, []) && Emitted([f]) == TWICE
  {
    var f := Source.OutputEvent(who, 1, TWICE);
    FollowMore(Typewriter(), Paper(cols, rows, Ground, []), [], f);
    assert [] + [f] == [f] && [f][..0] == [] && [] + TWICE == TWICE;
    TwiceFed(Paper(cols, rows, Ground, []));
  }

  lemma ReadTwice(who: Guard.Identity, limit: nat, cols: nat, rows: nat, s: State)
    requires s == Run(Initial(who, limit, cols, rows), [Read(TWICE)])
    ensures s.source.log == [Source.OutputEvent(who, 1, TWICE)] && s.conn == Conn.NEW && s.who == who && !s.started
  {
    FoldOne(Step, Initial(who, limit, cols, rows), [], Read(TWICE));
    assert [] + [Read(TWICE)] == [Read(TWICE)];
    TwiceLogged(who, Initial(who, limit, cols, rows).source);
  }

  /** A viewer that subscribes next is sent its snapshot, which is empty. */
  lemma TwiceSent(who: Guard.Identity, limit: nat, cols: nat, rows: nat, metaBytes: seq<Byte>) returns (acts: seq<Action>)
    requires Guard.ValidSize(cols, rows) && V.TypedRun(who, 1) && |metaBytes| <= Guard.MAX_META
    ensures var u := Run(Initial(who, limit, cols, rows), acts);
            && u.started && u.base == u.conn.sent == 1 && u.conn.toSend == []
            && u.source.log == [Source.OutputEvent(who, 1, TWICE)]
    ensures |acts| >= 2 && acts[0] == Read(TWICE) && acts[1] == Subscribe([], metaBytes) && V.TurnsOnly(acts[2..])
  {
    var start := Initial(who, limit, cols, rows);
    var s := Run(start, [Read(TWICE)]);
    ReadTwice(who, limit, cols, rows, s);
    T.RunGood(who, limit, cols, rows, [Read(TWICE)]);
    var sent, u := V.SnapshotSent(s, [], metaBytes);
    acts := V.Joined(start, [Read(TWICE)], s, sent, u);
    assert acts[2..] == sent[1..];
  }

  /** ESC ESC is one token, a viewer subscribes after it, and its browser goes live. */
  lemma TwiceLive(who: Guard.Identity, limit: nat, cols: nat, rows: nat, metaBytes: seq<Byte>) returns (acts: seq<Action>)
    requires Guard.ValidSize(cols, rows) && V.TypedRun(who, 1) && |metaBytes| <= Guard.MAX_META
    ensures |acts| >= 2 && acts[0] == Read(TWICE) && acts[1] == Subscribe([], metaBytes)
    ensures Snapped(Typewriter(), who, limit, cols, rows, acts)
    ensures var s := Run(Initial(who, limit, cols, rows), acts);
            && s.client.guard.phase == Guard.Live && s.client.guard.sequence == s.base == 1
            && s.source.log == [Source.OutputEvent(who, 1, TWICE)]
  {
    var sent := TwiceSent(who, limit, cols, rows, metaBytes);
    var more := P.BrowserCatchesUp(who, limit, cols, rows, sent);
    acts := sent + more;
    TwiceSnapped(who, limit, cols, rows, metaBytes, sent[2..] + more);
    assert acts == [Read(TWICE)] + [Subscribe([], metaBytes)] + (sent[2..] + more);
  }

  /** What the two screens show when the next thing the program writes is a control sequence's rest. */
  const REST: seq<Byte> := [0x5b, 0x31, 0x6d]

  /** Inside a sequence it ends one. */
  lemma RestEnds(p: Paper)
    requires p.mode == Escape
    ensures Fold(Feed, p, REST) == p.(mode := Ground)
  {
    var q := p.(mode := Csi);
    assert REST == [0x5b] + [0x31, 0x6d];
    FoldFront(Feed, p, 0x5b, [0x31, 0x6d]);
    ParametersEnd(q);
  }

  lemma ParametersEnd(q: Paper)
    requires q.mode == Csi
    ensures Fold(Feed, q, [0x31, 0x6d]) == q.(mode := Ground)
  {
    assert [0x31, 0x6d] == [0x31] + [0x6d] && [0x6d] == [0x6d] + [];
    FoldFront(Feed, q, 0x31, [0x6d]);
    FoldFront(Feed, q, 0x6d, []);
  }

  lemma RestFed(p: Paper)
    requires p.text == [] && (p.mode == Ground || p.mode == Escape)
    ensures Fold(Feed, p, REST).text == if p.mode == Ground then REST else []
  {
    if p.mode == Ground {
      Fed(p, REST);
      assert [] + REST == REST;
    } else {
      RestEnds(p);
    }
  }

  /** So a snapshot between two tokens can lose partial parser state: there is a run in which the fence has released
      ESC ESC, the browser is live at the end of the log and the snapshot was the engine's own, yet browser and agent
      are in different modes, and show different text after the same next output. */
  lemma TokenStateLost(who: Guard.Identity, limit: nat, cols: nat, rows: nat, metaBytes: seq<Byte>, st: Paper)
    returns (acts: seq<Action>)
    requires Guard.ValidSize(cols, rows) && V.TypedRun(who, 1) && |metaBytes| <= Guard.MAX_META
    ensures |acts| >= 2 && acts[0] == Read(TWICE) && acts[1] == Subscribe([], metaBytes)
    ensures Snapped(Typewriter(), who, limit, cols, rows, acts)
    ensures var e := Typewriter(); var s := Run(Initial(who, limit, cols, rows), acts);
            var browser, agent := Screen(e, st, s.client.ops), Model(e, who, limit, cols, rows, acts);
            && s.client.guard.phase == Guard.Live && s.client.guard.sequence == |s.source.log|
            && browser == Paper(cols, rows, Ground, []) && agent == Paper(cols, rows, Escape, [])
            && Fold(e.feed, browser, REST).text == REST && Fold(e.feed, agent, REST).text == []
  {
    acts := TwiceLive(who, limit, cols, rows, metaBytes);
    TwiceShown(who, limit, cols, rows, acts, st);
    RestFed(Paper(cols, rows, Ground, []));
    RestFed(Paper(cols, rows, Escape, []));
  }

  lemma TwiceShown(who: Guard.Identity, limit: nat, cols: nat, rows: nat, acts: seq<Action>, st: Paper)
    requires Guard.ValidSize(cols, rows) && Snapped(Typewriter(), who, limit, cols, rows, acts)
    requires var s := Run(Initial(who, limit, cols, rows), acts);
             && s.client.guard.phase == Guard.Live && s.client.guard.sequence == s.base == 1
             && s.source.log == [Source.OutputEvent(who, 1, TWICE)]
    ensures Screen(Typewriter(), st, Run(Initial(who, limit, cols, rows), acts).client.ops) == Paper(cols, rows, Ground, [])
    ensures Model(Typewriter(), who, limit, cols, rows, acts) == Paper(cols, rows, Escape, [])
  {
    var e, s := Typewriter(), Run(Initial(who, limit, cols, rows), acts);
    TypewriterSized();
    T.RunGood(who, limit, cols, rows, acts);
    LiveParts(s);
    AgentShowsLog(e, who, limit, cols, rows, acts);
    HandedAtBase(e, Snapping(e), who, limit, cols, rows, acts);
    BrowserShows(e, who, limit, cols, rows, acts, st);
    TwiceScreen(who, cols, rows);
    assert s.source.log[..1] == s.source.log && s.source.log[1..1] == [];
  }

  lemma TwiceModel(who: Guard.Identity, limit: nat, cols: nat, rows: nat)
    requires Guard.ValidSize(cols, rows)
    ensures Model(Typewriter(), who, limit, cols, rows, [Read(TWICE)]).text == []
  {
    ReadTwice(who, limit, cols, rows, Run(Initial(who, limit, cols, rows), [Read(TWICE)]));
    TypewriterSized();
    AgentShowsLog(Typewriter(), who, limit, cols, rows, [Read(TWICE)]);
    TwiceScreen(who, cols, rows);
  }

  lemma FirstSubscription(e: Engine<Paper>, given: (Paper, seq<Byte>) -> bool, who: Guard.Identity, limit: nat,
                          cols: nat, rows: nat, first: Action, data: seq<Byte>, metaBytes: seq<Byte>, more: seq<Action>)
    requires !first.Subscribe? && given(Model(e, who, limit, cols, rows, [first]), data)
    requires forall a :: a in more ==> !a.Subscribe?
    ensures Handed(e, given, who, limit, cols, rows, [first] + [Subscribe(data, metaBytes)] + more)
  {
    HandedMore(e, given, who, limit, cols, rows, [], first);
    assert [] + [first] == [first];
    HandedMore(e, given, who, limit, cols, rows, [first], Subscribe(data, metaBytes));
    HandedStill(e, given, who, limit, cols, rows, [first] + [Subscribe(data, metaBytes)], more);
  }

  lemma TwiceSnapped(who: Guard.Identity, limit: nat, cols: nat, rows: nat, metaBytes: seq<Byte>, more: seq<Action>)
    requires Guard.ValidSize(cols, rows) && forall a :: a in more ==> !a.Subscribe?
    ensures Snapped(Typewriter(), who, limit, cols, rows, [Read(TWICE)] + [Subscribe([], metaBytes)] + more)
  {
    TwiceModel(who, limit, cols, rows);
    FirstSubscription(Typewriter(), Snapping(Typewriter()), who, limit, cols, rows, Read(TWICE), [], metaBytes, more);
  }
}
