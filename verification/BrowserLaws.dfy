/** What a browser does with anything an agent may send: packages/terminal-client/src/terminal.ts, the message handler,
    with packages/core/src/snapshot.ts. */
module BrowserLaws {
  import opened Bytes
  import F = Frames
  import opened Protocol
  import Guard
  import opened OutputPath
  import opened GuardLaws

  /** A browser, and what it accepted so far. */
  datatype Viewer = Viewer(s: State, accepted: seq<Item>)

  /** Any frame may arrive, and the oldest one may be taken up, whose payload reads as any metadata. */
  datatype Event = Arrives(f: F.Frame) | TakenUp(metaBytes: seq<Byte>, meta: Guard.SnapshotMeta)

  function Happens(v: Viewer, e: Event): Viewer {
    match e
    case Arrives(f) => v.(s := Receive(v.s.(wire := [f])))
    case TakenUp(metaBytes, meta) =>
      var s := v.s.(metaBytes := metaBytes, meta := meta);
      var c := s.client;
      var t := ApplyNext(s);
      var more := if t.processed == s.processed then [] else [Item(c.inbox[0], Parsed(s, c.inbox[0]))];
      Viewer(t, v.accepted + more)
  }

  /** What the terminal is told of the accepted frames. */
  function Told(items: seq<Item>): seq<TermOp> {
    if items == [] then [] else Told(items[..|items| - 1]) + ToldOne(items[|items| - 1])
  }

  function ToldOne(i: Item): seq<TermOp> {
    OpOf(i.frame, if i.parsed.Some? then i.parsed.value else Guard.SnapshotMeta(0, 0, 0, 0, 0, 0))
  }

  ghost predicate Fresh(v: Viewer) {
    v.accepted == [] && v.s.client == Client(Guard.NEW, 0, [], [], false)
  }

  /** The bytes taken are those of the frames not yet taken up, within the budget; everything accepted is a stream as it
      should be; the terminal was told of nothing else. */
  ghost predicate Sane(v: Viewer) {
    var c := v.s.client;
    && (!c.closed ==> c.budget == F.TotalSize(c.inbox) && c.guard == After(Guard.NEW, v.s.who, v.accepted))
    && F.TotalSize(c.inbox) <= Guard.BUDGET
    && AcceptsAll(Guard.NEW, v.s.who, v.accepted)
    && c.ops == Told(v.accepted)
  }

  lemma ArriveSane(v: Viewer, f: F.Frame)
    requires Sane(v)
    ensures Sane(Happens(v, Arrives(f)))
  {
    F.TotalSizeAppend(v.s.client.inbox, [f]);
    F.TotalSizeOne(f);
    assert [f][0] == f;
  }

  lemma {:induction false} AcceptsOneMore(g: Guard.State, who: Guard.Identity, items: seq<Item>, i: Item)
    ensures AcceptsAll(g, who, items + [i]) <==>
            AcceptsAll(g, who, items) && Guard.Checked(After(g, who, items), i.frame, i.parsed, who).1.Accepted?
    ensures After(g, who, items + [i]) == Guard.Checked(After(g, who, items), i.frame, i.parsed, who).0
    decreases |items|
  {
    if items == [] {
      assert [] + [i] == [i] && [i][1..] == [];
    } else {
      assert (items + [i])[1..] == items[1..] + [i];
      AcceptsOneMore(Guard.Checked(g, items[0].frame, items[0].parsed, who).0, who, items[1..], i);
    }
  }

  lemma ToldMore(items: seq<Item>, i: Item)
    ensures Told(items + [i]) == Told(items) + ToldOne(i)
  {
    assert (items + [i])[..|items|] == items;
  }

  lemma OpOfItem(f: F.Frame, parsed: Option<Guard.SnapshotMeta>, meta: Guard.SnapshotMeta)
    requires f.kind == F.SNAPSHOT_META ==> parsed == Some(meta)
    ensures OpOf(f, meta) == ToldOne(Item(f, parsed))
  {
  }

  lemma TakeSane(v: Viewer, metaBytes: seq<Byte>, meta: Guard.SnapshotMeta)
    requires Sane(v)
    ensures Sane(Happens(v, TakenUp(metaBytes, meta)))
  {
    var s := v.s.(metaBytes := metaBytes, meta := meta);
    var c := s.client;
    assert v.accepted + [] == v.accepted;
    if c.inbox != [] && !c.closed {
      var i := Item(c.inbox[0], Parsed(s, c.inbox[0]));
      HeadOff(c.inbox);
      if Guard.Checked(c.guard, i.frame, i.parsed, s.who).1.Accepted? {
        AcceptsOneMore(Guard.NEW, s.who, v.accepted, i);
        ToldMore(v.accepted, i);
        MetaParsed(c.guard, i, s.who);
        OpOfItem(i.frame, i.parsed, meta);
      }
    }
  }

  lemma HeadOff(fs: seq<F.Frame>)
    requires fs != []
    ensures F.TotalSize(fs) == fs[0].Size() + F.TotalSize(fs[1..])
  {
  }

  lemma MetaParsed(g: Guard.State, i: Item, who: Guard.Identity)
    requires Guard.Checked(g, i.frame, i.parsed, who).1.Accepted?
    ensures i.frame.kind == F.SNAPSHOT_META ==> i.parsed.Some?
  {
  }

  function Through(v: Viewer, events: seq<Event>): Viewer { Fold(Happens, v, events) }

  lemma {:induction false} AlwaysSane(v: Viewer, events: seq<Event>)
    requires Fresh(v)
    ensures Sane(Through(v, events)) && Through(v, events).s.who == v.s.who
  {
    if events != [] {
      var before, e := Through(v, events[..|events| - 1]), events[|events| - 1];
      AlwaysSane(v, events[..|events| - 1]);
      match e {
        case Arrives(f) => ArriveSane(before, f);
        case TakenUp(metaBytes, meta) => TakeSane(before, metaBytes, meta);
      }
    }
  }

  /** Whatever frames arrive, a browser never keeps more than 5 MiB of them, and its terminal is told only of a stream as it
      should be, or of the beginning of one, frame by frame. */
  lemma AnyAgent(v: Viewer, events: seq<Event>)
    requires Fresh(v)
    ensures var u := Through(v, events);
            && F.TotalSize(u.s.client.inbox) <= Guard.BUDGET
            && (u.accepted == [] || Stream(v.s.who, u.accepted))
            && u.s.client.ops == Told(u.accepted)
  {
    AlwaysSane(v, events);
    AcceptsExactly(v.s.who, Through(v, events).accepted);
  }

  /** A frame is taken in, after those that wait, exactly if it fits beside them; otherwise the socket is closed. */
  lemma OverflowExactly(v: Viewer, events: seq<Event>, f: F.Frame)
    requires Fresh(v) && !Through(v, events).s.client.closed
    ensures var c, d := Through(v, events).s.client, Happens(Through(v, events), Arrives(f)).s.client;
            && (d.closed <==> F.TotalSize(c.inbox) + f.Size() > Guard.BUDGET)
            && d.inbox == if d.closed then c.inbox else c.inbox + [f]
  {
    AlwaysSane(v, events);
    assert [f][0] == f;
  }
}
