/** What the output path gets done: a viewer is not left waiting for something unsent, unless the ring is too small for
    the largest event, and a browser needs nobody else to apply what was sent. */
module OutputProgress {
  import opened Bytes
  import F = Frames
  import Guard
  import Ring
  import Source = OutputSource
  import Conn = Connection
  import opened OutputPath
  import opened OutputTheory
  import opened OutputSizes
  import opened OutputTheorems

  // ---- Waiting ----

  /** Everything was sent, or an event is waiting in the viewer's queue, or the last event did not fit the ring. */
  predicate Served(src: Source.State, c: Conn.State) {
    c.sent == |src.log| || c.cursor < |src.log| || Ring.LostAll(src.log, src.limit)
  }

  /** Nothing is left in hand when the viewer's task starts to wait, unless it has no credit. */
  predicate Prompt(s: State) {
    && (s.conn.point == Conn.Deliver && s.conn.pending == [] ==> Served(s.source, s.conn))
    && (s.conn.point == Conn.Wait && s.conn.unacked < Conn.CREDIT ==> Served(s.source, s.conn))
  }

  /** A longer log is a fuller queue. */
  lemma PromptGrows(s: State, src: Source.State, t: State)
    requires Good(s) && Prompt(s) && t == s.(source := src)
    requires s.source.log <= src.log && src.limit == s.source.limit
    ensures Prompt(t)
  {
    if |src.log| == |s.source.log| {
      assert src.log == s.source.log;
    }
  }

  /** Where the task goes after a turn that did not leave it waiting or about to send. */
  predicate Elsewhere(c: Conn.State) { c.point != Conn.Deliver && c.point != Conn.Wait }

  lemma ElsewherePrompt(s: State)
    requires Elsewhere(s.conn)
    ensures Prompt(s)
  {
  }

  lemma StartElsewhere(c: Conn.State, socket: bool)
    requires c.point == Conn.Starting
    ensures Elsewhere(Conn.SendSnapshot(c, socket).next)
  {
  }

  /** An empty answer of the ring means that nothing is missing, or that the ring was lost. */
  lemma AnswerServed(src: Source.State, sent: nat)
    requires F.Numbered(src.log) && src.ring == Ring.Contents(src.log, src.limit) && sent <= |src.log|
    requires Ring.Answer(src.ring, sent) == Ring.Events([])
    ensures sent == |src.log| || Ring.LostAll(src.log, src.limit)
  {
    var k := Ring.AfterExactly(src.log, src.limit, sent);
    assert sent < |src.log| ==> src.log[sent..] != [];
  }

  lemma RefillPrompt(src: Source.State, c: Conn.State, t: Conn.State)
    requires F.Numbered(src.log) && src.ring == Ring.Contents(src.log, src.limit) && c.sent <= |src.log|
    requires t == Conn.RefillTurn(c, src.ring).next && t.point == Conn.Deliver && t.pending == []
    ensures Served(src, t)
  {
    assert c.pending == [];
    AnswerServed(src, c.sent);
  }

  lemma DeliverPrompt(c: Conn.State, socket: bool, t: Conn.State)
    requires c.point == Conn.Deliver && t == Conn.DeliverTurn(c, socket).next
    ensures Elsewhere(t) || (t == c.(point := Conn.Wait) && (t.unacked < Conn.CREDIT ==> c.pending == []))
  {
  }

  lemma WaitPrompt(s: State, pick: Pick)
    requires s.conn.point == Conn.Wait
    ensures var t := WaitTurn(s, pick).0.next; t == s.conn || Elsewhere(t)
  {
  }

  lemma ServerPrompt(s: State, quit: bool, socket: bool, pick: Pick, t: Conn.Turn, acks: seq<nat>, u: State)
    requires SourceGood(s.who, s.source) && (s.conn.point == Conn.Refill ==> s.conn.sent <= |s.source.log|)
    requires Prompt(s) && ServerTurn(s, quit, socket, pick) == (t, acks)
    requires u == s.(conn := t.next, wire := s.wire + t.wire, acks := acks)
    ensures Prompt(u)
  {
    if Elsewhere(t.next) {
      ElsewherePrompt(u);
    } else if s.conn.point == Conn.Starting {
      StartElsewhere(s.conn, socket);
    } else if s.conn.point == Conn.Refill {
      if t.next.pending == [] {
        RefillPrompt(s.source, s.conn, t.next);
      }
    } else if s.conn.point == Conn.Deliver {
      DeliverPrompt(s.conn, socket, t.next);
    } else if s.conn.point == Conn.Wait {
      WaitPrompt(s, pick);
    }
  }

  lemma ReadPrompt(s: State, bytes: seq<Byte>, t: State)
    requires Good(s) && Prompt(s) && t == Step(s, Read(bytes))
    ensures Prompt(t)
  {
    if |bytes| <= F.MAX_PAYLOAD {
      IngestGood(s.who, s.source, bytes);
      IngestFence(s.who, s.source, bytes);
      PromptGrows(s, t.source, t);
    }
  }

  lemma ResizePrompt(s: State, cols: nat, rows: nat, t: State)
    requires Good(s) && Prompt(s) && t == Step(s, ResizeTo(cols, rows))
    ensures Prompt(t)
  {
    if Guard.ValidSize(cols, rows) {
      ResizeGood(s.who, s.source, cols, rows);
      PromptGrows(s, t.source, t);
    }
  }

  lemma SubscribePrompt(s: State, data: seq<Byte>, metaBytes: seq<Byte>, t: State)
    requires Prompt(s) && t == Step(s, Subscribe(data, metaBytes))
    ensures Prompt(t)
  {
  }

  lemma ClientPrompt(s: State, a: Action, t: State)
    requires Prompt(s) && (a.ClientReceives? || a.ClientApplies?) && t == Step(s, a)
    ensures Prompt(t)
  {
    assert t.conn == s.conn && t.source == s.source;
  }

  lemma StepPrompt(s: State, a: Action, t: State)
    requires Good(s) && Prompt(s) && t == Step(s, a)
    ensures Prompt(t)
  {
    match a {
      case Read(bytes) => ReadPrompt(s, bytes, t);
      case ResizeTo(cols, rows) => ResizePrompt(s, cols, rows, t);
      case Subscribe(data, metaBytes) => SubscribePrompt(s, data, metaBytes, t);
      case Server(quit, socket, pick) =>
        var (turn, acks) := ServerTurn(s, quit, socket, pick);
        ServerPrompt(s, quit, socket, pick, turn, acks, t);
      case _ => ClientPrompt(s, a, t);
    }
  }

  lemma {:induction false} RunPrompt(who: Guard.Identity, limit: nat, cols: nat, rows: nat, acts: seq<Action>)
    requires Guard.ValidSize(cols, rows)
    ensures Prompt(Run(Initial(who, limit, cols, rows), acts))
  {
    if acts != [] {
      var before := Run(Initial(who, limit, cols, rows), acts[..|acts| - 1]);
      RunPrompt(who, limit, cols, rows, acts[..|acts| - 1]);
      RunGood(who, limit, cols, rows, acts[..|acts| - 1]);
      StepPrompt(before, acts[|acts| - 1], Run(Initial(who, limit, cols, rows), acts));
    }
  }

  /** The ring keeps at least its last event: it is large enough for any, or for this one. */
  predicate RingHolds(limit: nat, log: seq<F.Frame>) { limit >= LARGEST_EVENT || !Ring.LostAll(log, limit) }

  /** No lost wake-up: a viewer that waits with credit was sent everything, or has an event waiting in its queue, for
      every ring of at least 98345 bytes, and for a smaller one unless the last event alone did not fit it. */
  lemma NeverStalls(who: Guard.Identity, limit: nat, cols: nat, rows: nat, acts: seq<Action>)
    requires Guard.ValidSize(cols, rows)
    ensures var s := Run(Initial(who, limit, cols, rows), acts); var c := s.conn;
            RingHolds(limit, s.source.log) && c.point == Conn.Wait && c.unacked < Conn.CREDIT ==>
              c.sent == |s.source.log| || c.cursor < |s.source.log|
  {
    RunPrompt(who, limit, cols, rows, acts);
    EventBound(who, limit, cols, rows, acts);
    if limit >= LARGEST_EVENT {
      RingKept(who, limit, cols, rows, acts);
    }
  }

  // ---- When everything is quiet ----

  /** The viewer's task waits with an empty queue, and nothing is on its way. */
  predicate Quiet(s: State) {
    && s.conn.point == Conn.Wait && s.conn.cursor == |s.source.log|
    && s.wire == [] && s.client.inbox == [] && s.acks == []
  }

  lemma QuietIsLive(s: State)
    requires Good(s) && Quiet(s)
    ensures s.started && s.client.guard.phase == Guard.Live && s.client.guard.sequence == s.conn.sent && s.conn.unacked == 0
  {
    assert s.processed + [] + [] + [] == s.processed;
    assert |Snap(s)| == Chunks(s) + 2;
    assert s.conn.applied == s.conn.sent;
    assert s.source.log[s.conn.sent..s.conn.sent] == [];
  }

  /** When everything is quiet the browser has applied the whole log. So no acknowledgement, event or byte of credit is
      ever lost for good. */
  lemma QuietIsComplete(who: Guard.Identity, limit: nat, cols: nat, rows: nat, acts: seq<Action>)
    requires Guard.ValidSize(cols, rows) && Quiet(Run(Initial(who, limit, cols, rows), acts))
    ensures var s := Run(Initial(who, limit, cols, rows), acts);
            && s.client.guard.phase == Guard.Live
            && (RingHolds(limit, s.source.log) ==> s.client.guard.sequence == |s.source.log|)
  {
    RunGood(who, limit, cols, rows, acts);
    QuietIsLive(Run(Initial(who, limit, cols, rows), acts));
    NeverStalls(who, limit, cols, rows, acts);
  }

  // ---- The browser on its own ----

  /** The agent's side is untouched. */
  predicate SameAgent(s: State, t: State) {
    t.conn == s.conn && t.source == s.source && t.started == s.started && t.base == s.base
  }

  /** `n` messages were received between `s` and `t`. */
  predicate Received(s: State, t: State, n: nat) {
    SameAgent(s, t) && |t.wire| + n == |s.wire| && |t.client.inbox| == |s.client.inbox| + n
  }

  /** `n` messages were applied. */
  predicate Applied(s: State, t: State, n: nat) {
    SameAgent(s, t) && t.wire == s.wire && |t.client.inbox| + n == |s.client.inbox|
  }

  /** The browser is able to take the next message from the wire, and to apply the next one it has. */
  predicate Able(s: State) {
    && !s.client.closed
    && (s.wire != [] ==> s.client.budget + s.wire[0].Size() <= Guard.BUDGET)
    && (s.client.inbox != [] ==>
          var f := s.client.inbox[0];
          Guard.Checked(s.client.guard, f, Parsed(s, f), s.who).1.Accepted? && f.Size() <= s.client.budget)
  }

  lemma GoodIsAble(s: State)
    requires Good(s) && s.started
    ensures Able(s)
  {
    if s.wire != [] {
      OwedFits(s);
      HeadFits(s);
    }
    if s.client.inbox != [] {
      HeadOfInbox(s);
      NextAccepted(s, s.client.inbox[0], Parsed(s, s.client.inbox[0]));
      SizeOfHead(s.client.inbox);
    }
  }

  lemma ReceiveOne(s: State, t: State)
    requires Able(s) && s.wire != [] && t == Step(s, ClientReceives)
    ensures Received(s, t, 1)
  {
  }

  lemma ApplyOne(s: State, t: State)
    requires Able(s) && s.client.inbox != [] && t == Step(s, ClientApplies)
    ensures Applied(s, t, 1)
  {
  }

  /** Actions of the browser alone. */
  predicate BrowserOnly(acts: seq<Action>) { forall a :: a in acts ==> a.ClientReceives? || a.ClientApplies? }

  /** The browser receives everything that is on the wire. */
  lemma {:induction false} DrainWire(s: State) returns (acts: seq<Action>, t: State)
    requires Good(s) && s.started
    ensures BrowserOnly(acts) && t == Run(s, acts) && Good(t) && SameAgent(s, t) && t.wire == []
    decreases |s.wire|
  {
    if s.wire == [] {
      acts, t := [], s;
    } else {
      var u := Step(s, ClientReceives);
      GoodIsAble(s);
      ReceiveOne(s, u);
      StepGood(s, ClientReceives, u);
      var more: seq<Action>;
      more, t := DrainWire(u);
      FoldFront(Step, s, ClientReceives, more);
      acts := [ClientReceives] + more;
    }
  }

  /** The browser applies everything it has received. */
  lemma {:induction false} DrainInbox(s: State) returns (acts: seq<Action>, t: State)
    requires Good(s) && s.started
    ensures BrowserOnly(acts) && t == Run(s, acts) && Good(t) && SameAgent(s, t) && t.wire == s.wire && t.client.inbox == []
    decreases |s.client.inbox|
  {
    if s.client.inbox == [] {
      acts, t := [], s;
    } else {
      var u := Step(s, ClientApplies);
      GoodIsAble(s);
      ApplyOne(s, u);
      StepGood(s, ClientApplies, u);
      var more: seq<Action>;
      more, t := DrainInbox(u);
      FoldFront(Step, s, ClientApplies, more);
      acts := [ClientApplies] + more;
    }
  }

  lemma AppliedAll(s: State)
    requires Good(s) && s.started && s.wire == [] && s.client.inbox == [] && s.conn.toSend == []
    ensures s.client.guard.phase == Guard.Live && s.client.guard.sequence == s.conn.sent
  {
    assert s.processed + [] + [] + [] == s.processed;
    assert |Snap(s)| == Chunks(s) + 2;
  }

  lemma CatchUp(s: State) returns (acts: seq<Action>, t: State)
    requires Good(s) && s.started
    ensures BrowserOnly(acts) && t == Run(s, acts) && Good(t) && SameAgent(s, t) && t.wire == [] && t.client.inbox == []
    ensures s.conn.toSend == [] ==> t.client.guard.phase == Guard.Live && t.client.guard.sequence == s.conn.sent
  {
    var received, mid := DrainWire(s);
    var applied: seq<Action>;
    applied, t := DrainInbox(mid);
    acts := received + applied;
    FoldAppend(Step, s, received, applied);
    if t.conn.toSend == [] {
      AppliedAll(t);
    }
  }

  /** From wherever a run has led, the browser alone can get to the end of what was sent: once the whole snapshot was
      sent it ends live, at the last sequence sent. */
  lemma BrowserCatchesUp(who: Guard.Identity, limit: nat, cols: nat, rows: nat, acts: seq<Action>) returns (more: seq<Action>)
    requires Guard.ValidSize(cols, rows) && Run(Initial(who, limit, cols, rows), acts).started
    ensures var start := Initial(who, limit, cols, rows); var s := Run(start, acts); var t := Run(start, acts + more);
            && BrowserOnly(more) && SameAgent(s, t) && t.wire == [] && t.client.inbox == []
            && (s.conn.toSend == [] ==> t.client.guard.phase == Guard.Live && t.client.guard.sequence == s.conn.sent)
  {
    RunGood(who, limit, cols, rows, acts);
    var t: State;
    more, t := CatchUp(Run(Initial(who, limit, cols, rows), acts));
    FoldAppend(Step, Initial(who, limit, cols, rows), acts, more);
  }
}
