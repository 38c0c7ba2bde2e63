/** What any browser can do to a viewer's task, and what ends the task: crates/rc-agent/src/ws.rs, `terminal`. */
module ConnectionLaws {
  import opened Bytes
  import F = Frames
  import opened Protocol
  import Codec
  import Ring
  import Guard
  import Source = OutputSource
  import Conn = Connection
  import opened OutputPath
  import opened OutputTheory
  import opened OutputTheorems

  // ---- Acknowledgements that nobody vouches for ----

  /** The system next to everything the agent ever sent to this viewer. */
  datatype Host = Host(s: State, out: seq<F.Frame>)

  /** An action before which somebody replaces the acknowledgements on their way by whatever he likes. */
  datatype Forged = Forged(acks: seq<nat>, action: Action)

  function Sent(s: State, a: Action): seq<F.Frame> {
    if a.Server? then ServerTurn(s, a.quit, a.socket, a.pick).0.wire else []
  }

  function HostStep(h: Host, f: Forged): Host {
    var s := h.s.(acks := f.acks);
    Host(Step(s, f.action), h.out + Sent(s, f.action))
  }

  ghost predicate Serving(s: State) {
    SourceGood(s.who, s.source) && s.started && s.conn.point != Conn.Unsubscribed && ConnGood(s.source.log, s.base, s.conn)
  }

  ghost predicate HostGood(h: Host) {
    var s := h.s;
    if s.started then Serving(s) && h.out + s.conn.toSend == Stream(s)
    else SourceGood(s.who, s.source) && s.conn.point in {Conn.Unsubscribed, Conn.Closed}
         && s.conn == Conn.NEW.(point := s.conn.point) && h.out == []
  }

  /** The turn keeps the books and sends what comes next. */
  ghost predicate Serves(s: State, t: Conn.Turn)
    requires s.base <= s.conn.sent <= |s.source.log|
  {
    t.next.point != Conn.Unsubscribed && ConnGood(s.source.log, s.base, t.next) && TurnFollows(s, t)
  }

  lemma IdleServes(s: State, t: Conn.Turn)
    requires Serving(s) && ConnGood(s.source.log, s.base, t.next) && Idles(s.conn, t)
    ensures Serves(s, t)
  {
    Nothing(s.source.log, s.conn.sent, s.conn.toSend);
  }

  lemma ClosedServes(s: State)
    requires Serving(s)
    ensures Serves(s, Conn.Close(s.conn))
  {
    IdleServes(s, Conn.Close(s.conn));
  }

  lemma SameServes(s: State)
    requires Serving(s)
    ensures Serves(s, Conn.Turn(s.conn, []))
  {
    Nothing(s.source.log, s.conn.sent, s.conn.toSend);
  }

  lemma SnapshotServes(s: State, socket: bool, t: Conn.Turn)
    requires Serving(s) && s.conn.point == Conn.Starting && t == Conn.SendSnapshot(s.conn, socket)
    ensures Serves(s, t)
  {
    if t.wire == [] {
      IdleServes(s, t);
    } else {
      assert [s.conn.toSend[0]] + s.conn.toSend[1..] == s.conn.toSend;
      Nothing(s.source.log, s.conn.sent, s.conn.toSend);
    }
  }

  lemma RefillServes(s: State, t: Conn.Turn)
    requires Serving(s) && s.conn.point == Conn.Refill && t == Conn.RefillTurn(s.conn, s.source.ring)
    ensures Serves(s, t)
  {
    if s.conn.pending == [] {
      ExtendGood(s.who, s.source, s.base, s.conn, Conn.Deliver, t);
    }
    IdleServes(s, t);
  }

  lemma DeliverServes(s: State, socket: bool, t: Conn.Turn)
    requires Serving(s) && s.conn.point == Conn.Deliver && t == Conn.DeliverTurn(s.conn, socket)
    ensures Serves(s, t)
  {
    DeliverGood(s.source.log, s.base, s.conn, socket, t);
    assert t.wire + [] == [] + s.source.log[s.conn.sent..t.next.sent];
  }

  /** Whatever number is acknowledged: in range, exactly what was sent up to it is settled; out of range, the viewer is
      dropped. Either way no credit is gained that was not earned. */
  lemma AnyAck(s: State, q: nat, t: Conn.Turn)
    requires Serving(s) && s.conn.point == Conn.Wait && t == Conn.Acknowledge(s.conn, q)
    ensures Serves(s, t)
    ensures s.conn.applied <= q <= s.conn.sent ==>
              t.next.applied == q && t.next.unacked == F.TotalSize(s.source.log[q..s.conn.sent])
              && (t.next.point == Conn.Closed <==> F.TotalSize(s.conn.pending) > Conn.BACKLOG)
    ensures !(s.conn.applied <= q <= s.conn.sent) ==> t == Conn.Close(s.conn)
  {
    if s.conn.applied <= q <= s.conn.sent {
      AcknowledgeGood(s.source.log, s.base, s.conn, q);
      Nothing(s.source.log, s.conn.sent, s.conn.toSend);
    } else {
      ClosedServes(s);
    }
  }

  lemma EventServes(s: State, t: Conn.Turn)
    requires Serving(s) && s.conn.point == Conn.Wait && s.conn.unacked < Conn.CREDIT && s.conn.cursor < |s.source.log|
    requires t == Conn.Broadcast(s.conn.(cursor := s.conn.cursor + 1), s.source.log[s.conn.cursor], s.source.ring)
    ensures Serves(s, t)
  {
    BroadcastGood(s.who, s.source, s.base, s.conn.(cursor := s.conn.cursor + 1), s.conn.cursor, t);
    IdleServes(s, t);
  }

  lemma LagServes(s: State, to: nat, t: Conn.Turn)
    requires Serving(s) && s.conn.point == Conn.Wait && s.conn.unacked < Conn.CREDIT && to <= |s.source.log|
    requires t == Conn.Lagged(s.conn.(cursor := to), s.source.ring)
    ensures Serves(s, t)
  {
    LaggedGood(s.who, s.source, s.base, s.conn.(cursor := to), t);
    IdleServes(s, t);
  }

  lemma PickServes(s: State, pick: Pick, t: Conn.Turn)
    requires Serving(s) && s.conn.point == Conn.Wait && (pick.Quit? || pick.Message?) && t == WaitTurn(s, pick).0
    ensures Serves(s, t)
  {
    if pick.Quit? {
      ClosedServes(s);
    } else {
      BacklogGood(s.source.log, s.base, s.conn, t);
      IdleServes(s, t);
    }
  }

  lemma WaitServes(s: State, pick: Pick, t: Conn.Turn, acks: seq<nat>)
    requires Serving(s) && s.conn.point == Conn.Wait && WaitTurn(s, pick) == (t, acks)
    ensures Serves(s, t)
  {
    if t == Conn.Turn(s.conn, []) {
      SameServes(s);
    } else {
      match pick {
        case TakeAck => AnyAck(s, s.acks[0], t);
        case TakeEvent => EventServes(s, t);
        case Lag => LagServes(s, |s.source.log| - SLOTS, t);
        case _ => PickServes(s, pick, t);
      }
    }
  }

  lemma TurnServes(s: State, quit: bool, socket: bool, pick: Pick, t: Conn.Turn, acks: seq<nat>)
    requires Serving(s) && ServerTurn(s, quit, socket, pick) == (t, acks)
    ensures Serves(s, t)
  {
    match s.conn.point {
      case Starting => SnapshotServes(s, socket, t);
      case Refill => if quit { ClosedServes(s); } else { RefillServes(s, t); }
      case Deliver => DeliverServes(s, socket, t);
      case Wait => WaitServes(s, pick, t, acks);
      case Closed => SameServes(s);
    }
  }

  lemma SentOn(out: seq<F.Frame>, toSend: seq<F.Frame>, snap: seq<F.Frame>, log: seq<F.Frame>, base: nat, sent: nat,
               wire: seq<F.Frame>, left: seq<F.Frame>, next: nat)
    requires base <= sent <= next <= |log|
    requires out + toSend == snap + log[base..sent] && wire + left == toSend + log[sent..next]
    ensures (out + wire) + left == snap + log[base..next]
  {
    assert log[base..next] == log[base..sent] + log[sent..next];
    Associates(out, wire, left);
    Associates(out, toSend, log[sent..next]);
    Associates(snap, log[base..sent], log[sent..next]);
  }

  lemma HostServer(h: Host, s: State, t: Conn.Turn, u: State)
    requires HostGood(h) && s == h.s.(acks := s.acks) && s.started && Serves(s, t)
    requires u == s.(conn := t.next, wire := u.wire, acks := u.acks)
    ensures HostGood(Host(u, h.out + t.wire))
  {
    SentOn(h.out, s.conn.toSend, Snap(s), s.source.log, s.base, s.conn.sent, t.wire, t.next.toSend, t.next.sent);
    assert Snap(u) == Snap(s);
  }

  lemma HostLog(h: Host, s: State, src: Source.State)
    requires HostGood(h) && s == h.s.(acks := s.acks) && SourceGood(s.who, src) && s.source.log <= src.log
    ensures HostGood(Host(s.(source := src), h.out))
  {
    if s.started {
      ConnGrows(s.source.log, src.log, s.base, s.conn);
      assert src.log[s.base..s.conn.sent] == s.source.log[s.base..s.conn.sent];
    }
  }

  lemma HostSubscribe(h: Host, s: State, data: seq<Byte>, metaBytes: seq<Byte>)
    requires HostGood(h) && s == h.s.(acks := s.acks) && s.conn.point == Conn.Unsubscribed
    ensures HostGood(Host(SubscribeAt(s, data, metaBytes), h.out))
  {
    var t := SubscribeAt(s, data, metaBytes);
    if t.started {
      assert InflightOf(t.source.log, t.base, t.base) == [];
      assert t.source.log[t.base..t.base] == [];
      assert Snap(t) + [] == Snap(t) && [] + t.conn.toSend == t.conn.toSend;
    }
  }

  lemma ClientStep(h: Host, s: State, t: State)
    requires HostGood(h) && s == h.s.(acks := s.acks)
    requires t == s.(wire := t.wire, acks := t.acks, client := t.client, processed := t.processed)
    ensures HostGood(Host(t, h.out))
  {
  }

  lemma HostSource(h: Host, s: State, a: Action)
    requires HostGood(h) && s == h.s.(acks := s.acks) && (a.Read? || a.ResizeTo?)
    ensures HostGood(Host(Step(s, a), h.out))
  {
    ClientStep(h, s, s);
    if a.Read? {
      IngestGood(s.who, s.source, a.bytes);
      HostLog(h, s, Source.Ingest(s.who, s.source, a.bytes));
    } else if Guard.ValidSize(a.cols, a.rows) {
      ResizeGood(s.who, s.source, a.cols, a.rows);
      HostLog(h, s, Source.CommitResize(s.who, s.source, a.cols, a.rows));
    }
  }

  lemma HostTurn(h: Host, s: State, a: Action)
    requires HostGood(h) && s == h.s.(acks := s.acks) && a.Server?
    ensures HostGood(Host(Step(s, a), h.out + Sent(s, a)))
  {
    var (t, acks) := ServerTurn(s, a.quit, a.socket, a.pick);
    if s.started {
      TurnServes(s, a.quit, a.socket, a.pick, t, acks);
      HostServer(h, s, t, Step(s, a));
    } else {
      assert h.out + [] == h.out;
      ClientStep(h, s, Step(s, a));
    }
  }

  lemma HostStepGood(h: Host, f: Forged)
    requires HostGood(h)
    ensures HostGood(HostStep(h, f))
  {
    var s, a := h.s.(acks := f.acks), f.action;
    if a.Server? {
      HostTurn(h, s, a);
    } else {
      assert h.out + [] == h.out;
      if a.Read? || a.ResizeTo? {
        HostSource(h, s, a);
      } else if a.Subscribe? && s.conn.point == Conn.Unsubscribed && |a.metaBytes| <= Guard.MAX_META {
        HostSubscribe(h, s, a.data, a.metaBytes);
      } else {
        ClientStep(h, s, Step(s, a));
      }
    }
  }

  function HostRun(h: Host, acts: seq<Forged>): Host { Fold(HostStep, h, acts) }

  lemma {:induction false} HostRunGood(h: Host, acts: seq<Forged>)
    requires HostGood(h)
    ensures HostGood(HostRun(h, acts))
  {
    if acts != [] {
      HostRunGood(h, acts[..|acts| - 1]);
      HostStepGood(HostRun(h, acts[..|acts| - 1]), acts[|acts| - 1]);
    }
  }

  /** Whatever is acknowledged, and whenever: what a viewer was sent is the snapshot and the log after it, in order,
      and what of it is not acknowledged is counted exactly and never exceeds the credit by more than a frame. */
  lemma ForgedCredit(who: Guard.Identity, limit: nat, cols: nat, rows: nat, acts: seq<Forged>)
    requires Guard.ValidSize(cols, rows)
    ensures var h := HostRun(Host(Initial(who, limit, cols, rows), []), acts); var s, c, log := h.s, h.s.conn, h.s.source.log;
            s.started ==>
              && s.base <= c.applied <= c.sent <= |log|
              && h.out + c.toSend == Snap(s) + log[s.base..c.sent]
              && c.unacked == F.TotalSize(log[c.applied..c.sent]) < Conn.CREDIT + FULL_FRAME
  {
    HostRunGood(Host(Initial(who, limit, cols, rows), []), acts);
  }

  // ---- What ends a viewer's task ----

  lemma {:induction false} SuffixFits(log: seq<F.Frame>, k: nat, j: nat, limit: nat)
    requires k <= j <= |log| && Ring.Fits(log[k..], limit)
    ensures Ring.Fits(log[j..], limit)
  {
    assert log[k..] == log[k..j] + log[j..];
    F.TotalSizeAppend(log[k..j], log[j..]);
  }

  /** Some event after `sent` is no longer in the ring, and the ring can tell. */
  predicate Evicted(src: Source.State, sent: nat)
    requires sent <= |src.log|
  {
    sent < |src.log| && src.log[|src.log| - 1].Size() <= src.limit && !Ring.Fits(src.log[sent..], src.limit)
  }

  /** What a refill adds, if the ring still has it: all that was not sent, or nothing if it lost everything. */
  function Missed(src: Source.State, sent: nat): seq<F.Frame>
    requires sent <= |src.log|
  {
    if sent < |src.log| && src.log[|src.log| - 1].Size() <= src.limit then src.log[sent..] else []
  }

  /** What the ring still holds begins where the rest of the log first fits. */
  lemma KeptExactly(log: seq<F.Frame>, limit: nat, k: nat, sent: nat)
    requires k <= |log| && sent <= |log| && Ring.Contents(log, limit) == log[k..]
    ensures k <= sent <==> Ring.Fits(log[sent..], limit)
  {
    var j := Ring.LongestSuffix(log, limit);
    assert |log[k..]| == |log[j..]|;
    if j <= sent {
      SuffixFits(log, j, sent, limit);
    }
  }

  lemma RingExactly(who: Guard.Identity, src: Source.State, sent: nat)
    requires SourceGood(who, src) && sent <= |src.log|
    ensures Ring.Answer(src.ring, sent)
         == if Evicted(src, sent) then Ring.ResyncRequired else Ring.Events(Missed(src, sent))
  {
    var k := Ring.AfterExactly(src.log, src.limit, sent);
    Ring.LostAllExactly(src.log, src.limit);
    KeptExactly(src.log, src.limit, k, sent);
  }

  predicate Backlogged(pending: seq<F.Frame>) { F.TotalSize(pending) > Conn.BACKLOG }

  /** What makes the next turn the last one, told by the log. */
  predicate Ending(s: State, quit: bool, socket: bool, pick: Pick)
    requires s.conn.sent <= |s.source.log|
  {
    var c, log := s.conn, s.source.log;
    match c.point
    case Starting => c.toSend != [] && (!socket || !Codec.Encodable(c.toSend[0]))
    case Refill => quit || (c.pending == [] && Evicted(s.source, c.sent))
    case Deliver =>
      c.unacked < Conn.CREDIT && c.pending != [] && c.sent < |log| && (!socket || !Codec.Encodable(log[c.sent]))
    case Wait =>
      (match pick
       case Quit => true
       case Message => Backlogged(c.pending)
       case TakeAck => s.acks != [] && Backlogged(c.pending)
       case TakeEvent =>
         c.unacked < Conn.CREDIT && c.cursor < |log| <= c.cursor + SLOTS && c.cursor >= c.sent &&
         if c.cursor == c.sent then log[c.cursor].Size() > Conn.BACKLOG
         else Evicted(s.source, c.sent) || Backlogged(Missed(s.source, c.sent))
       case Lag =>
         c.unacked < Conn.CREDIT && c.cursor + SLOTS < |log|
         && (Evicted(s.source, c.sent) || Backlogged(Missed(s.source, c.sent))))
    case _ => false
  }

  lemma ExtendEnds(s: State, c: Conn.State, p: Conn.Point)
    requires SourceGood(s.who, s.source) && c.sent <= |s.source.log| && p != Conn.Closed
    ensures var t := Conn.Extend(c, s.source.ring, p).next;
            if Evicted(s.source, c.sent) then t.point == Conn.Closed
            else t == c.(pending := c.pending + Missed(s.source, c.sent), point := p)
  {
    RingExactly(s.who, s.source, c.sent);
  }

  lemma LaggedEnds(s: State, c: Conn.State)
    requires SourceGood(s.who, s.source) && c.sent <= |s.source.log| && c.pending == []
    ensures Conn.Lagged(c, s.source.ring).next.point == Conn.Closed <==>
            Evicted(s.source, c.sent) || Backlogged(Missed(s.source, c.sent))
  {
    ExtendEnds(s, c, Conn.Refill);
    assert [] + Missed(s.source, c.sent) == Missed(s.source, c.sent);
  }

  lemma EventEnds(s: State)
    requires Serving(s) && s.conn.point == Conn.Wait && s.conn.unacked < Conn.CREDIT && s.conn.cursor < |s.source.log|
    ensures Conn.Broadcast(s.conn.(cursor := s.conn.cursor + 1), s.source.log[s.conn.cursor], s.source.ring).next.point == Conn.Closed
            <==> s.conn.cursor >= s.conn.sent &&
                 if s.conn.cursor == s.conn.sent then s.source.log[s.conn.cursor].Size() > Conn.BACKLOG
                 else Evicted(s.source, s.conn.sent) || Backlogged(Missed(s.source, s.conn.sent))
  {
    var c := s.conn.(cursor := s.conn.cursor + 1);
    var f := s.source.log[s.conn.cursor];
    LaggedEnds(s, c);
    assert [] + [f] == [f];
    F.TotalSizeOne(f);
    assert F.TotalSize([]) == 0;
  }

  lemma AckEnds(s: State)
    requires Good(s) && Serving(s) && s.conn.point == Conn.Wait
    ensures WaitTurn(s, TakeAck).0.next.point == Conn.Closed <==> Ending(s, false, true, TakeAck)
  {
    if s.acks != [] {
      AckInRange(s, 0);
    }
  }

  lemma TakeEnds(s: State)
    requires Serving(s) && s.conn.point == Conn.Wait
    ensures WaitTurn(s, TakeEvent).0.next.point == Conn.Closed <==> Ending(s, false, true, TakeEvent)
  {
    if s.conn.unacked < Conn.CREDIT && s.conn.cursor < |s.source.log| {
      EventEnds(s);
    }
  }

  lemma LagEnds(s: State)
    requires Serving(s) && s.conn.point == Conn.Wait
    ensures WaitTurn(s, Lag).0.next.point == Conn.Closed <==> Ending(s, false, true, Lag)
  {
    if s.conn.unacked < Conn.CREDIT && s.conn.cursor + SLOTS < |s.source.log| {
      LaggedEnds(s, s.conn.(cursor := |s.source.log| - SLOTS));
    }
  }

  lemma WaitEnds(s: State, pick: Pick)
    requires Good(s) && Serving(s) && s.conn.point == Conn.Wait
    ensures WaitTurn(s, pick).0.next.point == Conn.Closed <==> Ending(s, false, true, pick)
  {
    match pick {
      case TakeAck => AckEnds(s);
      case TakeEvent => TakeEnds(s);
      case Lag => LagEnds(s);
      case _ =>
    }
  }

  lemma DeliverEnds(s: State, socket: bool)
    requires Serving(s) && s.conn.point == Conn.Deliver
    ensures Conn.DeliverTurn(s.conn, socket).next.point == Conn.Closed <==> Ending(s, false, socket, Quit)
  {
    var c, log := s.conn, s.source.log;
    if c.pending != [] {
      assert c.pending[0] == log[c.sent..c.sent + |c.pending|][0] == log[c.sent];
    }
  }

  lemma TurnEnds(s: State, quit: bool, socket: bool, pick: Pick)
    requires Good(s) && Serving(s) && s.conn.point != Conn.Closed
    ensures ServerTurn(s, quit, socket, pick).0.next.point == Conn.Closed <==> Ending(s, quit, socket, pick)
  {
    match s.conn.point {
      case Refill => ExtendEnds(s, s.conn, Conn.Deliver);
      case Deliver => DeliverEnds(s, socket);
      case Wait => WaitEnds(s, pick);
      case _ =>
    }
  }

  /** After any run, a viewer's task ends with its next turn exactly if it is told to, the socket fails, the frame that is
      due cannot be encoded, events it has not sent were evicted from the ring, or more than 1 MiB are queued for it. */
  lemma EndsExactly(who: Guard.Identity, limit: nat, cols: nat, rows: nat, acts: seq<Action>, quit: bool, socket: bool, pick: Pick)
    requires Guard.ValidSize(cols, rows)
    requires var s := Run(Initial(who, limit, cols, rows), acts); s.started && s.conn.point != Conn.Closed
    ensures var s := Run(Initial(who, limit, cols, rows), acts);
            && s.conn.sent <= |s.source.log|
            && (Step(s, Server(quit, socket, pick)).conn.point == Conn.Closed <==> Ending(s, quit, socket, pick))
  {
    RunGood(who, limit, cols, rows, acts);
    TurnEnds(Run(Initial(who, limit, cols, rows), acts), quit, socket, pick);
  }
}
