/** packages/terminal-client/src/terminal.ts: the message handler installed by `connect`, as its statements. */
module Browser {
  import opened Bytes
  import F = Frames
  import opened Protocol
  import Guard
  import opened OutputPath

  class Handler {
    const guard: Guard.StreamGuard
    const budget: Guard.RenderBudget
    var inbox: seq<F.Frame>
    var ops: seq<TermOp>
    var closed: bool
    /** Acknowledgements sent. */
    var sent: seq<nat>

    ghost function Value(): Client
      reads this, guard, budget
    {
      Client(guard.Value(), budget.bytes, inbox, ops, closed)
    }

    constructor (who: Guard.Identity)
      ensures Value() == Client(Guard.NEW, 0, [], [], false) && sent == []
      ensures guard.who == who && budget.limit == Guard.BUDGET && fresh(guard) && fresh(budget)
    {
      guard := new Guard.StreamGuard(who);
      budget := new Guard.RenderBudget(5 * 1024 * 1024);
      inbox, ops, closed, sent := [], [], false, [];
    }

    /** A message arrives: its bytes are reserved before anything else happens to it. */
    method OnMessage(f: F.Frame, ghost s: State)
      requires budget.limit == Guard.BUDGET
      requires s.client == Value() && s.wire != [] && s.wire[0] == f
      modifies this, budget
      ensures Value() == Receive(s).client && sent == old(sent)
    {
      if closed {
        return;
      }
      var ok := budget.Reserve(|f.payload| + F.HEADER_LEN);
      if !ok {
        closed := true;
        return;
      }
      inbox := inbox + [f];
    }

    /** The queued part: check, tell the terminal, acknowledge once live, and give the bytes back. */
    method ApplyOldest(parsed: Option<Guard.SnapshotMeta>, ghost s: State)
      requires s.client == Value() && guard.who == s.who && inbox != [] && !closed
      requires parsed == Parsed(s, inbox[0]) && (inbox[0].kind == F.SNAPSHOT_META && parsed.Some? ==> parsed.value == s.meta)
      modifies this, guard, budget
      ensures Value() == ApplyNext(s).client && old(sent) <= sent
      ensures s.acks + sent[|old(sent)|..] == ApplyNext(s).acks
    {
      var f := inbox[0];
      inbox := inbox[1..];
      assert s.acks + [] == s.acks;
      var v := guard.Accept(f, parsed);
      if v.Rejected? {
        closed := true;
        return;
      }
      if f.kind == F.SNAPSHOT_META {
        var m := guard.meta.value;
        if m.cols >= 0 && m.rows >= 0 {
          ops := ops + [Reset(m.cols, m.rows)];
        }
      } else if f.kind == F.OUTPUT || f.kind == F.SNAPSHOT_CHUNK {
        ops := ops + [Write(f.payload)];
      } else if f.kind == F.RESIZE && |f.payload| == 4 {
        ops := ops + [Resize(Guard.U16(f.payload, 0), Guard.U16(f.payload, 2))];
      }
      if guard.phase == Guard.Live {
        sent := sent + [guard.sequence];
      }
      var given := budget.Applied(|f.payload| + F.HEADER_LEN);
      if !given {
        closed := true;
      }
    }
  }
}
