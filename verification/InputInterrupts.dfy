/** A queued Ctrl+C cuts a paste short: crates/rc-agent/src/session.rs, the chunk loop of `write_job` and what
    follows it. */
module InputInterrupts {
  import opened Bytes
  import opened Protocol
  import opened InputPath
  import opened InputTheory
  import opened InputShape
  import opened InputTheorems

  /** A paste being written, with the Ctrl+C `next` queued first and the inputs `waiting` queued behind it: `finished`
      parts were recorded before, `chunks` of its chunks are written and at most `most` will be. */
  datatype Cut = Cut(job: Job, next: Job, waiting: seq<Job>, finished: nat, chunks: nat, most: nat, polled: bool)

  /** How the paste may end: cut short, complete, or by a failure of the one chunk that was under way. */
  predicate Ended(c: Cut, b: Block) {
    && b.job == c.job && b.chunks <= c.most
    && (b.result == Err(InputCanceled) || b.chunks == ChunkCount(c.job.data) || (!c.polled && b.chunks == c.chunks && b.result.Err?))
    && (c.polled && c.chunks < ChunkCount(c.job.data) ==> b.result == Err(InputCanceled) && b.chunks == c.chunks)
  }

  predicate NextUp(c: Cut, t: State) { t.interrupt != [] && t.interrupt[0] == c.next && c.waiting <= t.normal }

  ghost predicate Cancelled(c: Cut, t: State) { forall j :: j in c.waiting ==> j in t.cancelled }

  ghost predicate Leaving(c: Cut, t: State) { forall j :: j in c.waiting ==> j in t.normal || j in t.cancelled }

  /** The paste is not recorded yet. */
  predicate Going(c: Cut, t: State) {
    && |t.parts| == c.finished && t.writer.Busy? && t.writer.block.chunks <= ChunkCount(t.writer.block.job.data)
    && var b, u := t.writer.block, t.writer.urgent;
    match t.writer.point
    case Start => false
    case Write => !c.polled && b.job == c.job && b.chunks == c.chunks && b.result.Ok? && u.None? && NextUp(c, t)
    case Poll => b.job == c.job && b.chunks == c.most && b.result.Ok? && u.None? && NextUp(c, t)
    case _ => Ended(c, b) && if u.Some? then u.value == c.next && c.waiting <= t.normal else NextUp(c, t)
  }

  ghost predicate Recorded(c: Cut, t: State) {
    |t.parts| > c.finished && t.parts[c.finished].JobPart? && Ended(c, t.parts[c.finished].block)
  }

  /** The paste is recorded; the Ctrl+C is next, or the writer gives up. */
  ghost predicate Served(c: Cut, t: State) {
    && Recorded(c, t) && |t.parts| == c.finished + 1
    && match t.writer
       case Idle => NextUp(c, t)
       case Draining(next, _) => next == c.next && Leaving(c, t)
       case Busy(_, b, u, _) => b.job == c.next && u.None? && Cancelled(c, t)
       case _ => true
  }

  /** The Ctrl+C is recorded too. */
  ghost predicate Over(c: Cut, t: State) {
    && Recorded(c, t) && |t.parts| > c.finished + 1 && Cancelled(c, t)
    && t.parts[c.finished + 1].JobPart? && t.parts[c.finished + 1].block.job == c.next
  }

  ghost predicate Phase(c: Cut, t: State) { Going(c, t) || Served(c, t) || Over(c, t) }

  predicate Fits(c: Cut) {
    !c.next.bulk && c.job.bulk && c.most == c.chunks + (if c.polled then 0 else 1)
  }

  // ---- Other threads ----

  /** The writer and its history are the same; the queues may have grown. */
  predicate Grown(s: State, t: State) {
    && t.writer == s.writer && t.parts == s.parts && t.cancelled == s.cancelled
    && s.normal <= t.normal && s.interrupt <= t.interrupt
  }

  lemma AdmitGrows(s: State, job: Job, max: nat, priority: bool)
    ensures Grown(s, Admit(s, job, max, priority).0)
  {
  }

  lemma OthersGrow(s: State, a: Action)
    requires !a.WriterSelects? && !a.WriterWorks?
    ensures Grown(s, Step(s, a))
  {
    RequestIsAdmit(s, a);
    if a.Input? {
      AdmitGrows(s, TypedJob(a), MAX_INPUT, a.data == INTERRUPT);
    } else if a.Paste? {
      AdmitGrows(s, PastedJob(a), MAX_PASTE, false);
    }
  }

  lemma GrownPhase(c: Cut, s: State, t: State)
    requires Phase(c, s) && Grown(s, t)
    ensures Phase(c, t)
  {
  }

  // ---- The writer ----

  lemma SelectPhase(c: Cut, s: State, t: State, stop: bool, query: Option<seq<Byte>>, success: bool)
    requires Phase(c, s) && t == Select(s, stop, query, success)
    ensures Phase(c, t)
  {
  }

  lemma GoingWorks(c: Cut, s: State, t: State, allowed: bool, success: bool, alive: bool)
    requires Fits(c) && Going(c, s) && s.writer.point != Finish && t == Work(s, allowed, success, alive)
    ensures Going(c, t)
  {
    var w := s.writer;
    var m := Advance(s, w.point, w.block, allowed, success);
    assert t == Proceed(s, m, w.urgent, w.depth);
  }

  lemma GoingEnds(c: Cut, s: State, t: State, allowed: bool, success: bool, alive: bool)
    requires Going(c, s) && s.writer.point == Finish && t == Work(s, allowed, success, alive)
    ensures Served(c, t)
  {
  }

  lemma DrainWorks(c: Cut, s: State, t: State)
    requires Served(c, s) && s.writer.Draining? && t == Drain(s, s.writer.next, s.writer.depth)
    ensures Served(c, t)
  {
  }

  lemma UrgentEnds(c: Cut, s: State, t: State, b: Block)
    requires Served(c, s) && s.writer.Busy? && b.job == c.next
    requires t.parts == s.parts + [JobPart(b)] && t.cancelled == s.cancelled
    ensures Over(c, t)
  {
  }

  lemma UrgentWorks(c: Cut, s: State, t: State, allowed: bool, success: bool)
    requires Fits(c) && Served(c, s) && s.writer.Busy? && s.writer.point != Finish
    requires t == Proceed(s, Advance(s, s.writer.point, s.writer.block, allowed, success), s.writer.urgent, s.writer.depth)
    ensures Served(c, t)
  {
  }

  lemma ServedWorks(c: Cut, s: State, t: State, allowed: bool, success: bool, alive: bool)
    requires Fits(c) && Served(c, s) && t == Work(s, allowed, success, alive)
    ensures Served(c, t) || Over(c, t)
  {
    match s.writer {
      case Draining(_, _) => DrainWorks(c, s, t);
      case Busy(point, b, _, _) =>
        if point == Finish {
          UrgentEnds(c, s, t, b);
        } else if point == Start && !alive {
          UrgentEnds(c, s, t, b.(result := Err(SessionLost)));
        } else {
          UrgentWorks(c, s, t, allowed, success);
        }
      case _ =>
    }
  }

  lemma OverWorks(c: Cut, s: State, t: State, allowed: bool, success: bool, alive: bool)
    requires Over(c, s) && t == Work(s, allowed, success, alive)
    ensures Over(c, t)
  {
  }

  lemma StepPhase(c: Cut, s: State, t: State, a: Action)
    requires Fits(c) && Phase(c, s) && t == Step(s, a)
    ensures Phase(c, t)
  {
    if a.WriterSelects? {
      SelectPhase(c, s, t, a.stop, a.query, a.success);
    } else if a.WriterWorks? {
      if Going(c, s) {
        if s.writer.point == Finish {
          GoingEnds(c, s, t, a.allowed, a.success, a.alive);
        } else {
          GoingWorks(c, s, t, a.allowed, a.success, a.alive);
        }
      } else if Over(c, s) {
        OverWorks(c, s, t, a.allowed, a.success, a.alive);
      } else {
        ServedWorks(c, s, t, a.allowed, a.success, a.alive);
      }
    } else {
      OthersGrow(s, a);
      GrownPhase(c, s, t);
    }
  }

  lemma {:induction false} RunPhase(c: Cut, acts: seq<Action>, more: seq<Action>)
    requires Fits(c) && Phase(c, Run(acts))
    ensures Phase(c, Run(acts + more))
  {
    if more == [] {
      assert acts + more == acts;
    } else {
      var m, a := more[..|more| - 1], more[|more| - 1];
      RunPhase(c, acts, m);
      assert acts + more == (acts + m) + [a];
      RunOne(acts + m, a);
      StepPhase(c, Run(acts + m), Run(acts + more), a);
    }
  }

  // ---- The chunks in the PTY stream ----

  lemma {:induction false} DataOfPart(parts: seq<Part>, e: Entry) returns (i: nat)
    requires AllShaped(parts) && e in RenderAll(parts) && e.Data?
    ensures i < |parts| && parts[i].JobPart? && parts[i].block.job.At() == e.key && e.index < parts[i].block.chunks
  {
    var front, p := parts[..|parts| - 1], parts[|parts| - 1];
    assert p in parts;
    if e in RenderAll(front) {
      i := DataOfPart(front, e);
    } else {
      i := |parts| - 1;
      DataOfBlock(p.block, e);
    }
  }

  lemma DataOfBlock(b: Block, e: Entry)
    requires b.chunks <= ChunkCount(b.job.data) && e in Render(b) && e.Data?
    ensures e.key == b.job.At() && e.index < b.chunks
  {
    var i :| 0 <= i < |Render(b)| && Render(b)[i] == e;
    RenderData(b, i);
  }

  lemma {:induction false} PartBelowTop(parts: seq<Part>, i: nat)
    requires Increasing(parts) && i < |parts| && parts[i].JobPart?
    ensures parts[i].block.job.At() == Top(parts) || Less(parts[i].block.job.At(), Top(parts))
  {
    if i < |parts| - 1 {
      PartBelowTop(parts[..|parts| - 1], i);
    }
  }

  /** A job is recorded once. */
  lemma {:induction false} RecordedOnce(parts: seq<Part>, i: nat, j: nat)
    requires Increasing(parts) && i < |parts| && j < |parts| && parts[i].JobPart? && parts[j].JobPart?
    requires parts[i].block.job.At() == parts[j].block.job.At()
    ensures i == j
  {
    var n := |parts| - 1;
    if i < n && j < n {
      RecordedOnce(parts[..n], i, j);
    } else if i != j {
      PartBelowTop(parts[..n], if i < n then i else j);
    }
  }

  lemma ChunksGoing(c: Cut, t: State, e: Entry)
    requires Fits(c) && Going(c, t) && Inv(t) && Shaped(t) && e in t.pty && e.Data? && e.key == c.job.At()
    ensures e.index < c.most
  {
    if e in RenderAll(t.parts) {
      var i := DataOfPart(t.parts, e);
      PartBelowTop(t.parts, i);
    } else {
      DataOfBlock(t.writer.block, e);
    }
  }

  /** The entries of a job that was recorded are those of its block. */
  lemma ChunksRecorded(t: State, i: nat, e: Entry)
    requires Inv(t) && Shaped(t) && i < |t.parts| && t.parts[i].JobPart?
    requires e in t.pty && e.Data? && e.key == t.parts[i].block.job.At()
    ensures e.index < t.parts[i].block.chunks
  {
    if e in RenderAll(t.parts) {
      var j := DataOfPart(t.parts, e);
      RecordedOnce(t.parts, i, j);
    } else {
      DataOfBlock(t.writer.block, e);
      PartBelowTop(t.parts, i);
    }
  }

  lemma ChunksBounded(c: Cut, t: State, e: Entry)
    requires Fits(c) && Phase(c, t) && Inv(t) && Shaped(t) && e in t.pty && e.Data? && e.key == c.job.At()
    ensures e.index < c.most
  {
    if Going(c, t) {
      ChunksGoing(c, t, e);
    } else {
      ChunksRecorded(t, c.finished, e);
    }
  }

  // ---- The result ----

  function CutOf(s: State): Cut
    requires s.writer.Busy? && s.interrupt != []
  {
    var b, polled := s.writer.block, s.writer.point == Poll;
    Cut(b.job, s.interrupt[0], s.normal, |s.parts|, b.chunks, b.chunks + if polled then 0 else 1, polled)
  }

  /** If a Ctrl+C is queued while a paste is between two chunks, or at one, then whatever follows at most the chunk that
      is under way is still written. The paste is recorded as cut short, unless that chunk was its last or failed; and
      the next thing recorded is the oldest Ctrl+C, once everything queued as ordinary input was cancelled. */
  lemma CtrlCCutsPaste(acts: seq<Action>, more: seq<Action>)
    requires var s := Run(acts);
             s.writer.Busy? && s.writer.point in {Poll, Write} && s.writer.block.job.bulk && s.interrupt != []
    ensures var s, t := Run(acts), Run(acts + more); var c := CutOf(s); var k := |s.parts|;
            && (forall e :: e in t.pty && e.Data? && e.key == c.job.At() ==> e.index < c.most)
            && (|t.parts| > k ==> t.parts[k].JobPart? && Ended(c, t.parts[k].block))
            && (|t.parts| > k + 1 ==>
                  && t.parts[k + 1].JobPart? && t.parts[k + 1].block.job == s.interrupt[0]
                  && forall j :: j in s.normal ==> j in t.cancelled)
  {
    var s, t := Run(acts), Run(acts + more);
    var c := CutOf(s);
    RunKeeps(acts);
    RunKeeps(acts + more);
    CutBegins(s);
    RunPhase(c, acts, more);
    forall e | e in t.pty && e.Data? && e.key == c.job.At() ensures e.index < c.most {
      ChunksBounded(c, t, e);
    }
  }

  lemma CutBegins(s: State)
    requires Inv(s) && Shaped(s)
    requires s.writer.Busy? && s.writer.point in {Poll, Write} && s.writer.block.job.bulk && s.interrupt != []
    ensures Fits(CutOf(s)) && Going(CutOf(s), s)
  {
    assert s.interrupt[0] in s.interrupt;
  }
}
