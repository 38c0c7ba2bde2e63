/** What the ledger answers about an input is true: crates/rc-core/src/input.rs `status` and `finish`, as
    crates/rc-agent/src/session.rs calls them. */
module InputOutcomes {
  import opened Bytes
  import opened Protocol
  import G = Ledger
  import opened InputPath
  import opened InputTheory
  import opened InputShape
  import opened InputTheorems
  import opened InputInterrupts
  import opened InputRequests
  import opened PasteText

  /** No other accepted input has the job's id. */
  ghost predicate OwnId(js: seq<Job>, job: Job) { forall j :: j in js && j.id == job.id ==> j == job }

  ghost predicate RecordedAs(parts: seq<Part>, job: Job, ok: bool) {
    exists b :: JobPart(b) in parts && b.job == job && b.result.Ok? == ok
  }

  /** The session was gone before anything was written. */
  function Lost(job: Job): Part { JobPart(Fresh(job).(result := Err(SessionLost))) }

  /** The job is waiting, being written, or left over. */
  predicate Outstanding(s: State, job: Job) {
    job in s.normal || job in s.interrupt || job in Current(s.writer) || job in s.unknown || Lost(job) in s.parts
  }

  /** What the status says of the job is so. */
  ghost predicate Tells(s: State, job: Job, status: G.Status) {
    match status
    case Accepted => Outstanding(s, job)
    case Written => RecordedAs(s.parts, job, true)
    case DeliveryUnknown => RecordedAs(s.parts, job, false)
    case Rejected => job in s.refused || job in s.cancelled
  }

  ghost predicate Truthful(s: State, job: Job) {
    job.id in s.ledger.outcomes ==> job in s.admitted && Tells(s, job, s.ledger.outcomes[job.id])
  }

  // ---- Steps that record nothing for the job ----

  /** Nothing the status speaks of is taken away. */
  ghost predicate Kept(s: State, t: State, job: Job) {
    && (Outstanding(s, job) ==> Outstanding(t, job))
    && s.parts <= t.parts && s.refused <= t.refused && s.cancelled <= t.cancelled && s.admitted <= t.admitted
  }

  lemma RecordedMore(parts: seq<Part>, more: seq<Part>, job: Job, ok: bool)
    requires RecordedAs(parts, job, ok) && parts <= more
    ensures RecordedAs(more, job, ok)
  {
    var b :| JobPart(b) in parts && b.job == job && b.result.Ok? == ok;
    assert JobPart(b) in more;
  }

  lemma KeptTells(s: State, t: State, job: Job, status: G.Status)
    requires Tells(s, job, status) && Kept(s, t, job)
    ensures Tells(t, job, status)
  {
    match status {
      case Written => RecordedMore(s.parts, t.parts, job, true);
      case DeliveryUnknown => RecordedMore(s.parts, t.parts, job, false);
      case _ =>
    }
  }

  /** The ledger says of the job what it said, or nothing. */
  predicate SameStatus(g: G.State, h: G.State, id: Id) {
    id in h.outcomes ==> id in g.outcomes && h.outcomes[id] == g.outcomes[id]
  }

  lemma KeptTruthful(s: State, t: State, job: Job)
    requires Truthful(s, job) && Kept(s, t, job) && SameStatus(s.ledger, t.ledger, job.id)
    ensures Truthful(t, job)
  {
    if job.id in t.ledger.outcomes {
      KeptTells(s, t, job, s.ledger.outcomes[job.id]);
    }
  }

  // ---- Requests ----

  lemma EvictedSame(ids: seq<Id>, outcomes: map<Id, G.Status>, id: Id)
    ensures var o := G.Evict(ids, outcomes).1; id in o ==> id in outcomes && o[id] == outcomes[id]
    decreases |ids|
  {
    if |ids| > G.WINDOW {
      EvictedSame(ids[1..], outcomes - {ids[0]}, id);
    }
  }

  lemma AdmitOther(s: State, job: Job, max: nat, priority: bool, mine: Job)
    requires job.id != mine.id
    ensures var t := Admit(s, job, max, priority).0; Kept(s, t, mine) && SameStatus(s.ledger, t.ledger, mine.id)
  {
    EvictedSame(s.ledger.ids + [job.id], s.ledger.outcomes[job.id := G.Accepted], mine.id);
  }

  lemma AdmitTruthful(s: State, t: State, job: Job, max: nat, priority: bool, mine: Job)
    requires Remembers(s.ledger, s.admitted) && RemembersLast(s.ledger, s.admitted)
    requires t == Admit(s, job, max, priority).0 && Truthful(s, mine) && OwnId(t.admitted, mine)
    ensures Truthful(t, mine)
  {
    AdmitExactly(s, job, max, priority);
    if t != s {
      if job.id == mine.id {
        assert job in t.admitted;
      } else {
        AdmitOther(s, job, max, priority, mine);
        KeptTruthful(s, t, mine);
      }
    }
  }

  // ---- The writer ----

  lemma FinishedOther(g: G.State, id: Id, status: G.Status, other: Id)
    requires id != other
    ensures SameStatus(g, G.Finished(g, id, status), other)
  {
  }

  lemma DrainTruthful(s: State, t: State, next: Job, depth: nat, mine: Job)
    requires s.writer == Draining(next, depth) && t == Drain(s, next, depth) && Truthful(s, mine)
    requires forall j :: j in s.normal && j.id == mine.id ==> j == mine
    ensures Truthful(t, mine)
  {
    if s.normal == [] {
      KeptTruthful(s, t, mine);
    } else {
      var j := s.normal[0];
      assert j in s.normal && j in t.cancelled;
      if j.id != mine.id {
        FinishedOther(s.ledger, j.id, G.Rejected, mine.id);
        assert s.normal == [j] + s.normal[1..];
        KeptTruthful(s, t, mine);
      }
    }
  }

  lemma ConcludeTruthful(s: State, t: State, b: Block, urgent: Option<Job>, depth: nat, mine: Job)
    requires s.writer == Busy(Finish, b, urgent, depth) && t == Conclude(s, b, urgent, depth) && Truthful(s, mine)
    requires b.job.id == mine.id ==> b.job == mine
    ensures Truthful(t, mine)
  {
    assert JobPart(b) in t.parts;
    if b.job == mine {
      assert RecordedAs(t.parts, mine, b.result.Ok?);
    } else {
      FinishedOther(s.ledger, b.job.id, if b.result.Ok? then G.Written else G.DeliveryUnknown, mine.id);
      KeptTruthful(s, t, mine);
    }
  }

  lemma GoneTruthful(s: State, t: State, b: Block, depth: nat, mine: Job)
    requires s.writer == Busy(Start, b, None, depth) && b == Fresh(b.job) && Truthful(s, mine)
    requires t == s.(parts := s.parts + [JobPart(b.(result := Err(SessionLost)))], writer := Idle)
    ensures Truthful(t, mine)
  {
    assert Lost(b.job) in t.parts;
    KeptTruthful(s, t, mine);
  }

  lemma ProceedTruthful(s: State, t: State, point: Point, b: Block, urgent: Option<Job>, depth: nat, m: Move, mine: Job)
    requires s.writer == Busy(point, b, urgent, depth) && FairMove(s, b, urgent, m) && t == Proceed(s, m, urgent, depth)
    requires Truthful(s, mine)
    ensures Truthful(t, mine)
  {
    if m.urgent.Some? {
      assert s.interrupt == [s.interrupt[0]] + s.interrupt[1..];
    }
    KeptTruthful(s, t, mine);
  }

  lemma StopTruthful(s: State, t: State, mine: Job)
    requires s.writer.Stopping? && t == Work(s, true, true, true) && Truthful(s, mine)
    ensures Truthful(t, mine)
  {
    if s.normal != [] {
      assert s.normal == [s.normal[0]] + s.normal[1..];
    } else if s.interrupt != [] {
      assert s.interrupt == [s.interrupt[0]] + s.interrupt[1..];
    }
    KeptTruthful(s, t, mine);
  }

  lemma SelectTruthful(s: State, t: State, stop: bool, query: Option<seq<Byte>>, success: bool, mine: Job)
    requires t == Select(s, stop, query, success) && Truthful(s, mine)
    ensures Truthful(t, mine)
  {
    if s.interrupt != [] {
      assert s.interrupt == [s.interrupt[0]] + s.interrupt[1..];
    }
    if s.normal != [] {
      assert s.normal == [s.normal[0]] + s.normal[1..];
    }
    KeptTruthful(s, t, mine);
  }

  lemma WorkTruthful(s: State, t: State, allowed: bool, success: bool, alive: bool, mine: Job)
    requires Inv(s) && Shaped(s) && t == Work(s, allowed, success, alive) && Truthful(s, mine) && OwnId(s.admitted, mine)
    ensures Truthful(t, mine)
  {
    PlacedIsAdmitted(s);
    match s.writer {
      case Draining(next, depth) => DrainTruthful(s, t, next, depth, mine);
      case Busy(point, b, urgent, depth) =>
        assert b.job in Current(s.writer);
        if point == Finish {
          ConcludeTruthful(s, t, b, urgent, depth, mine);
        } else if point == Start && !alive {
          GoneTruthful(s, t, b, depth, mine);
        } else {
          WriterJobAdmitted(s);
          MoveGood(s, point, b, urgent, allowed, success);
          ProceedTruthful(s, t, point, b, urgent, depth, Advance(s, point, b, allowed, success), mine);
        }
      case Stopping => StopTruthful(s, t, mine);
      case _ =>
    }
  }

  lemma StepTruthful(s: State, t: State, a: Action, mine: Job)
    requires Inv(s) && Shaped(s) && Remembers(s.ledger, s.admitted) && t == Step(s, a)
    requires Truthful(s, mine) && OwnId(t.admitted, mine) && OwnId(s.admitted, mine)
    ensures Truthful(t, mine)
  {
    RequestIsAdmit(s, a);
    match a {
      case Input(_, _, _, _, _, _, _) => if t != s { AdmitTruthful(s, t, TypedJob(a), MAX_INPUT, a.data == INTERRUPT, mine); }
      case Paste(_, _, _, _, _, _, _, _, _) => if t != s { AdmitTruthful(s, t, PastedJob(a), MAX_PASTE, false, mine); }
      case WriterSelects(stop, query, success) => SelectTruthful(s, t, stop, query, success, mine);
      case WriterWorks(allowed, success, alive) => WorkTruthful(s, t, allowed, success, alive, mine);
      case _ => KeptTruthful(s, t, mine);
    }
  }

  lemma AdmittedGrows(s: State, a: Action)
    ensures s.admitted <= Step(s, a).admitted
  {
    RequestIsAdmit(s, a);
    if !a.Input? && !a.Paste? {
      var _, _ := OthersFinish(s, a);
    }
  }

  lemma {:induction false} RunTruthful(acts: seq<Action>, mine: Job)
    requires OwnId(Run(acts).admitted, mine)
    ensures Truthful(Run(acts), mine)
  {
    if acts != [] {
      var before, a := acts[..|acts| - 1], acts[|acts| - 1];
      AdmittedGrows(Run(before), a);
      RunTruthful(before, mine);
      RunKeeps(before);
      RunRemembers(before);
      StepTruthful(Run(before), Run(acts), a, mine);
    }
  }

  // ---- The statuses exactly ----

  lemma OneOutcome(parts: seq<Part>, b: Block, c: Block)
    requires Increasing(parts) && JobPart(b) in parts && JobPart(c) in parts && b.job == c.job
    ensures b == c
  {
    var i :| 0 <= i < |parts| && parts[i] == JobPart(b);
    var j :| 0 <= j < |parts| && parts[j] == JobPart(c);
    RecordedOnce(parts, i, j);
  }

  /** A job that was recorded is neither refused nor cancelled nor outstanding elsewhere. */
  lemma OneEnd(acts: seq<Action>, job: Job)
    ensures var s := Run(acts);
            job in Finished(s.parts) ==>
              && job !in s.refused && job !in s.cancelled
              && job !in s.normal && job !in s.interrupt && job !in Current(s.writer) && job !in s.unknown
    ensures var s := Run(acts);
            job in s.refused || job in s.cancelled ==>
              job !in s.normal && job !in s.interrupt && job !in Current(s.writer) && job !in s.unknown
  {
    OnePlace(acts, job);
  }

  lemma WrittenOnly(s: State, job: Job, b: Block)
    requires Increasing(s.parts) && JobPart(b) in s.parts && b.job == job && b.result.Ok?
    ensures !RecordedAs(s.parts, job, false) && Lost(job) !in s.parts
  {
    forall c | JobPart(c) in s.parts && c.job == job ensures c == b {
      OneOutcome(s.parts, b, c);
    }
  }

  lemma IfWritten(acts: seq<Action>, s: State, job: Job, status: G.Status)
    requires s == Run(acts) && Increasing(s.parts) && Tells(s, job, status) && RecordedAs(s.parts, job, true)
    ensures status == G.Written
  {
    var b :| JobPart(b) in s.parts && b.job == job && b.result.Ok?;
    OneEnd(acts, job);
    PartsFinished(s.parts, b);
    WrittenOnly(s, job, b);
  }

  lemma IfRejected(acts: seq<Action>, s: State, job: Job, status: G.Status)
    requires s == Run(acts) && Tells(s, job, status) && (job in s.refused || job in s.cancelled)
    ensures status == G.Rejected
  {
    OneEnd(acts, job);
    forall b | JobPart(b) in s.parts ensures b.job in Finished(s.parts) {
      PartsFinished(s.parts, b);
    }
  }

  /** As long as the ledger remembers an input whose id no other input had, its status is: written exactly if the job was
      written in full; rejected exactly if it was refused or cancelled; unknown only if its writing ended in an error;
      and accepted only if it is waiting, being written, or left over unwritten. */
  lemma StatusExactly(acts: seq<Action>, job: Job)
    requires var s := Run(acts); OwnId(s.admitted, job) && job.id in s.ledger.outcomes
    ensures var s := Run(acts); var status := s.ledger.outcomes[job.id];
            && (status == G.Written <==> RecordedAs(s.parts, job, true))
            && (status == G.Rejected <==> job in s.refused || job in s.cancelled)
            && (status == G.DeliveryUnknown ==> RecordedAs(s.parts, job, false))
            && (status == G.Accepted ==> Outstanding(s, job))
  {
    var s := Run(acts);
    RunTruthful(acts, job);
    RunKeeps(acts);
    var status := s.ledger.outcomes[job.id];
    if RecordedAs(s.parts, job, true) {
      IfWritten(acts, s, job, status);
    }
    if job in s.refused || job in s.cancelled {
      IfRejected(acts, s, job, status);
    }
  }
}
