/** What becomes of a request, and what the ledger remembers of it: crates/rc-agent/src/session.rs, `enqueue` and
    `enqueue_paste`, with crates/rc-core/src/input.rs. */
module InputRequests {
  import opened Bytes
  import opened Protocol
  import L = Lease
  import G = Ledger
  import opened InputPath
  import opened InputTheory
  import opened InputTheorems

  // ---- What the ledger remembers ----

  function Ids(js: seq<Job>): seq<Id> { seq(|js|, i requires 0 <= i < |js| => js[i].id) }

  /** The last 1024. */
  function Latest(ids: seq<Id>): seq<Id> { if |ids| <= G.WINDOW then ids else ids[|ids| - G.WINDOW..] }

  ghost predicate Remembers(g: G.State, js: seq<Job>) { G.Valid(g) && g.ids == Latest(Ids(js)) }

  lemma FinishedRemembers(g: G.State, js: seq<Job>, id: Id, status: G.Status)
    requires Remembers(g, js)
    ensures Remembers(G.Finished(g, id, status), js)
  {
  }

  lemma LatestMore(js: seq<Job>, job: Job)
    ensures var ids := Latest(Ids(js));
            Latest(Ids(js + [job])) == if |ids| < G.WINDOW then ids + [job.id] else ids[1..] + [job.id]
  {
    assert Ids(js + [job]) == Ids(js) + [job.id];
  }

  lemma AcceptedRemembers(g: G.State, js: seq<Job>, job: Job, max: nat)
    requires Remembers(g, js)
    requires G.AcceptedInput(g, job.connection, job.epoch, job.id, job.sequence, |job.data|, max).1.Ok?
    ensures Remembers(G.AcceptedInput(g, job.connection, job.epoch, job.id, job.sequence, |job.data|, max).0, js + [job])
  {
    G.AcceptKeepsValid(g, job.connection, job.epoch, job.id, job.sequence, |job.data|, max);
    LatestMore(js, job);
  }

  lemma AdmitRemembers(s: State, t: State, job: Job, max: nat, priority: bool)
    requires Remembers(s.ledger, s.admitted) && t == Admit(s, job, max, priority).0
    ensures Remembers(t.ledger, t.admitted)
  {
    if t != s {
      var ledger := G.AcceptedInput(s.ledger, job.connection, job.epoch, job.id, job.sequence, |job.data|, max).0;
      AcceptedRemembers(s.ledger, s.admitted, job, max);
      FinishedRemembers(ledger, s.admitted + [job], job.id, G.Rejected);
    }
  }

  /** The writer changes the ledger only by recording an outcome. */
  lemma OthersFinish(s: State, a: Action) returns (id: Id, status: G.Status)
    requires !a.Input? && !a.Paste?
    ensures Step(s, a).ledger == s.ledger || Step(s, a).ledger == G.Finished(s.ledger, id, status)
    ensures Step(s, a).admitted == s.admitted
  {
    id, status := 0, G.Rejected;
    if a.WriterWorks? {
      match s.writer {
        case Draining(_, _) => if s.normal != [] { id := s.normal[0].id; }
        case Busy(_, b, _, _) => id, status := b.job.id, if b.result.Ok? then G.Written else G.DeliveryUnknown;
        case _ =>
      }
    }
  }

  lemma {:induction false} RunRemembers(acts: seq<Action>)
    ensures Remembers(Run(acts).ledger, Run(acts).admitted)
  {
    if acts != [] {
      var s, a := Run(acts[..|acts| - 1]), acts[|acts| - 1];
      RunRemembers(acts[..|acts| - 1]);
      RequestIsAdmit(s, a);
      if a.Input? {
        if Run(acts) != s { AdmitRemembers(s, Run(acts), TypedJob(a), MAX_INPUT, a.data == INTERRUPT); }
      } else if a.Paste? {
        if Run(acts) != s { AdmitRemembers(s, Run(acts), PastedJob(a), MAX_PASTE, false); }
      } else {
        var id, status := OthersFinish(s, a);
        FinishedRemembers(s.ledger, s.admitted, id, status);
      }
    }
  }

  // ---- What becomes of a request ----

  lemma {:induction false} NewlinesSize(text: seq<Byte>)
    ensures |Newlines(text)| <= |text| && (Newlines(text) == [] <==> text == [])
  {
    if text != [] {
      if |text| >= 2 && text[0] == 13 && text[1] == 10 {
        NewlinesSize(text[2..]);
      } else {
        NewlinesSize(text[1..]);
      }
    }
  }

  /** What a request asks to be queued. */
  function Wanted(a: Action): Job
    requires a.Input? || a.Paste?
  {
    if a.Input? then TypedJob(a) else PastedJob(a)
  }

  /** No control characters but tab, line feed and carriage return. */
  predicate Clean(text: seq<Byte>) { forall b :: b in text ==> 32 <= b < 127 || b > 127 || b in {9, 10, 13} }

  lemma CleanBytes(text: seq<Byte>)
    ensures Clean(text) <==> !exists i :: 0 <= i < |text| && !PasteByte(text[i])
  {
    if i :| 0 <= i < |text| && !PasteByte(text[i]) {
      assert text[i] in text;
    }
  }

  /** What a request itself must be like. */
  predicate Sound(a: Action)
    requires a.Input? || a.Paste?
  {
    && 1 <= a.sequence <= MAX_JS_INTEGER && a.allowed
    && if a.Input? then 1 <= |a.data| <= MAX_INPUT
       else 1 <= |a.text| <= MAX_PASTE && Clean(a.text)
  }

  /** The last input accepted came from the same connection and epoch, and was no earlier. */
  predicate Late(js: seq<Job>, job: Job) {
    js != [] && var j := js[|js| - 1]; j.connection == job.connection && j.epoch == job.epoch && job.sequence <= j.sequence
  }

  predicate Room(s: State, priority: bool) {
    !s.writer.Stopped? && if priority then |s.interrupt| < URGENT_QUEUE else |s.normal| < QUEUE
  }

  predicate Acceptable(s: State, a: Action)
    requires a.Input? || a.Paste?
  {
    var job := Wanted(a);
    && Sound(a) && L.Verified(s.lease, job.client, job.connection, job.epoch, s.now).Ok?
    && job.id !in Latest(Ids(s.admitted)) && !Late(s.admitted, job)
  }

  function AnswerTo(s: State, a: Action): Result<()>
    requires a.Input? || a.Paste?
  {
    if a.Input? then Enqueue(s, a.client, a.connection, a.epoch, a.id, a.sequence, a.data, a.allowed).1
    else EnqueuePaste(s, a.client, a.connection, a.epoch, a.id, a.sequence, a.text, a.bracketed, a.appendEnter, a.allowed).1
  }

  /** After any run a request is accepted exactly if it is sound, its sender holds the lease, its id is not one of the
      last 1024 accepted, and it is not late for the last one accepted; nothing else changes anything. What is accepted
      goes to the end of its queue, the Ctrl+C queue for a typed Ctrl+C alone, or is refused if that has no room. */
  lemma RequestExactly(acts: seq<Action>, a: Action)
    requires a.Input? || a.Paste?
    ensures var s, t, job := Run(acts), Step(Run(acts), a), Wanted(a); var priority := a.Input? && a.data == INTERRUPT;
            && (!Acceptable(s, a) ==> t == s && AnswerTo(s, a).Err? && AnswerTo(s, a) != Err(RateLimited))
            && (Acceptable(s, a) ==>
                  && t == s.(ledger := t.ledger, admitted := s.admitted + [job],
                             interrupt := if priority && Room(s, true) then s.interrupt + [job] else s.interrupt,
                             normal := if !priority && Room(s, false) then s.normal + [job] else s.normal,
                             refused := if Room(s, priority) then s.refused else s.refused + [job])
                  && AnswerTo(s, a) == (if Room(s, priority) then Ok(()) else Err(RateLimited))
                  && job.id in t.ledger.outcomes
                  && t.ledger.outcomes[job.id] == if Room(s, priority) then G.Accepted else G.Rejected)
  {
    var s := Run(acts);
    RunRemembers(acts);
    RunKeeps(acts);
    if a.Input? {
      TypedExactly(s, a);
      AdmitExactly(s, Wanted(a), MAX_INPUT, a.data == INTERRUPT);
    } else {
      PastedExactly(s, a);
      NewlinesSize(a.text);
      AdmitExactly(s, Wanted(a), MAX_PASTE, false);
    }
  }

  /** The ledger accepts what is well-sized, new and not late. */
  lemma LedgerExactly(g: G.State, js: seq<Job>, job: Job, max: nat)
    requires Remembers(g, js) && RemembersLast(g, js)
    ensures var (h, r) := G.AcceptedInput(g, job.connection, job.epoch, job.id, job.sequence, |job.data|, max);
            && (r.Ok? <==> G.WellSized(job.sequence, |job.data|, max) && job.id !in Latest(Ids(js)) && !Late(js, job))
            && (r.Err? ==> h == g && r.error != RateLimited)
            && (r.Ok? ==> job.id in h.outcomes && h.outcomes[job.id] == G.Accepted)
  {
    var (h, r) := G.AcceptedInput(g, job.connection, job.epoch, job.id, job.sequence, |job.data|, max);
    if r.Ok? {
      NewestKept(g.ids + [job.id], g.outcomes[job.id := G.Accepted]);
    }
  }

  lemma NewestKept(ids: seq<Id>, outcomes: map<Id, G.Status>)
    requires 1 <= |ids| <= G.WINDOW + 1 && ids[|ids| - 1] in outcomes && (|ids| > 1 ==> ids[0] != ids[|ids| - 1])
    ensures var o := G.Evict(ids, outcomes).1; ids[|ids| - 1] in o && o[ids[|ids| - 1]] == outcomes[ids[|ids| - 1]]
  {
  }

  lemma AdmitExactly(s: State, job: Job, max: nat, priority: bool)
    requires Remembers(s.ledger, s.admitted) && RemembersLast(s.ledger, s.admitted)
    ensures var (t, r) := Admit(s, job, max, priority);
            var ok := L.Verified(s.lease, job.client, job.connection, job.epoch, s.now).Ok?
                      && G.WellSized(job.sequence, |job.data|, max) && job.id !in Latest(Ids(s.admitted)) && !Late(s.admitted, job);
            && (!ok ==> t == s && r.Err? && r != Err(RateLimited))
            && (ok ==>
                  && t == s.(ledger := t.ledger, admitted := s.admitted + [job],
                             interrupt := if priority && Room(s, true) then s.interrupt + [job] else s.interrupt,
                             normal := if !priority && Room(s, false) then s.normal + [job] else s.normal,
                             refused := if Room(s, priority) then s.refused else s.refused + [job])
                  && r == (if Room(s, priority) then Ok(()) else Err(RateLimited))
                  && job.id in t.ledger.outcomes
                  && t.ledger.outcomes[job.id] == if Room(s, priority) then G.Accepted else G.Rejected)
  {
    LedgerExactly(s.ledger, s.admitted, job, max);
  }

  lemma TypedExactly(s: State, a: Action)
    requires Remembers(s.ledger, s.admitted) && RemembersLast(s.ledger, s.admitted) && a.Input?
    ensures !Acceptable(s, a) ==> Step(s, a) == s && AnswerTo(s, a).Err? && AnswerTo(s, a) != Err(RateLimited)
    ensures Acceptable(s, a) ==> (Step(s, a), AnswerTo(s, a)) == Admit(s, Wanted(a), MAX_INPUT, a.data == INTERRUPT)
  {
    AdmitExactly(s, Wanted(a), MAX_INPUT, a.data == INTERRUPT);
  }

  lemma PastedExactly(s: State, a: Action)
    requires Remembers(s.ledger, s.admitted) && RemembersLast(s.ledger, s.admitted) && a.Paste?
    ensures !Acceptable(s, a) ==> Step(s, a) == s && AnswerTo(s, a).Err? && AnswerTo(s, a) != Err(RateLimited)
    ensures Acceptable(s, a) ==> (Step(s, a), AnswerTo(s, a)) == Admit(s, Wanted(a), MAX_PASTE, false)
  {
    NewlinesSize(a.text);
    CleanBytes(a.text);
    AdmitExactly(s, Wanted(a), MAX_PASTE, false);
  }
}
