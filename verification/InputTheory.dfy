/** What the input path keeps, whatever the order of client requests, lease changes and writer steps. */
module InputTheory {
  import opened Bytes
  import opened Protocol
  import L = Lease
  import G = Ledger
  import opened InputPath

  // ---- Acceptance ----

  ghost predicate Sorted(js: seq<Job>) { forall i, j :: 0 <= i < j < |js| ==> Less(js[i].At(), js[j].At()) }

  ghost predicate Above(k: Key, js: seq<Job>) { forall j :: j in js ==> Less(k, j.At()) }

  predicate SameWriter(a: Job, b: Job) { a.client == b.client && a.connection == b.connection }

  /** The holder of the lease is the only writer its epoch has had. */
  ghost predicate HolderWrote(l: L.State, js: seq<Job>) {
    forall j :: j in js ==>
      j.epoch <= l.epoch &&
      (j.epoch == l.epoch && l.owner.Some? ==>
         j.client == l.owner.value.client && j.connection == l.owner.value.connection)
  }

  predicate RemembersLast(g: G.State, js: seq<Job>) {
    if js == [] then g.highest == map[]
    else var j := js[|js| - 1]; g.highest == map[(j.connection, j.epoch) := j.sequence]
  }

  /** What the ledger accepted is strictly increasing in (epoch, sequence), one writer per epoch. */
  ghost predicate Accepting(l: L.State, g: G.State, js: seq<Job>) {
    && Sorted(js)
    && (forall j :: j in js ==> j.sequence >= 1 && j.data != [])
    && (forall a, b :: a in js && b in js && a.epoch == b.epoch ==> SameWriter(a, b))
    && HolderWrote(l, js)
    && RemembersLast(g, js)
  }

  lemma LeaseOpAccepting(l: L.State, g: G.State, js: seq<Job>, op: L.Op, now: nat)
    requires Accepting(l, g, js)
    ensures Accepting(L.Apply(l, op, now), g, js)
  {
    L.EpochOwner(l, op, now);
  }

  /** The checks of `enqueue` let through only inputs later than every input before. */
  lemma AcceptedIsLater(l: L.State, g: G.State, js: seq<Job>, job: Job, now: nat, max: nat)
    requires Accepting(l, g, js)
    requires L.Verified(l, job.client, job.connection, job.epoch, now).Ok?
    requires G.AcceptedInput(g, job.connection, job.epoch, job.id, job.sequence, |job.data|, max).1.Ok?
    ensures forall j :: j in js ==> Less(j.At(), job.At())
    ensures Accepting(l, G.AcceptedInput(g, job.connection, job.epoch, job.id, job.sequence, |job.data|, max).0, js + [job])
  {
    forall j | j in js ensures Less(j.At(), job.At()) {
      var last := js[|js| - 1];
      assert last in js;
      var i :| 0 <= i < |js| && js[i] == j;
      assert i < |js| - 1 ==> Less(js[i].At(), js[|js| - 1].At());
    }
  }

  // ---- Order of the queues and of what was written ----

  /** The last job that finished. */
  function Top(parts: seq<Part>): Key {
    if parts == [] then Key(0, 0)
    else match parts[|parts| - 1] case JobPart(b) => b.job.At() case QueryPart(_) => Top(parts[..|parts| - 1])
  }

  /** Jobs finished in increasing order. */
  predicate Increasing(parts: seq<Part>) {
    parts == [] || (Increasing(parts[..|parts| - 1]) &&
      (parts[|parts| - 1].JobPart? ==> Less(Top(parts[..|parts| - 1]), parts[|parts| - 1].block.job.At())))
  }

  /** Every job still queued comes after the job being written, and Ctrl+C jobs after a Ctrl+C being served. */
  ghost predicate Ahead(top: Key, w: Writer, normal: seq<Job>, interrupt: seq<Job>) {
    && Above(top, normal) && Above(top, interrupt)
    && match w
       case Draining(next, _) => Less(top, next.At()) && Above(next.At(), interrupt)
       case Busy(_, b, urgent, _) =>
         && Less(top, b.job.At()) && Above(b.job.At(), normal) && Above(b.job.At(), interrupt)
         && (urgent.Some? ==> Less(b.job.At(), urgent.value.At()) && Above(urgent.value.At(), interrupt))
       case _ => true
  }

  /** Ctrl+C jobs are never bulk, so a job that was itself urgent is not cut short again. */
  predicate Nested(w: Writer) {
    match w
    case Draining(next, depth) => !next.bulk && depth <= 1
    case Busy(_, b, urgent, depth) => depth <= 1 && (depth == 1 ==> !b.job.bulk && urgent.None?)
                                      && (urgent.Some? ==> !urgent.value.bulk && b.job.bulk)
    case _ => true
  }

  ghost predicate Ordered(s: State) {
    && Increasing(s.parts)
    && Sorted(s.normal) && Sorted(s.interrupt)
    && (forall j :: j in s.interrupt ==> !j.bulk)
    && Ahead(Top(s.parts), s.writer, s.normal, s.interrupt)
    && Nested(s.writer)
  }

  /** Everything queued or being written was admitted. */
  function Current(w: Writer): seq<Job> {
    match w
    case Draining(next, _) => [next]
    case Busy(_, b, urgent, _) => if urgent.Some? then [b.job, urgent.value] else [b.job]
    case _ => []
  }

  function Finished(parts: seq<Part>): seq<Job> {
    if parts == [] then []
    else Finished(parts[..|parts| - 1]) +
         match parts[|parts| - 1] case JobPart(b) => [b.job] case QueryPart(_) => []
  }

  /** Every job of `all` is in exactly one of the seven places. */
  ghost predicate Balanced(all: seq<Job>, normal: seq<Job>, interrupt: seq<Job>, current: seq<Job>, finished: seq<Job>,
                           refused: seq<Job>, cancelled: seq<Job>, unknown: seq<Job>)
  {
    forall j :: multiset(all)[j] ==
      multiset(normal)[j] + multiset(interrupt)[j] + multiset(current)[j] + multiset(finished)[j]
      + multiset(refused)[j] + multiset(cancelled)[j] + multiset(unknown)[j]
  }

  /** Every admitted job is in exactly one place. */
  ghost predicate Conserved(s: State) {
    Balanced(s.admitted, s.normal, s.interrupt, Current(s.writer), Finished(s.parts), s.refused, s.cancelled, s.unknown)
  }

  lemma SortedAppend(js: seq<Job>, job: Job)
    requires Sorted(js) && forall j :: j in js ==> Less(j.At(), job.At())
    ensures Sorted(js + [job])
  {
  }

  lemma AboveAppend(k: Key, js: seq<Job>, job: Job)
    requires Above(k, js) && Less(k, job.At())
    ensures Above(k, js + [job])
  {
  }

  lemma AheadAppend(top: Key, w: Writer, normal: seq<Job>, interrupt: seq<Job>, job: Job)
    requires Ahead(top, w, normal, interrupt) && Less(top, job.At())
    requires forall j :: j in Current(w) ==> Less(j.At(), job.At())
    ensures Ahead(top, w, normal + [job], interrupt) && Ahead(top, w, normal, interrupt + [job])
  {
    AboveAppend(top, normal, job);
    AboveAppend(top, interrupt, job);
    match w {
      case Draining(next, _) => AboveAppend(next.At(), interrupt, job);
      case Busy(_, b, urgent, _) =>
        AboveAppend(b.job.At(), normal, job);
        AboveAppend(b.job.At(), interrupt, job);
        if urgent.Some? {
          assert urgent.value in Current(w);
          AboveAppend(urgent.value.At(), interrupt, job);
        }
      case _ =>
    }
  }

  lemma AddedLast(s: State, job: Job)
    requires Ordered(s) && Conserved(s)
    requires job.sequence >= 1 && forall j :: j in s.admitted ==> Less(j.At(), job.At())
    ensures Ahead(Top(s.parts), s.writer, s.normal + [job], s.interrupt)
    ensures Ahead(Top(s.parts), s.writer, s.normal, s.interrupt + [job])
    ensures Sorted(s.normal + [job]) && Sorted(s.interrupt + [job])
  {
    PlacedIsAdmitted(s);
    TopIsFinished(s.parts);
    SortedAppend(s.normal, job);
    SortedAppend(s.interrupt, job);
    AheadAppend(Top(s.parts), s.writer, s.normal, s.interrupt, job);
  }

  lemma PlacedIsAdmitted(s: State)
    requires Conserved(s)
    ensures forall j :: j in s.normal || j in s.interrupt || j in Current(s.writer) || j in Finished(s.parts) ==> j in s.admitted
  {
    forall j | j in s.normal || j in s.interrupt || j in Current(s.writer) || j in Finished(s.parts)
      ensures j in s.admitted
    {
      assert multiset(s.admitted)[j] >= multiset(s.normal)[j] + multiset(s.interrupt)[j]
             + multiset(Current(s.writer))[j] + multiset(Finished(s.parts))[j];
    }
  }

  lemma {:induction false} TopIsFinished(parts: seq<Part>)
    ensures Top(parts) == Key(0, 0) || exists j :: j in Finished(parts) && j.At() == Top(parts)
  {
    if parts != [] {
      TopIsFinished(parts[..|parts| - 1]);
      if parts[|parts| - 1].JobPart? {
        assert parts[|parts| - 1].block.job in Finished(parts);
      }
    }
  }

  // ---- Each step keeps the three invariants ----

  ghost predicate Inv(s: State) {
    Accepting(s.lease, s.ledger, s.admitted) && Ordered(s) && Conserved(s)
  }

  lemma BagAppend(js: seq<Job>, job: Job)
    ensures multiset(js + [job]) == multiset(js) + multiset{job}
  {
  }

  /** A new job may be put in any of the places. */
  lemma BalancedAdd(all: seq<Job>, n: seq<Job>, i: seq<Job>, c: seq<Job>, f: seq<Job>, r: seq<Job>, x: seq<Job>, u: seq<Job>,
                    job: Job)
    requires Balanced(all, n, i, c, f, r, x, u)
    ensures Balanced(all + [job], n + [job], i, c, f, r, x, u)
    ensures Balanced(all + [job], n, i + [job], c, f, r, x, u)
    ensures Balanced(all + [job], n, i, c, f, r + [job], x, u)
  {
    BagAppend(all, job);
    BagAppend(n, job);
    BagAppend(i, job);
    BagAppend(r, job);
  }

  /** The head of the ordinary queue may be cancelled. */
  lemma BalancedCancelled(all: seq<Job>, n: seq<Job>, i: seq<Job>, c: seq<Job>, f: seq<Job>, r: seq<Job>, x: seq<Job>, u: seq<Job>)
    requires Balanced(all, n, i, c, f, r, x, u) && n != []
    ensures Balanced(all, n[1..], i, c, f, r, x + [n[0]], u)
  {
    HeadOff(n);
    BagAppend(x, n[0]);
  }

  /** The head of either queue may be left undelivered. */
  lemma BalancedUnknown(all: seq<Job>, n: seq<Job>, i: seq<Job>, c: seq<Job>, f: seq<Job>, r: seq<Job>, x: seq<Job>, u: seq<Job>)
    requires Balanced(all, n, i, c, f, r, x, u)
    ensures n != [] ==> Balanced(all, n[1..], i, c, f, r, x, u + [n[0]])
    ensures i != [] ==> Balanced(all, n, i[1..], c, f, r, x, u + [i[0]])
  {
    if n != [] {
      HeadOff(n);
      BagAppend(u, n[0]);
    }
    if i != [] {
      HeadOff(i);
      BagAppend(u, i[0]);
    }
  }

  /** A writer with nothing to do may take the head of the ordinary queue. */
  lemma BalancedTaken(all: seq<Job>, n: seq<Job>, i: seq<Job>, f: seq<Job>, r: seq<Job>, x: seq<Job>, u: seq<Job>)
    requires Balanced(all, n, i, [], f, r, x, u) && n != []
    ensures Balanced(all, n[1..], i, [n[0]], f, r, x, u)
  {
    HeadOff(n);
  }

  /** The writer may take the head of the Ctrl+C queue. */
  lemma BalancedUrgent(all: seq<Job>, n: seq<Job>, i: seq<Job>, c: seq<Job>, f: seq<Job>, r: seq<Job>, x: seq<Job>, u: seq<Job>)
    requires Balanced(all, n, i, c, f, r, x, u) && i != []
    ensures Balanced(all, n, i[1..], c + [i[0]], f, r, x, u)
  {
    HeadOff(i);
    BagAppend(c, i[0]);
  }

  /** The writer's job is finished. */
  lemma BalancedDone(all: seq<Job>, n: seq<Job>, i: seq<Job>, job: Job, more: seq<Job>, f: seq<Job>, r: seq<Job>, x: seq<Job>,
                     u: seq<Job>)
    requires Balanced(all, n, i, [job] + more, f, r, x, u)
    ensures Balanced(all, n, i, more, f + [job], r, x, u)
  {
    assert multiset([job] + more) == multiset{job} + multiset(more);
    BagAppend(f, job);
  }

  lemma DispatchOrdered(s: State, job: Job, priority: bool)
    requires Ordered(s) && Conserved(s)
    requires forall j :: j in s.admitted ==> Less(j.At(), job.At())
    requires job.sequence >= 1 && (priority ==> !job.bulk)
    ensures Ordered(Dispatch(s, job, priority).0)
  {
    AddedLast(s, job);
  }

  lemma DispatchConserved(s: State, job: Job, priority: bool)
    requires Conserved(s)
    ensures Conserved(Dispatch(s, job, priority).0)
  {
    BalancedAdd(s.admitted, s.normal, s.interrupt, Current(s.writer), Finished(s.parts), s.refused, s.cancelled, s.unknown, job);
  }

  lemma DispatchKeeps(s: State, job: Job, priority: bool)
    requires Accepting(s.lease, s.ledger, s.admitted + [job]) && Ordered(s) && Conserved(s)
    requires forall j :: j in s.admitted ==> Less(j.At(), job.At())
    requires job.sequence >= 1 && (priority ==> !job.bulk)
    ensures Inv(Dispatch(s, job, priority).0)
  {
    DispatchConserved(s, job, priority);
    DispatchOrdered(s, job, priority);
  }

  lemma AdmitKeeps(s: State, t: State, job: Job, max: nat, priority: bool)
    requires Inv(s) && (priority ==> !job.bulk) && t == Admit(s, job, max, priority).0
    ensures Inv(t)
  {
    if L.Verified(s.lease, job.client, job.connection, job.epoch, s.now).Ok? {
      var (ledger, r) := G.AcceptedInput(s.ledger, job.connection, job.epoch, job.id, job.sequence, |job.data|, max);
      if r.Ok? {
        AcceptedIsLater(s.lease, s.ledger, s.admitted, job, s.now, max);
        DispatchKeeps(s.(ledger := ledger), job, priority);
      }
    }
  }

  lemma HeadOff(js: seq<Job>)
    requires js != []
    ensures multiset(js) == multiset{js[0]} + multiset(js[1..])
    ensures Sorted(js) ==> Sorted(js[1..]) && Above(js[0].At(), js[1..])
    ensures forall j :: j in js[1..] ==> j in js
  {
    assert js == [js[0]] + js[1..];
  }

  lemma TakeUrgent(s: State, t: State)
    requires Inv(s) && s.writer.Idle? && s.interrupt != []
    requires t == s.(interrupt := s.interrupt[1..], writer := Draining(s.interrupt[0], 0))
    ensures Inv(t)
  {
    assert Ordered(t) by {
      HeadOff(s.interrupt);
    }
    BalancedUrgent(s.admitted, s.normal, s.interrupt, [], Finished(s.parts), s.refused, s.cancelled, s.unknown);
    assert Current(t.writer) == [] + [s.interrupt[0]];
  }

  lemma TakeNormalConserved(s: State, t: State)
    requires Conserved(s) && s.writer.Idle? && s.normal != []
    requires t == s.(normal := s.normal[1..], writer := Busy(Start, Fresh(s.normal[0]), None, 0))
    ensures Conserved(t)
  {
    BalancedTaken(s.admitted, s.normal, s.interrupt, Finished(s.parts), s.refused, s.cancelled, s.unknown);
  }

  lemma TakeNormalOrdered(s: State, t: State)
    requires Ordered(s) && s.writer.Idle? && s.interrupt == [] && s.normal != []
    requires t == s.(normal := s.normal[1..], writer := Busy(Start, Fresh(s.normal[0]), None, 0))
    ensures Ordered(t)
  {
    HeadOff(s.normal);
    assert s.normal[0] in s.normal;
  }

  lemma TakeNormal(s: State, t: State)
    requires Inv(s) && s.writer.Idle? && s.interrupt == [] && s.normal != []
    requires t == s.(normal := s.normal[1..], writer := Busy(Start, Fresh(s.normal[0]), None, 0))
    ensures Inv(t)
  {
    TakeNormalConserved(s, t);
    TakeNormalOrdered(s, t);
  }

  lemma QueryParts(parts: seq<Part>, q: seq<Byte>)
    ensures var ps := parts + [QueryPart(q)];
            Top(ps) == Top(parts) && Finished(ps) == Finished(parts) && (Increasing(ps) <==> Increasing(parts))
  {
    assert (parts + [QueryPart(q)])[..|parts|] == parts;
  }

  lemma AnswerQuery(s: State, t: State, q: seq<Byte>)
    requires Inv(s) && t == s.(pty := t.pty, parts := s.parts + [QueryPart(q)])
    ensures Inv(t)
  {
    QueryParts(s.parts, q);
  }

  lemma SelectKeeps(s: State, t: State, stop: bool, query: Option<seq<Byte>>, success: bool)
    requires Inv(s) && t == Select(s, stop, query, success)
    ensures Inv(t)
  {
    if s.writer.Idle? && !stop {
      if s.interrupt != [] {
        TakeUrgent(s, t);
      } else if query.Some? {
        if success {
          AnswerQuery(s, t, query.value);
        }
      } else if s.normal != [] {
        TakeNormal(s, t);
      }
    }
  }

  lemma DrainOrdered(s: State, t: State, next: Job, depth: nat)
    requires Ordered(s) && s.writer == Draining(next, depth) && t == Drain(s, next, depth)
    ensures Ordered(t)
  {
    if s.normal != [] {
      HeadOff(s.normal);
    }
  }

  lemma WriterConserved(s: State, t: State)
    requires Conserved(s) && Current(t.writer) == Current(s.writer) && t == s.(writer := t.writer, pty := t.pty)
    ensures Conserved(t)
  {
  }

  lemma DrainConserved(s: State, t: State, next: Job, depth: nat)
    requires Conserved(s) && s.writer == Draining(next, depth) && t == Drain(s, next, depth)
    ensures Conserved(t)
  {
    if s.normal != [] {
      BalancedCancelled(s.admitted, s.normal, s.interrupt, [next], Finished(s.parts), s.refused, s.cancelled, s.unknown);
    } else {
      WriterConserved(s, t);
    }
  }

  lemma DrainKeeps(s: State, t: State, next: Job, depth: nat)
    requires Inv(s) && s.writer == Draining(next, depth) && t == Drain(s, next, depth)
    ensures Inv(t)
  {
    DrainOrdered(s, t, next, depth);
    DrainConserved(s, t, next, depth);
  }

  lemma NormalLost(s: State, t: State)
    requires Conserved(s) && s.normal != []
    requires t == s.(normal := s.normal[1..], unknown := s.unknown + [s.normal[0]])
    ensures Conserved(t)
  {
    BalancedUnknown(s.admitted, s.normal, s.interrupt, Current(s.writer), Finished(s.parts), s.refused, s.cancelled, s.unknown);
  }

  lemma InterruptLost(s: State, t: State)
    requires Conserved(s) && s.interrupt != []
    requires t == s.(interrupt := s.interrupt[1..], unknown := s.unknown + [s.interrupt[0]])
    ensures Conserved(t)
  {
    BalancedUnknown(s.admitted, s.normal, s.interrupt, Current(s.writer), Finished(s.parts), s.refused, s.cancelled, s.unknown);
  }

  /** A stopping writer gives up the head of a queue. */
  lemma StoppingConserved(s: State, t: State, allowed: bool, success: bool, alive: bool)
    requires Conserved(s) && s.writer.Stopping? && t == Work(s, allowed, success, alive)
    ensures Conserved(t)
  {
    if s.normal != [] {
      NormalLost(s, t);
    } else if s.interrupt != [] {
      InterruptLost(s, t);
    } else {
      WriterConserved(s, t);
    }
  }

  lemma StoppingOrdered(s: State, t: State, allowed: bool, success: bool, alive: bool)
    requires Ordered(s) && s.writer.Stopping? && t == Work(s, allowed, success, alive)
    ensures Ordered(t)
  {
    if s.normal != [] {
      HeadOff(s.normal);
    } else if s.interrupt != [] {
      HeadOff(s.interrupt);
    }
  }

  lemma StoppingKeeps(s: State, t: State, allowed: bool, success: bool, alive: bool)
    requires Inv(s) && s.writer.Stopping? && t == Work(s, allowed, success, alive)
    ensures Inv(t)
  {
    StoppingOrdered(s, t, allowed, success, alive);
    StoppingConserved(s, t, allowed, success, alive);
  }

  lemma DoneParts(parts: seq<Part>, b: Block)
    requires Increasing(parts) && Less(Top(parts), b.job.At())
    ensures var ps := parts + [JobPart(b)];
            Increasing(ps) && Top(ps) == b.job.At() && Finished(ps) == Finished(parts) + [b.job]
  {
    var ps := parts + [JobPart(b)];
    assert ps[..|parts|] == parts;
  }

  lemma ConcludeOrdered(s: State, t: State, b: Block, urgent: Option<Job>, depth: nat)
    requires Ordered(s) && s.writer == Busy(Finish, b, urgent, depth) && t == Conclude(s, b, urgent, depth)
    ensures Ordered(t)
  {
    DoneParts(s.parts, b);
    assert Ahead(b.job.At(), t.writer, t.normal, t.interrupt);
  }

  lemma DoneConserved(s: State, t: State, b: Block, more: seq<Job>)
    requires Conserved(s) && Increasing(s.parts) && Less(Top(s.parts), b.job.At())
    requires Current(s.writer) == [b.job] + more && Current(t.writer) == more
    requires t == s.(ledger := t.ledger, parts := s.parts + [JobPart(b)], writer := t.writer)
    ensures Conserved(t)
  {
    DoneParts(s.parts, b);
    BalancedDone(s.admitted, s.normal, s.interrupt, b.job, more, Finished(s.parts), s.refused, s.cancelled, s.unknown);
  }

  lemma ConcludeKeeps(s: State, t: State, b: Block, urgent: Option<Job>, depth: nat)
    requires Inv(s) && s.writer == Busy(Finish, b, urgent, depth) && t == Conclude(s, b, urgent, depth)
    ensures Inv(t)
  {
    var more := if urgent.Some? then [urgent.value] else [];
    DoneConserved(s, t, b, more);
    ConcludeOrdered(s, t, b, urgent, depth);
  }

  lemma GoneKeeps(s: State, t: State, b: Block)
    requires Inv(s) && s.writer.Busy? && s.writer.block.job == b.job && s.writer.urgent.None?
    requires t == s.(parts := s.parts + [JobPart(b)], writer := Idle)
    ensures Inv(t)
  {
    DoneParts(s.parts, b);
    DoneConserved(s, t, b, []);
  }

  /** A move keeps the job, and takes a Ctrl+C only from the front of its queue, for a bulk job that has none yet. */
  predicate FairMove(s: State, b: Block, urgent: Option<Job>, m: Move) {
    && m.block.job == b.job
    && (m.urgent.Some? ==> urgent.None? && b.job.bulk && s.interrupt != [] && m.urgent.value == s.interrupt[0])
  }

  lemma UrgentConserved(s: State, t: State)
    requires Conserved(s) && s.interrupt != [] && Current(t.writer) == Current(s.writer) + [s.interrupt[0]]
    requires t == s.(interrupt := s.interrupt[1..], writer := t.writer, pty := t.pty)
    ensures Conserved(t)
  {
    BalancedUrgent(s.admitted, s.normal, s.interrupt, Current(s.writer), Finished(s.parts), s.refused, s.cancelled, s.unknown);
  }

  lemma ProceedConserved(s: State, t: State, point: Point, m: Move, b: Block, urgent: Option<Job>, depth: nat)
    requires Conserved(s) && s.writer == Busy(point, b, urgent, depth) && FairMove(s, b, urgent, m)
    requires t == Proceed(s, m, urgent, depth)
    ensures Conserved(t)
  {
    if m.urgent.Some? {
      assert Current(t.writer) == [b.job] + [s.interrupt[0]];
      UrgentConserved(s, t);
    } else {
      WriterConserved(s, t);
    }
  }

  lemma ProceedOrdered(s: State, t: State, point: Point, m: Move, b: Block, urgent: Option<Job>, depth: nat)
    requires Ordered(s) && s.writer == Busy(point, b, urgent, depth) && FairMove(s, b, urgent, m)
    requires t == Proceed(s, m, urgent, depth)
    ensures Ordered(t)
  {
    if m.urgent.Some? {
      HeadOff(s.interrupt);
      assert s.interrupt[0] in s.interrupt;
    }
  }

  lemma ProceedKeeps(s: State, t: State, point: Point, m: Move, b: Block, urgent: Option<Job>, depth: nat)
    requires Inv(s) && s.writer == Busy(point, b, urgent, depth) && FairMove(s, b, urgent, m)
    requires t == Proceed(s, m, urgent, depth)
    ensures Inv(t)
  {
    ProceedConserved(s, t, point, m, b, urgent, depth);
    ProceedOrdered(s, t, point, m, b, urgent, depth);
  }
}
