/** Main results about every run of the input path. */
module InputTheorems {
  import opened Bytes
  import opened Protocol
  import L = Lease
  import opened InputPath
  import opened InputTheory
  import opened InputShape

  // ---- Every step keeps everything ----

  lemma RenderAllMore(parts: seq<Part>, p: Part)
    requires AllShaped(parts) && (p.JobPart? ==> WellShaped(p.block))
    ensures AllShaped(parts + [p]) && RenderAll(parts + [p]) == RenderAll(parts) + RenderPart(p)
  {
    assert (parts + [p])[..|parts|] == parts;
  }

  lemma WriterJobAdmitted(s: State)
    requires Inv(s) && s.writer.Busy?
    ensures s.writer.block.job in s.admitted && s.writer.block.job.data != []
  {
    PlacedIsAdmitted(s);
    assert s.writer.block.job in Current(s.writer);
  }

  lemma ProceedShaped(s: State, t: State, point: Point, b: Block, urgent: Option<Job>, depth: nat, m: Move)
    requires Shaped(s) && s.writer == Busy(point, b, urgent, depth) && GoodMove(s, point, b, urgent, m)
    requires t == Proceed(s, m, urgent, depth)
    ensures Shaped(t)
  {
    Associates(RenderAll(s.parts), Render(b), m.written);
  }

  lemma BusyStep(s: State, t: State, point: Point, b: Block, urgent: Option<Job>, depth: nat, allowed: bool, success: bool)
    requires Inv(s) && Shaped(s) && s.writer == Busy(point, b, urgent, depth) && point != Finish
    requires t == Proceed(s, Advance(s, point, b, allowed, success), urgent, depth)
    ensures Inv(t) && Shaped(t)
  {
    WriterJobAdmitted(s);
    MoveGood(s, point, b, urgent, allowed, success);
    var m := Advance(s, point, b, allowed, success);
    ProceedKeeps(s, t, point, m, b, urgent, depth);
    ProceedShaped(s, t, point, b, urgent, depth, m);
  }

  lemma GoneStep(s: State, t: State, b: Block, depth: nat)
    requires Inv(s) && Shaped(s) && s.writer == Busy(Start, b, None, depth)
    requires t == s.(parts := s.parts + [JobPart(b.(result := Err(SessionLost)))], writer := Idle)
    ensures Inv(t) && Shaped(t)
  {
    WriterJobAdmitted(s);
    var c := b.(result := Err(SessionLost));
    GoneKeeps(s, t, c);
    assert ChunkCount(b.job.data) >= 1;
    RenderAllMore(s.parts, JobPart(c));
    assert Render(c) == [] == Render(b);
  }

  lemma FinishStep(s: State, t: State, b: Block, urgent: Option<Job>, depth: nat)
    requires Inv(s) && Shaped(s) && s.writer == Busy(Finish, b, urgent, depth) && t == Conclude(s, b, urgent, depth)
    ensures Inv(t) && Shaped(t)
  {
    ConcludeKeeps(s, t, b, urgent, depth);
    RenderAllMore(s.parts, JobPart(b));
  }

  lemma DrainShaped(s: State, t: State, next: Job, depth: nat)
    requires Shaped(s) && s.writer == Draining(next, depth) && t == Drain(s, next, depth)
    ensures Shaped(t)
  {
    assert RenderAll(s.parts) + Render(Fresh(next)) == RenderAll(s.parts);
  }

  lemma WorkStep(s: State, t: State, allowed: bool, success: bool, alive: bool)
    requires Inv(s) && Shaped(s) && t == Work(s, allowed, success, alive)
    ensures Inv(t) && Shaped(t)
  {
    match s.writer {
      case Draining(next, depth) =>
        DrainKeeps(s, t, next, depth);
        DrainShaped(s, t, next, depth);
      case Busy(point, b, urgent, depth) =>
        if point == Finish {
          FinishStep(s, t, b, urgent, depth);
        } else if point == Start && !alive {
          GoneStep(s, t, b, depth);
        } else {
          BusyStep(s, t, point, b, urgent, depth, allowed, success);
        }
      case Stopping => StoppingKeeps(s, t, allowed, success, alive);
      case _ =>
    }
  }

  lemma SelectShaped(s: State, t: State, stop: bool, query: Option<seq<Byte>>, success: bool)
    requires Shaped(s) && t == Select(s, stop, query, success)
    ensures Shaped(t)
  {
    if s.writer.Idle? && !stop && s.interrupt == [] {
      if query.Some? {
        RenderAllMore(s.parts, QueryPart(query.value));
      } else if s.normal != [] {
        assert RenderAll(s.parts) + Render(Fresh(s.normal[0])) == RenderAll(s.parts);
      }
    }
  }

  /** The step left the writer and its history alone. */
  predicate Quiet(s: State, t: State) { t.pty == s.pty && t.parts == s.parts && t.writer == s.writer }

  lemma QuietShaped(s: State, t: State)
    requires Shaped(s) && Quiet(s, t)
    ensures Shaped(t)
  {
  }

  lemma AdmitQuiet(s: State, job: Job, max: nat, priority: bool)
    ensures Quiet(s, Admit(s, job, max, priority).0)
  {
  }

  lemma AdmitStep(s: State, t: State, job: Job, max: nat, priority: bool)
    requires Inv(s) && Shaped(s) && (priority ==> !job.bulk) && t == Admit(s, job, max, priority).0
    ensures Inv(t) && Shaped(t)
  {
    AdmitKeeps(s, t, job, max, priority);
    AdmitQuiet(s, job, max, priority);
    QuietShaped(s, t);
  }

  lemma LeaseStep(s: State, t: State, op: L.Op)
    requires Inv(s) && Shaped(s) && t == s.(lease := L.Apply(s.lease, op, s.now))
    ensures Inv(t) && Shaped(t)
  {
    LeaseOpAccepting(s.lease, s.ledger, s.admitted, op, s.now);
    QuietShaped(s, t);
  }

  lemma ClockStep(s: State, t: State)
    requires Inv(s) && Shaped(s) && t == s.(now := t.now, running := t.running)
    ensures Inv(t) && Shaped(t)
  {
    QuietShaped(s, t);
  }

  function TypedJob(a: Action): Job
    requires a.Input?
  {
    Job(a.client, a.connection, a.epoch, a.sequence, a.id, a.data, false, false, false)
  }

  function PastedJob(a: Action): Job
    requires a.Paste?
  {
    Job(a.client, a.connection, a.epoch, a.sequence, a.id, Newlines(a.text), true, a.bracketed, a.appendEnter)
  }

  /** What a client sends is either refused at once or put to the admission checks. */
  lemma RequestIsAdmit(s: State, a: Action)
    ensures a.Input? ==> Step(s, a) == s || Step(s, a) == Admit(s, TypedJob(a), MAX_INPUT, a.data == INTERRUPT).0
    ensures a.Paste? ==> Step(s, a) == s || Step(s, a) == Admit(s, PastedJob(a), MAX_PASTE, false).0
  {
  }

  lemma RequestStep(s: State, t: State, a: Action)
    requires Inv(s) && Shaped(s) && (a.Input? || a.Paste?) && t == Step(s, a)
    ensures Inv(t) && Shaped(t)
  {
    RequestIsAdmit(s, a);
    if t != s {
      if a.Input? {
        AdmitStep(s, t, TypedJob(a), MAX_INPUT, a.data == INTERRUPT);
      } else {
        AdmitStep(s, t, PastedJob(a), MAX_PASTE, false);
      }
    }
  }

  lemma OtherStep(s: State, t: State, a: Action)
    requires Inv(s) && Shaped(s) && (a.Tick? || a.LeaseOp? || a.SessionEnds?) && t == Step(s, a)
    ensures Inv(t) && Shaped(t)
  {
    if a.LeaseOp? {
      if a.allowed && !(a.op.DoAcquire? && !s.running) {
        LeaseStep(s, t, a.op);
      }
    } else {
      ClockStep(s, t);
    }
  }

  lemma WriterStep(s: State, t: State, a: Action)
    requires Inv(s) && Shaped(s) && (a.WriterSelects? || a.WriterWorks?) && t == Step(s, a)
    ensures Inv(t) && Shaped(t)
  {
    if a.WriterSelects? {
      SelectKeeps(s, t, a.stop, a.query, a.success);
      SelectShaped(s, t, a.stop, a.query, a.success);
    } else {
      WorkStep(s, t, a.allowed, a.success, a.alive);
    }
  }

  lemma StepKeeps(s: State, t: State, a: Action)
    requires Inv(s) && Shaped(s) && t == Step(s, a)
    ensures Inv(t) && Shaped(t)
  {
    if a.Input? || a.Paste? {
      RequestStep(s, t, a);
    } else if a.WriterSelects? || a.WriterWorks? {
      WriterStep(s, t, a);
    } else {
      OtherStep(s, t, a);
    }
  }

  lemma {:induction false} RunKeeps(acts: seq<Action>)
    ensures Inv(Run(acts)) && Shaped(Run(acts))
  {
    if acts != [] {
      RunKeeps(acts[..|acts| - 1]);
      StepKeeps(Run(acts[..|acts| - 1]), Run(acts), acts[|acts| - 1]);
    }
  }

  // ---- Acceptance ----

  /** Over any run the inputs the ledger accepted are strictly increasing in (epoch, sequence), and each epoch
      has a single (client, connection): neither the 1024-id window nor the single remembered sequence ever
      lets an old pair back in. */
  lemma AcceptanceIsLexicographic(acts: seq<Action>)
    ensures var js := Run(acts).admitted;
            && (forall i, j :: 0 <= i < j < |js| ==> Less(js[i].At(), js[j].At()))
            && (forall i, j :: 0 <= i < |js| && 0 <= j < |js| && js[i].epoch == js[j].epoch ==> SameWriter(js[i], js[j]))
  {
    RunKeeps(acts);
  }

  // ---- Order of writes ----

  predicate Before(a: Entry, b: Entry)
    requires a.Data? && b.Data?
  {
    Less(a.key, b.key) || (a.key == b.key && a.index < b.index)
  }

  ghost predicate DataSorted(es: seq<Entry>) {
    forall i, j :: 0 <= i < j < |es| && es[i].Data? && es[j].Data? ==> Before(es[i], es[j])
  }

  ghost predicate UpTo(es: seq<Entry>, top: Key) {
    forall e :: e in es && !e.Query? ==> e.key == top || Less(e.key, top)
  }

  lemma {:induction false} DataEntriesSorted(job: Job, n: nat)
    requires n <= ChunkCount(job.data)
    ensures |DataEntries(job, n)| == n
    ensures forall i :: 0 <= i < n ==> DataEntries(job, n)[i] == Data(job.At(), i, Chunk(job.data, i))
  {
    if n > 0 {
      DataEntriesSorted(job, n - 1);
    }
  }

  ghost predicate OfJob(es: seq<Entry>, key: Key) { forall e :: e in es ==> !e.Query? && e.key == key }

  lemma JoinedAt(o: seq<Entry>, d: seq<Entry>, c: seq<Entry>, r: seq<Entry>, i: nat)
    requires i < |o + d + c + r|
    ensures (o + d + c + r)[i] == if i < |o| then o[i] else if i < |o| + |d| then d[i - |o|]
            else if i < |o| + |d| + |c| then c[i - |o| - |d|] else r[i - |o| - |d| - |c|]
  {
  }

  lemma RenderData(b: Block, i: nat)
    requires b.chunks <= ChunkCount(b.job.data) && i < |Render(b)| && Render(b)[i].Data?
    ensures var n := i - if b.begun then 1 else 0;
            0 <= n < b.chunks && Render(b)[i] == Data(b.job.At(), n, Chunk(b.job.data, n))
  {
    DataEntriesSorted(b.job, b.chunks);
    JoinedAt(if b.begun then [Open(b.job.At())] else [], DataEntries(b.job, b.chunks),
             if b.closed then [Close(b.job.At())] else [], if b.entered then [Enter(b.job.At())] else [], i);
  }

  lemma RenderSorted(b: Block)
    requires b.chunks <= ChunkCount(b.job.data)
    ensures DataSorted(Render(b)) && OfJob(Render(b), b.job.At())
  {
    var es := Render(b);
    forall i, j | 0 <= i < j < |es| && es[i].Data? && es[j].Data? ensures Before(es[i], es[j]) {
      RenderData(b, i);
      RenderData(b, j);
    }
    assert OfJob(es, b.job.At()) by {
      DataEntriesSorted(b.job, b.chunks);
    }
  }

  lemma SortedJoin(a: seq<Entry>, b: seq<Entry>, top: Key, key: Key)
    requires DataSorted(a) && UpTo(a, top) && DataSorted(b) && OfJob(b, key) && Less(top, key)
    ensures DataSorted(a + b) && UpTo(a + b, key)
  {
    var es := a + b;
    forall i, j | 0 <= i < j < |es| && es[i].Data? && es[j].Data? ensures Before(es[i], es[j]) {
      if i < |a| <= j {
        assert es[i] in a && es[j] in b;
      }
    }
  }

  lemma {:induction false} AllSorted(parts: seq<Part>)
    requires AllShaped(parts) && Increasing(parts)
    ensures DataSorted(RenderAll(parts)) && UpTo(RenderAll(parts), Top(parts))
  {
    if parts != [] {
      var front, p := parts[..|parts| - 1], parts[|parts| - 1];
      assert p in parts;
      AllSorted(front);
      match p {
        case JobPart(b) =>
          RenderSorted(b);
          SortedJoin(RenderAll(front), Render(b), Top(front), b.job.At());
        case QueryPart(_) =>
      }
    }
  }

  /** The data bytes in the PTY are in strictly increasing order of (epoch, sequence, chunk). So nothing is written
      twice, nothing is written after a later input, and nothing accepted before a Ctrl+C is written after it. */
  lemma WriteOrder(acts: seq<Action>)
    ensures var pty := Run(acts).pty;
            forall i, j :: 0 <= i < j < |pty| && pty[i].Data? && pty[j].Data? ==> Before(pty[i], pty[j])
  {
    RunKeeps(acts);
    var s := Run(acts);
    AllSorted(s.parts);
    if s.writer.Busy? {
      RenderSorted(s.writer.block);
      SortedJoin(RenderAll(s.parts), Render(s.writer.block), Top(s.parts), s.writer.block.job.At());
    }
  }

  // ---- Shape of each job's contribution ----

  /** The PTY stream is the finished blocks and query answers, one after another, then the block in progress. Each
      finished block is a prefix of its job's full form; `written` is reported exactly for the full form, and a
      bracket that was opened is closed unless the closing write itself failed. Cutting a paste short for a Ctrl+C
      nests at most once. */
  lemma JobShape(acts: seq<Action>)
    ensures var s := Run(acts);
            && (forall p :: p in s.parts ==> p.JobPart? ==> WellShaped(p.block))
            && AllShaped(s.parts)
            && (s.writer.Busy? ==> InProgress(s.writer.point, s.writer.block, s.writer.urgent))
            && s.pty == RenderAll(s.parts) + (if s.writer.Busy? then Render(s.writer.block) else [])
            && (s.writer.Draining? || s.writer.Busy? ==> s.writer.depth <= 1)
  {
    RunKeeps(acts);
    assert RenderAll(Run(acts).parts) + [] == RenderAll(Run(acts).parts);
  }

  function EntryBytes(e: Entry): seq<Byte> {
    match e
    case Open(_) => PASTE_OPEN
    case Data(_, _, bytes) => bytes
    case Close(_) => PASTE_CLOSE
    case Enter(_) => CR
    case Query(bytes) => bytes
  }

  function AllBytes(es: seq<Entry>): seq<Byte> {
    if es == [] then [] else AllBytes(es[..|es| - 1]) + EntryBytes(es[|es| - 1])
  }

  lemma {:induction false} AllBytesAppend(a: seq<Entry>, b: seq<Entry>)
    ensures AllBytes(a + b) == AllBytes(a) + AllBytes(b)
  {
    if b == [] {
      assert a + b == a;
    } else {
      assert (a + b)[..|a + b| - 1] == a + b[..|b| - 1];
      AllBytesAppend(a, b[..|b| - 1]);
    }
  }

  lemma AllBytesOne(e: Entry)
    ensures AllBytes([e]) == EntryBytes(e)
  {
    assert [e][..0] == [];
  }

  function Reached(data: seq<Byte>, n: nat): nat { if n * 8192 <= |data| then n * 8192 else |data| }

  lemma ChunkExtends(data: seq<Byte>, n: nat)
    requires n < ChunkCount(data)
    ensures data[..Reached(data, n)] + Chunk(data, n) == data[..Reached(data, n + 1)]
  {
    assert n * 8192 < |data|;
  }

  lemma BytesOneMore(es: seq<Entry>, e: Entry, before: seq<Byte>)
    requires AllBytes(es) == before
    ensures AllBytes(es + [e]) == before + EntryBytes(e)
  {
    assert (es + [e])[..|es|] == es;
  }

  lemma DataBytesMore(job: Job, n: nat)
    requires n < ChunkCount(job.data)
    ensures AllBytes(DataEntries(job, n + 1)) == AllBytes(DataEntries(job, n)) + Chunk(job.data, n)
  {
    BytesOneMore(DataEntries(job, n), Data(job.At(), n, Chunk(job.data, n)), AllBytes(DataEntries(job, n)));
  }

  /** `text` is what the first `n` chunks make. */
  ghost predicate Laid(job: Job, n: nat, text: seq<Byte>) {
    && n <= ChunkCount(job.data) && text == AllBytes(DataEntries(job, n))
    && text == job.data[..Reached(job.data, n)]
  }

  lemma LaidNone(job: Job)
    ensures Laid(job, 0, [])
  {
    assert job.data[..0] == [];
  }

  lemma LaidNext(job: Job, n: nat, text: seq<Byte>) returns (more: seq<Byte>)
    requires n < ChunkCount(job.data) && Laid(job, n, text)
    ensures Laid(job, n + 1, more)
  {
    DataBytesMore(job, n);
    ChunkExtends(job.data, n);
    more := text + Chunk(job.data, n);
  }

  /** The chunks laid end to end are the data again. */
  lemma AllLaid(job: Job)
    ensures AllBytes(DataEntries(job, ChunkCount(job.data))) == job.data
  {
    var text := LaidUpTo(job, ChunkCount(job.data));
    ReachedAll(job.data);
    assert job.data[..|job.data|] == job.data;
  }

  lemma LaidUpTo(job: Job, count: nat) returns (text: seq<Byte>)
    requires count <= ChunkCount(job.data)
    ensures Laid(job, count, text)
  {
    var n := 0;
    text := [];
    LaidNone(job);
    while n < count
      invariant n <= count && Laid(job, n, text)
    {
      text := LaidNext(job, n, text);
      n := n + 1;
    }
  }

  lemma ReachedAll(data: seq<Byte>)
    ensures Reached(data, ChunkCount(data)) == |data|
  {
  }

  /** The bytes of a full block: the whole input, bracketed and followed by a return exactly if asked for. */
  lemma FullBytes(b: Block)
    requires Full(b)
    ensures AllBytes(Render(b)) == (if b.job.bracketed then PASTE_OPEN else []) + b.job.data
            + (if b.job.bracketed then PASTE_CLOSE else []) + (if b.job.appendEnter then CR else [])
  {
    var o := if b.begun then [Open(b.job.At())] else [];
    var d := DataEntries(b.job, b.chunks);
    var c := if b.closed then [Close(b.job.At())] else [];
    var r := if b.entered then [Enter(b.job.At())] else [];
    AllLaid(b.job);
    AllBytesAppend(o + d + c, r);
    AllBytesAppend(o + d, c);
    AllBytesAppend(o, d);
    AllBytesOne(Open(b.job.At()));
    AllBytesOne(Close(b.job.At()));
    AllBytesOne(Enter(b.job.At()));
  }

  // ---- Conservation ----

  lemma SortedDistinct(js: seq<Job>, a: Job, b: Job)
    requires Sorted(js) && a in js && b in js && a.At() == b.At()
    ensures a == b
  {
    var i :| 0 <= i < |js| && js[i] == a;
    var k :| 0 <= k < |js| && js[k] == b;
    if i != k {
      assert false;
    }
  }

  lemma {:induction false} SortedOnce(js: seq<Job>, a: Job)
    requires Sorted(js)
    ensures multiset(js)[a] <= 1
  {
    if js != [] {
      HeadOff(js);
      SortedOnce(js[1..], a);
      if a == js[0] && a in js[1..] {
        assert false;
      }
    }
  }

  lemma {:induction false} EntriesAreFinished(parts: seq<Part>, e: Entry)
    requires AllShaped(parts) && e in RenderAll(parts) && !e.Query?
    ensures exists j :: j in Finished(parts) && j.At() == e.key
  {
    var front, p := parts[..|parts| - 1], parts[|parts| - 1];
    assert p in parts;
    if e in RenderAll(front) {
      EntriesAreFinished(front, e);
      var j :| j in Finished(front) && j.At() == e.key;
      assert j in Finished(parts);
    } else {
      RenderSorted(p.block);
      assert p.block.job in Finished(parts);
    }
  }

  /** Every accepted input is in exactly one place, once: queued, being written or next to be, finished, refused for a
      full queue, cancelled in the queue, or left undelivered at the end; anything else is in none. */
  lemma OnePlace(acts: seq<Action>, job: Job)
    ensures var s := Run(acts);
            multiset(s.normal)[job] + multiset(s.interrupt)[job] + multiset(Current(s.writer))[job]
            + multiset(Finished(s.parts))[job] + multiset(s.refused)[job] + multiset(s.cancelled)[job] + multiset(s.unknown)[job]
            == if job in s.admitted then 1 else 0
  {
    RunKeeps(acts);
    SortedOnce(Run(acts).admitted, job);
  }

  /** An input that is queued, refused, cancelled or left undelivered has no entry in the PTY stream. */
  lemma Accounting(acts: seq<Action>, job: Job)
    requires var s := Run(acts);
             job in s.normal || job in s.interrupt || job in s.refused || job in s.cancelled || job in s.unknown
    ensures job in Run(acts).admitted
    ensures forall e :: e in Run(acts).pty && !e.Query? ==> e.key != job.At()
  {
    RunKeeps(acts);
    var s := Run(acts);
    OnePlace(acts, job);
    assert job in s.admitted && job !in Current(s.writer) && job !in Finished(s.parts);
    PlacedIsAdmitted(s);
    forall e | e in s.pty && !e.Query? ensures e.key != job.At() {
      if e.key == job.At() {
        var j: Job;
        if e in RenderAll(s.parts) {
          EntriesAreFinished(s.parts, e);
          j :| j in Finished(s.parts) && j.At() == e.key;
        } else {
          RenderSorted(s.writer.block);
          j := s.writer.block.job;
          assert j in Current(s.writer);
        }
        SortedDistinct(s.admitted, j, job);
        assert false;
      }
    }
  }

  // ---- Epoch cut-off ----

  /** The entries that needed permission, of jobs of epoch `e`. */
  function OfEpoch(pty: seq<Entry>, e: nat): seq<Entry> {
    if pty == [] then [] else
    var last := pty[|pty| - 1];
    OfEpoch(pty[..|pty| - 1], e) + if NeedsPermission(last) && last.key.epoch == e then [last] else []
  }

  /** At most one entry, and one that needs permission only under the live lease of its job's epoch. */
  ghost predicate FewAndLive(s: State, added: seq<Entry>) {
    |added| <= 1 && forall x :: x in added && NeedsPermission(x) ==> L.LiveEpoch(s.lease, x.key.epoch, s.now)
  }

  lemma MoveLive(s: State, point: Point, b: Block, urgent: Option<Job>, m: Move)
    requires GoodMove(s, point, b, urgent, m)
    ensures FewAndLive(s, m.written)
  {
    L.VerifiedExactly(s.lease, b.job.client, b.job.connection, b.job.epoch, s.now);
  }

  lemma WorkAppends(s: State, allowed: bool, success: bool, alive: bool) returns (added: seq<Entry>)
    requires Inv(s) && Shaped(s)
    ensures Work(s, allowed, success, alive).pty == s.pty + added && FewAndLive(s, added)
  {
    added := [];
    if s.writer.Busy? && s.writer.point != Finish && !(s.writer.point == Start && !alive) {
      WriterJobAdmitted(s);
      var w := s.writer;
      MoveGood(s, w.point, w.block, w.urgent, allowed, success);
      var m := Advance(s, w.point, w.block, allowed, success);
      MoveLive(s, w.point, w.block, w.urgent, m);
      added := m.written;
    } else {
      assert s.pty + [] == s.pty;
    }
  }

  lemma SelectAppends(s: State, stop: bool, query: Option<seq<Byte>>, success: bool) returns (added: seq<Entry>)
    ensures Select(s, stop, query, success).pty == s.pty + added && FewAndLive(s, added)
  {
    added := [];
    assert s.pty + [] == s.pty;
    if Select(s, stop, query, success).pty != s.pty {
      added := [Query(query.value)];
    }
  }

  lemma RequestAppends(s: State, a: Action)
    requires !a.WriterWorks? && !a.WriterSelects?
    ensures Step(s, a).pty == s.pty
  {
    RequestIsAdmit(s, a);
    if a.Input? {
      AdmitQuiet(s, TypedJob(a), MAX_INPUT, a.data == INTERRUPT);
    } else if a.Paste? {
      AdmitQuiet(s, PastedJob(a), MAX_PASTE, false);
    }
  }

  lemma StepAppends(s: State, a: Action) returns (added: seq<Entry>)
    requires Inv(s) && Shaped(s)
    ensures Step(s, a).pty == s.pty + added && FewAndLive(s, added)
  {
    if a.WriterWorks? {
      added := WorkAppends(s, a.allowed, a.success, a.alive);
    } else if a.WriterSelects? {
      added := SelectAppends(s, a.stop, a.query, a.success);
    } else {
      RequestAppends(s, a);
      added := [];
      assert s.pty + [] == s.pty;
    }
  }

  lemma StepDead(s: State, a: Action, e: nat)
    requires e <= s.lease.epoch && !L.LiveEpoch(s.lease, e, s.now)
    ensures var t := Step(s, a); e <= t.lease.epoch && !L.LiveEpoch(t.lease, e, t.now)
  {
    match a {
      case LeaseOp(op, _) => L.DeadStep(s.lease, op, e, s.now, s.now);
      case _ =>
    }
  }

  lemma CutoffAdded(s: State, pty: seq<Entry>, added: seq<Entry>, e: nat)
    requires FewAndLive(s, added) && !L.LiveEpoch(s.lease, e, s.now)
    ensures OfEpoch(pty + added, e) == OfEpoch(pty, e)
  {
    if added == [] {
      assert pty + added == pty;
    } else {
      var x := added[0];
      assert x in added && added == [x];
      assert (pty + [x])[..|pty|] == pty;
    }
  }

  /** The lease of epoch `e` was issued, and has been passed, revoked or left to expire. */
  predicate Dead(s: State, e: nat) { e <= s.lease.epoch && !L.LiveEpoch(s.lease, e, s.now) }

  lemma CutoffStep(s: State, t: State, a: Action, e: nat)
    requires Inv(s) && Shaped(s) && Dead(s, e) && t == Step(s, a)
    ensures OfEpoch(t.pty, e) == OfEpoch(s.pty, e) && Dead(t, e)
  {
    var added := StepAppends(s, a);
    CutoffAdded(s, s.pty, added, e);
    StepDead(s, a, e);
  }

  lemma RunOne(acts: seq<Action>, a: Action)
    ensures Run(acts + [a]) == Step(Run(acts), a)
  {
    FoldOne(Step, INITIAL, acts, a);
  }

  /** Once the lease epoch has moved past `e`, or its lease was revoked or expired, no run adds another opening
      bracket, data chunk or return of an epoch-`e` job. Only a closing bracket may still follow. */
  lemma {:induction false} EpochCutoff(acts: seq<Action>, more: seq<Action>, e: nat)
    requires Dead(Run(acts), e)
    ensures OfEpoch(Run(acts + more).pty, e) == OfEpoch(Run(acts).pty, e) && Dead(Run(acts + more), e)
  {
    if more == [] {
      assert acts + more == acts;
    } else {
      var m, a := more[..|more| - 1], more[|more| - 1];
      EpochCutoff(acts, m, e);
      assert acts + more == (acts + m) + [a];
      RunOne(acts + m, a);
      RunKeeps(acts + m);
      CutoffStep(Run(acts + m), Run(acts + more), a, e);
    }
  }
}
