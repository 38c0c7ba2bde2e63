/** crates/rc-agent/src/perf.rs: admission of recorders, the bounded queue, closing, and the writer. Any number of
    recording threads interleave with the closing thread and the writer between any two accesses to shared state. */
module Trace {
  import opened Protocol
  import W = TraceWriting

  const CLOSED_BIT := 0x8000_0000_0000_0000
  const PRODUCER_MASK := 0x7fff_ffff_ffff_ffff
  const WORD := 0x1_0000_0000_0000_0000
  const CAPACITY := 8192

  /** A recording thread: outside, about to exchange after loading `current`, and the points inside. */
  datatype Recorder = Outside | Trying(current: nat, event: W.Event) | Sending(event: W.Event) | Dropping | Releasing

  /** The thread in `finish_inner`: before closing, waiting for the recorders, done waiting, and after the signal. */
  datatype Closer = Open | Waiting | Closed(ok: bool) | Signaled(ok: bool)

  datatype Writer = Polling | Receiving | Draining | Finishing | Finished | Broken

  datatype Footer = Footer(samples: nat, dropped: nat)

  /** `observed` is what the writer was given so far, `admitted` how many records were let in: history. */
  datatype State = State(admission: nat, dropped: nat, queue: seq<W.Event>, recorders: seq<Recorder>, closer: Closer,
                         writer: Writer, footer: Option<Footer>, observed: seq<W.Event>, admitted: nat)

  const START := State(0, 0, [], [], Open, Polling, None, [], 0)

  datatype Action =
    | Spawn
    | Record(thread: nat, event: W.Event, spurious: bool)
    | Finish(timeout: bool)
    | Write(empty: bool)             // `empty`: a receive that times out
    | Break                          // an I/O error ends the writer

  /** `admit`'s exchange; a weak one may fail for no reason. */
  function Exchange(s: State, i: nat, current: nat, event: W.Event, spurious: bool): State
    requires i < |s.recorders|
  {
    if current >= CLOSED_BIT || current % CLOSED_BIT == PRODUCER_MASK then s.(recorders := s.recorders[i := Outside])
    else if s.admission == current && !spurious
    then s.(admission := current + 1, admitted := s.admitted + 1, recorders := s.recorders[i := Sending(event)])
    else s.(recorders := s.recorders[i := Trying(s.admission, event)])
  }

  predicate WriterGone(w: Writer) { w == Finished || w == Broken }

  function RecordStep(s: State, i: nat, event: W.Event, spurious: bool): State
    requires i < |s.recorders|
  {
    match s.recorders[i]
    case Outside => s.(recorders := s.recorders[i := Trying(s.admission, event)])
    case Trying(current, e) => Exchange(s, i, current, e, spurious)
    case Sending(e) =>
      if |s.queue| >= CAPACITY || WriterGone(s.writer) then s.(recorders := s.recorders[i := Dropping])
      else s.(queue := s.queue + [e], recorders := s.recorders[i := Releasing])
    case Dropping => s.(dropped := s.dropped + 1, recorders := s.recorders[i := Releasing])
    case Releasing =>
      s.(admission := if s.admission == 0 then WORD - 1 else s.admission - 1, recorders := s.recorders[i := Outside])
  }

  function FinishStep(s: State, timeout: bool): State {
    match s.closer
    case Open => s.(admission := if s.admission >= CLOSED_BIT then s.admission else s.admission + CLOSED_BIT, closer := Waiting)
    case Waiting =>
      if s.admission % CLOSED_BIT == 0 then s.(closer := Closed(true))
      else if timeout then s.(closer := Closed(false)) else s
    case Closed(ok) => s.(closer := Signaled(ok))
    case Signaled(_) => s
  }

  function WriteStep(s: State, empty: bool): State {
    match s.writer
    case Polling => s.(writer := if s.closer.Signaled? then Draining else Receiving)
    case Receiving =>
      if s.queue == [] || empty then s.(writer := Polling)
      else s.(queue := s.queue[1..], observed := s.observed + [s.queue[0]], writer := Polling)
    case Draining =>
      if s.queue == [] then s.(writer := Finishing)
      else s.(queue := s.queue[1..], observed := s.observed + [s.queue[0]])
    case Finishing => s.(footer := Some(Footer(|s.observed|, s.dropped)), writer := Finished)
    case _ => s
  }

  function Step(s: State, a: Action): State {
    match a
    case Spawn => s.(recorders := s.recorders + [Outside])
    case Record(i, event, spurious) => if i < |s.recorders| then RecordStep(s, i, event, spurious) else s
    case Finish(timeout) => FinishStep(s, timeout)
    case Write(empty) => WriteStep(s, empty)
    case Break => if s.writer == Finished then s else s.(writer := Broken)
  }

  function Run(acts: seq<Action>): State {
    if acts == [] then START else Step(Run(acts[..|acts| - 1]), acts[|acts| - 1])
  }

  // ---- Counting recorders ----

  /** Counted by the admission word. */
  function Admitted(r: Recorder): nat { if r.Sending? || r.Dropping? || r.Releasing? then 1 else 0 }

  /** Neither queued nor dropped yet. */
  function Unsettled(r: Recorder): nat { if r.Sending? || r.Dropping? then 1 else 0 }

  function Count(weight: Recorder -> nat, rs: seq<Recorder>): nat {
    if rs == [] then 0 else Count(weight, rs[..|rs| - 1]) + weight(rs[|rs| - 1])
  }

  lemma {:induction false} CountUpdate(weight: Recorder -> nat, rs: seq<Recorder>, i: nat, r: Recorder)
    requires i < |rs|
    ensures Count(weight, rs[i := r]) + weight(rs[i]) == Count(weight, rs) + weight(r)
  {
    var n := |rs| - 1;
    if i < n {
      assert rs[i := r][..n] == rs[..n][i := r];
      CountUpdate(weight, rs[..n], i, r);
    } else {
      assert rs[i := r][..n] == rs[..n];
    }
  }

  lemma CountMore(weight: Recorder -> nat, rs: seq<Recorder>, r: Recorder)
    ensures Count(weight, rs + [r]) == Count(weight, rs) + weight(r)
  {
    assert (rs + [r])[..|rs|] == rs;
  }

  lemma {:induction false} CountOrder(rs: seq<Recorder>)
    ensures Count(Unsettled, rs) <= Count(Admitted, rs)
  {
    if rs != [] {
      CountOrder(rs[..|rs| - 1]);
    }
  }

  function Inside(s: State): nat { Count(Admitted, s.recorders) }

  function Pending(s: State): nat { Count(Unsettled, s.recorders) }

  // ---- The invariant ----

  /** The word is the number of recorders inside, plus the closed bit: the count never carries into it. */
  predicate WordGood(s: State) {
    Inside(s) <= PRODUCER_MASK && s.admission == Inside(s) + if s.closer == Open then 0 else CLOSED_BIT
  }

  /** Every admitted record is observed, queued, dropped, or still on its way. */
  predicate Conserved(s: State) { s.admitted == |s.observed| + |s.queue| + s.dropped + Pending(s) }

  predicate DrainedOk(s: State) { s.closer == Closed(true) || s.closer == Signaled(true) }

  /** Once closing succeeded nobody is inside; the writer stops only after the signal, with the queue empty then. */
  predicate WriterGood(s: State) {
    && (DrainedOk(s) ==> Inside(s) == 0)
    && (s.writer.Draining? || s.writer.Finishing? || s.writer.Finished? ==> s.closer.Signaled?)
    && (DrainedOk(s) && (s.writer.Finishing? || s.writer.Finished?) ==> s.queue == [])
    && (s.footer.Some? <==> s.writer.Finished?)
    && (s.footer.Some? ==> s.footer.value.samples == |s.observed| && s.footer.value.dropped <= s.dropped)
    && (s.footer.Some? && DrainedOk(s) ==> s.footer.value.dropped == s.dropped)
  }

  predicate Good(s: State) { WordGood(s) && Conserved(s) && WriterGood(s) }

  // ---- Every step keeps it ----

  lemma ExchangeGood(s: State, i: nat, current: nat, event: W.Event, spurious: bool)
    requires Good(s) && i < |s.recorders| && s.recorders[i] == Trying(current, event)
    ensures Good(Exchange(s, i, current, event, spurious))
  {
    var r := Exchange(s, i, current, event, spurious).recorders[i];
    CountUpdate(Admitted, s.recorders, i, r);
    CountUpdate(Unsettled, s.recorders, i, r);
  }

  lemma SendGood(s: State, i: nat, e: W.Event)
    requires Good(s) && i < |s.recorders| && s.recorders[i] == Sending(e)
    ensures Good(RecordStep(s, i, e, false)) && RecordStep(s, i, e, true) == RecordStep(s, i, e, false)
  {
    SomebodyInside(s, i);
    var r := RecordStep(s, i, e, false).recorders[i];
    CountUpdate(Admitted, s.recorders, i, r);
    CountUpdate(Unsettled, s.recorders, i, r);
  }

  lemma {:induction false} CountAt(weight: Recorder -> nat, rs: seq<Recorder>, i: nat)
    requires i < |rs|
    ensures weight(rs[i]) <= Count(weight, rs)
  {
    if i < |rs| - 1 {
      CountAt(weight, rs[..|rs| - 1], i);
    }
  }

  /** A recorder inside keeps closing from succeeding. */
  lemma SomebodyInside(s: State, i: nat)
    requires Good(s) && i < |s.recorders| && Admitted(s.recorders[i]) == 1
    ensures Inside(s) >= 1 && !DrainedOk(s)
  {
    CountAt(Admitted, s.recorders, i);
  }

  lemma RecordGood(s: State, i: nat, event: W.Event, spurious: bool)
    requires Good(s) && i < |s.recorders|
    ensures Good(RecordStep(s, i, event, spurious))
  {
    match s.recorders[i] {
      case Trying(current, e) => ExchangeGood(s, i, current, e, spurious);
      case Sending(e) => SendGood(s, i, e);
      case _ =>
        if Admitted(s.recorders[i]) == 1 {
          SomebodyInside(s, i);
        }
        var r := RecordStep(s, i, event, spurious).recorders[i];
        CountUpdate(Admitted, s.recorders, i, r);
        CountUpdate(Unsettled, s.recorders, i, r);
    }
  }

  lemma FinishGood(s: State, timeout: bool)
    requires Good(s)
    ensures Good(FinishStep(s, timeout))
  {
  }

  lemma WriteGood(s: State, empty: bool)
    requires Good(s)
    ensures Good(WriteStep(s, empty))
  {
    CountOrder(s.recorders);
  }

  lemma StepGood(s: State, a: Action)
    requires Good(s)
    ensures Good(Step(s, a))
  {
    match a {
      case Spawn =>
        CountMore(Admitted, s.recorders, Outside);
        CountMore(Unsettled, s.recorders, Outside);
      case Record(i, event, spurious) =>
        if i < |s.recorders| {
          RecordGood(s, i, event, spurious);
        }
      case Finish(timeout) => FinishGood(s, timeout);
      case Write(empty) => WriteGood(s, empty);
      case Break =>
    }
  }

  lemma {:induction false} RunGood(acts: seq<Action>)
    ensures Good(Run(acts))
  {
    if acts != [] {
      RunGood(acts[..|acts| - 1]);
      StepGood(Run(acts[..|acts| - 1]), acts[|acts| - 1]);
    }
  }

  // ---- Main results ----

  /** For any number of concurrent recorders: when closing succeeded, the footer accounts for every record that was
      ever admitted, as a sample or as dropped, and whatever is recorded later does not change that. */
  lemma FooterAccountsForAll(acts: seq<Action>)
    ensures var s := Run(acts);
            s.footer.Some? && s.closer == Signaled(true) ==> s.footer.value.samples + s.footer.value.dropped == s.admitted
  {
    RunGood(acts);
    CountOrder(Run(acts).recorders);
  }

  /** Whether closing succeeded or timed out, the footer never accounts for more than was admitted. */
  lemma FooterNeverExceeds(acts: seq<Action>)
    ensures var s := Run(acts); s.footer.Some? ==> s.footer.value.samples + s.footer.value.dropped <= s.admitted
  {
    RunGood(acts);
  }

  /** The admission word stays within 64 bits, its top bit is set exactly once closing began, and below it is the
      number of recorders inside. */
  lemma NoCarry(acts: seq<Action>)
    ensures var s := Run(acts);
            && s.admission < WORD && (s.admission >= CLOSED_BIT <==> s.closer != Open)
            && s.admission % CLOSED_BIT == Inside(s) <= PRODUCER_MASK
  {
    RunGood(acts);
    WordBits(Run(acts));
  }

  lemma WordBits(s: State)
    requires WordGood(s)
    ensures s.admission < WORD && (s.admission >= CLOSED_BIT <==> s.closer != Open) && s.admission % CLOSED_BIT == Inside(s)
  {
    var n := Inside(s);
    assert n % CLOSED_BIT == n && (n + CLOSED_BIT) % CLOSED_BIT == n;
  }

  /** The footer's samples are what the global histogram of the trace writer counts, and its session and bucket
      counts add up to the same number. */
  lemma SamplesAgree(acts: seq<Action>)
    ensures var s := Run(acts);
            s.footer.Some? ==>
              && s.footer.value.samples == |W.All(s.observed)|
              && s.footer.value.samples == W.Added(s.observed, W.Keys(s.observed)) + |W.Outside(s.observed, W.Keys(s.observed))|
  {
    RunGood(acts);
    W.CountsAgree(Run(acts).observed);
  }
}
