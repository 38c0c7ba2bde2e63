/** What becomes of a record, and of a trace that is closed in peace: crates/rc-agent/src/perf.rs. */
module TraceProgress {
  import opened Protocol
  import W = TraceWriting
  import opened Trace

  // ---- One record ----

  /** `n` accesses of one recorder, with nobody in between. */
  function Alone(s: State, i: nat, event: W.Event, n: nat): State
    decreases n, s
  {
    if n == 0 then s else Step(Alone(s, i, event, n - 1), Record(i, event, false))
  }

  predicate Room(s: State) { |s.queue| < CAPACITY && !WriterGone(s.writer) }

  lemma TwoAccesses(s: State, i: nat, event: W.Event)
    requires i < |s.recorders| && s.recorders[i] == Outside && s.admission < WORD
    ensures Alone(s, i, event, 2)
         == if s.admission < CLOSED_BIT && s.admission != PRODUCER_MASK
            then s.(admission := s.admission + 1, admitted := s.admitted + 1, recorders := s.recorders[i := Sending(event)])
            else s
  {
    var t := s.(recorders := s.recorders[i := Trying(s.admission, event)]);
    assert Alone(s, i, event, 0) == s && Alone(s, i, event, 1) == t;
    assert s.recorders[i := Outside] == s.recorders;
    if s.admission < CLOSED_BIT {
      assert s.admission % CLOSED_BIT == s.admission;
    }
  }

  lemma QueuedAccesses(s: State, i: nat, event: W.Event, t: State)
    requires i < |s.recorders| && s.recorders[i] == Outside && Room(s)
    requires t == s.(admission := s.admission + 1, admitted := s.admitted + 1, recorders := s.recorders[i := Sending(event)])
    requires Alone(s, i, event, 2) == t
    ensures Alone(s, i, event, 4) == s.(queue := s.queue + [event], admitted := s.admitted + 1)
  {
    var u := t.(queue := s.queue + [event], recorders := s.recorders[i := Releasing]);
    assert t.recorders[i := Releasing] == u.recorders && u.recorders[i := Outside] == s.recorders;
    assert Alone(s, i, event, 3) == u;
  }

  lemma DroppedAccesses(s: State, i: nat, event: W.Event, t: State)
    requires i < |s.recorders| && s.recorders[i] == Outside && !Room(s)
    requires t == s.(admission := s.admission + 1, admitted := s.admitted + 1, recorders := s.recorders[i := Sending(event)])
    requires Alone(s, i, event, 2) == t
    ensures Alone(s, i, event, 5) == s.(dropped := s.dropped + 1, admitted := s.admitted + 1)
  {
    var u := t.(recorders := s.recorders[i := Dropping]);
    var v := u.(dropped := s.dropped + 1, recorders := s.recorders[i := Releasing]);
    assert t.recorders[i := Dropping] == u.recorders && u.recorders[i := Releasing] == v.recorders;
    assert v.recorders[i := Outside] == s.recorders;
    assert Alone(s, i, event, 3) == u;
    assert Alone(s, i, event, 4) == v;
  }

  /** A record that nothing disturbs: it is let in exactly if closing has not begun and fewer than 2^63 - 1 recorders are
      inside; then it is queued if the queue has room and somebody to read it, and otherwise counted as dropped. What is
      not let in leaves no trace. */
  lemma RecordExactly(acts: seq<Action>, i: nat, event: W.Event)
    requires i < |Run(acts).recorders| && Run(acts).recorders[i] == Outside
    ensures var s := Run(acts);
            if s.closer != Open || Inside(s) == PRODUCER_MASK then Alone(s, i, event, 2) == s
            else if Room(s) then Alone(s, i, event, 4) == s.(queue := s.queue + [event], admitted := s.admitted + 1)
            else Alone(s, i, event, 5) == s.(dropped := s.dropped + 1, admitted := s.admitted + 1)
  {
    var s := Run(acts);
    RunGood(acts);
    NoCarry(acts);
    TwoAccesses(s, i, event);
    if s.closer == Open && Inside(s) != PRODUCER_MASK {
      var t := Alone(s, i, event, 2);
      if Room(s) {
        QueuedAccesses(s, i, event, t);
      } else {
        DroppedAccesses(s, i, event, t);
      }
    }
  }

  // ---- The writer ----

  /** Before it is told to stop, two accesses of the writer take the oldest record out of the queue, if there is one. */
  lemma WritesOldest(s: State)
    requires s.writer == Polling && !s.closer.Signaled?
    ensures WriteStep(WriteStep(s, false), false)
         == if s.queue == [] then s else s.(queue := s.queue[1..], observed := s.observed + [s.queue[0]])
  {
    assert WriteStep(s, false) == s.(writer := Receiving);
  }

  // ---- Closing ----

  /** `n` accesses of the writer, with nobody in between. */
  function Writes(s: State, n: nat): State
    decreases n, s
  {
    if n == 0 then s else Writes(WriteStep(s, false), n - 1)
  }

  /** A writer told to stop takes everything out of the queue. */
  lemma {:induction false} Drains(s: State)
    requires s.writer == Draining
    ensures Writes(s, |s.queue| + 2)
         == s.(queue := [], observed := s.observed + s.queue, writer := Finished,
               footer := Some(Footer(|s.observed| + |s.queue|, s.dropped)))
    decreases |s.queue|
  {
    var t := WriteStep(s, false);
    if s.queue == [] {
      assert s.observed + s.queue == s.observed;
      assert Writes(s, 2) == Writes(t, 1);
      assert Writes(t, 1) == Writes(WriteStep(t, false), 0);
    } else {
      Drains(t);
      assert (s.observed + [s.queue[0]]) + s.queue[1..] == s.observed + s.queue;
    }
  }

  /** The three accesses of a closing thread that need not wait. */
  function Closing(s: State): State { FinishStep(FinishStep(FinishStep(s, false), false), false) }

  lemma Signals(s: State)
    requires s.closer == Open && s.admission == 0
    ensures Closing(s) == s.(admission := CLOSED_BIT, closer := Signaled(true))
  {
    assert CLOSED_BIT % CLOSED_BIT == 0;
  }

  /** `u` is the end of `s`: everything queued was written, and the footer says so. */
  predicate Complete(s: State, u: State) {
    u.footer == Some(Footer(|s.observed| + |s.queue|, s.dropped)) && u.observed == s.observed + s.queue
  }

  lemma DrainsAll(t: State)
    requires t.closer.Signaled? && t.writer == Polling
    ensures Complete(t, Writes(t, |t.queue| + 3))
  {
    var d := t.(writer := Draining);
    assert WriteStep(t, false) == d;
    Drains(d);
  }

  lemma ClosedInPeace(s: State)
    requires s.closer == Open && s.admission == 0 && s.writer == Polling
    ensures Complete(s, Writes(Closing(s), |s.queue| + 3))
  {
    Signals(s);
    DrainsAll(s.(admission := CLOSED_BIT, closer := Signaled(true)));
  }

  /** With nobody recording, the word is zero, and everything admitted was written, queued or dropped. */
  lemma NobodyInside(acts: seq<Action>)
    requires Run(acts).closer == Open && Inside(Run(acts)) == 0
    ensures var s := Run(acts); s.admission == 0 && |s.observed| + |s.queue| + s.dropped == s.admitted
  {
    RunGood(acts);
    CountOrder(Run(acts).recorders);
  }

  /** A trace that is closed when nobody is recording ends with a footer that has every record of the run: as a sample all
      that were queued, and as dropped the rest. */
  lemma CompleteTrace(acts: seq<Action>)
    requires var s := Run(acts); s.closer == Open && Inside(s) == 0 && s.writer == Polling
    ensures var s := Run(acts);
            Complete(s, Writes(Closing(s), |s.queue| + 3)) && |s.observed| + |s.queue| + s.dropped == s.admitted
  {
    NobodyInside(acts);
    ClosedInPeace(Run(acts));
  }
}
