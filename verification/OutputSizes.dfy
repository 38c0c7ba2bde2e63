/** How large an event can be: one read returns at most 32768 bytes, the fence can triple them, and a token is never
    split over two events. */
module OutputSizes {
  import opened Bytes
  import F = Frames
  import Codec
  import Fence
  import FenceTheory
  import Guard
  import Ring
  import Source = OutputSource
  import opened OutputPath
  import opened OutputTheory

  /** Three bytes for each of a read, and one more where its first byte ends a scalar begun before it. */
  const LARGEST_PAYLOAD := 3 * F.MAX_PAYLOAD + 1
  const LARGEST_EVENT := LARGEST_PAYLOAD + F.HEADER_LEN

  // ---- Tokens ----

  /** One for a scalar begun. */
  function Begun(f: Fence.State): nat { if f.utf8 != [] then 1 else 0 }

  lemma TextStep(f: Fence.State, b: Byte)
    requires FenceTheory.Good(f)
    ensures var e := Fence.Delta(f, b); |e.text| + Begun(e.next) <= 3 + Begun(f) && |e.token| <= Fence.LIMIT
  {
    FenceTheory.DeltaGood(f, b);
    if f.mode == Fence.Ground {
      GroundText(f, b);
    }
  }

  lemma GroundText(f: Fence.State, b: Byte)
    requires FenceTheory.Good(f) && f.mode == Fence.Ground
    ensures var e := Fence.GroundDelta(f, b); |e.text| + Begun(e.next) <= 3 + Begun(f)
  {
  }

  /** No token is longer than `cap`. */
  ghost predicate Within(out: seq<seq<Byte>>, cap: nat) { forall t :: t in out ==> |t| <= cap }

  lemma {:induction false} WorkGood(f: Fence.State, bytes: seq<Byte>)
    requires FenceTheory.Good(f)
    ensures FenceTheory.Good(Fold(Fence.Advance, Fence.Work(f, [], []), bytes).fence)
  {
    if bytes != [] {
      WorkGood(f, bytes[..|bytes| - 1]);
      FenceTheory.DeltaGood(Fold(Fence.Advance, Fence.Work(f, [], []), bytes[..|bytes| - 1]).fence, bytes[|bytes| - 1]);
    }
  }

  /** Three bytes of text for each byte read, and one for a scalar begun before. */
  predicate Paced(f: Fence.State, w: Fence.Work, n: nat) { |w.text| + Begun(w.fence) <= 3 * n + Begun(f) }

  lemma PacedStep(f: Fence.State, w: Fence.Work, n: nat, b: Byte, v: Fence.Work, cap: nat)
    requires FenceTheory.Good(w.fence) && Paced(f, w, n) && v == Fence.Advance(w, b)
    requires Within(w.out, cap) && 3 * (n + 1) + Begun(f) <= cap && Fence.LIMIT <= cap
    ensures Paced(f, v, n + 1) && Within(v.out, cap)
  {
    TextStep(w.fence, b);
    PacedWith(f, w, n, Fence.Delta(w.fence, b), v, cap);
  }

  lemma PacedWith(f: Fence.State, w: Fence.Work, n: nat, e: Fence.Effect, v: Fence.Work, cap: nat)
    requires Paced(f, w, n) && v == Fence.AdvanceWith(w, e)
    requires Within(w.out, cap) && 3 * (n + 1) + Begun(f) <= cap && Fence.LIMIT <= cap
    requires |e.text| + Begun(e.next) <= 3 + Begun(w.fence) && |e.token| <= Fence.LIMIT
    ensures Paced(f, v, n + 1) && Within(v.out, cap)
  {
  }

  lemma {:induction false} PacedAll(f: Fence.State, bytes: seq<Byte>, cap: nat, w: Fence.Work)
    requires FenceTheory.Good(f) && w == Fold(Fence.Advance, Fence.Work(f, [], []), bytes)
    requires 3 * |bytes| + Begun(f) <= cap && Fence.LIMIT <= cap
    ensures Paced(f, w, |bytes|) && Within(w.out, cap)
  {
    if bytes != [] {
      var front := bytes[..|bytes| - 1];
      var v := Fold(Fence.Advance, Fence.Work(f, [], []), front);
      PacedAll(f, front, cap, v);
      WorkGood(f, front);
      PacedStep(f, v, |front|, bytes[|front|], w, cap);
    }
  }

  /** No token of one read is longer than the largest payload. */
  lemma TokensFit(f: Fence.State, bytes: seq<Byte>)
    requires FenceTheory.Good(f) && |bytes| <= F.MAX_PAYLOAD
    ensures FenceTheory.Good(Fence.Release(f, bytes).0)
    ensures forall t :: t in Fence.Release(f, bytes).1 ==> |t| <= LARGEST_PAYLOAD
  {
    PacedAll(f, bytes, LARGEST_PAYLOAD, Fold(Fence.Advance, Fence.Work(f, [], []), bytes));
    WorkGood(f, bytes);
  }

  // ---- Events ----

  /** Every event fits, and the fence is one a run reaches. */
  ghost predicate EventsFit(s: Source.State) {
    FenceTheory.Good(s.fence) && forall e :: e in s.log ==> e.Size() <= LARGEST_EVENT
  }

  lemma PayloadsFit(tokens: seq<seq<Byte>>)
    requires [] !in tokens && forall t :: t in tokens ==> |t| <= LARGEST_PAYLOAD
    ensures forall p :: p in Source.Payloads(tokens) ==> |p| <= LARGEST_PAYLOAD
  {
    Source.BatchesHold(tokens);
  }

  lemma {:induction false} NoEmptyToken(w: Fence.Work, bytes: seq<Byte>)
    requires [] !in w.out
    ensures [] !in Fold(Fence.Advance, w, bytes).out
  {
    if bytes != [] {
      var before := Fold(Fence.Advance, w, bytes[..|bytes| - 1]);
      NoEmptyToken(w, bytes[..|bytes| - 1]);
      NoEmptyPut(before, Fence.Delta(before.fence, bytes[|bytes| - 1]));
    }
  }

  lemma NoEmptyPut(w: Fence.Work, e: Fence.Effect)
    requires [] !in w.out
    ensures [] !in Fence.AdvanceWith(w, e).out
  {
  }

  lemma {:induction false} EmitAllKeeps(who: Guard.Identity, s: Source.State, payloads: seq<seq<Byte>>)
    ensures var t := Source.EmitAll(who, s, payloads); t.fence == s.fence && t.limit == s.limit
  {
    if payloads != [] {
      EmitAllKeeps(who, s, payloads[..|payloads| - 1]);
    }
  }

  lemma IngestFence(who: Guard.Identity, s: Source.State, bytes: seq<Byte>)
    ensures var t := Source.Ingest(who, s, bytes); t.fence == Fence.Release(s.fence, bytes).0 && t.limit == s.limit
  {
    var (fence, tokens) := Fence.Release(s.fence, bytes);
    EmitAllKeeps(who, s.(fence := fence), Source.Payloads(tokens));
  }

  lemma {:induction false} EmitAllFits(who: Guard.Identity, s: Source.State, payloads: seq<seq<Byte>>)
    requires EventsFit(s) && forall p :: p in payloads ==> |p| <= LARGEST_PAYLOAD
    ensures EventsFit(Source.EmitAll(who, s, payloads))
  {
    if payloads != [] {
      assert payloads[|payloads| - 1] in payloads;
      EmitAllFits(who, s, payloads[..|payloads| - 1]);
    }
  }

  lemma IngestFits(who: Guard.Identity, s: Source.State, bytes: seq<Byte>)
    requires EventsFit(s) && |bytes| <= F.MAX_PAYLOAD
    ensures EventsFit(Source.Ingest(who, s, bytes))
  {
    var (fence, tokens) := Fence.Release(s.fence, bytes);
    TokensFit(s.fence, bytes);
    NoEmptyToken(Fence.Work(s.fence, [], []), bytes);
    PayloadsFit(tokens);
    EmitAllFits(who, s.(fence := fence), Source.Payloads(tokens));
  }

  lemma StepFits(s: State, a: Action)
    requires EventsFit(s.source)
    ensures EventsFit(Step(s, a).source) && Step(s, a).source.limit == s.source.limit
  {
    match a {
      case Read(bytes) =>
        if |bytes| <= F.MAX_PAYLOAD {
          IngestFits(s.who, s.source, bytes);
          IngestFence(s.who, s.source, bytes);
        }
      case ResizeTo(cols, rows) =>
      case _ => assert Step(s, a).source == s.source;
    }
  }

  /** No event of any run takes more than 98345 bytes, its header included. */
  lemma {:induction false} EventBound(who: Guard.Identity, limit: nat, cols: nat, rows: nat, acts: seq<Action>)
    ensures var s := Run(Initial(who, limit, cols, rows), acts);
            && (forall e :: e in s.source.log ==> e.Size() <= LARGEST_EVENT)
            && EventsFit(s.source) && s.source.limit == limit
  {
    if acts != [] {
      EventBound(who, limit, cols, rows, acts[..|acts| - 1]);
      StepFits(Run(Initial(who, limit, cols, rows), acts[..|acts| - 1]), acts[|acts| - 1]);
    }
  }

  /** So a ring of that size is never lost whole. */
  lemma RingKept(who: Guard.Identity, limit: nat, cols: nat, rows: nat, acts: seq<Action>)
    requires limit >= LARGEST_EVENT
    ensures !Ring.LostAll(Run(Initial(who, limit, cols, rows), acts).source.log, limit)
  {
    EventBound(who, limit, cols, rows, acts);
    var log := Run(Initial(who, limit, cols, rows), acts).source.log;
    Ring.LostAllExactly(log, limit);
    if log != [] {
      assert log[|log| - 1] in log;
    }
  }

  // ---- Reads whose events are too large ----

  function Stray(n: nat): seq<Byte> { seq(n, _ => 0x80) }

  /** Stray continuation bytes after some text make it three bytes longer each. */
  lemma {:induction false} StrayMore(w: Fence.Work, n: nat)
    requires w.fence == Fence.FRESH
    ensures var v := Fold(Fence.Advance, w, Stray(n)); v.fence == w.fence && v.out == w.out && |v.text| == |w.text| + 3 * n
  {
    if n > 0 {
      StrayMore(w, n - 1);
      assert Stray(n) == Stray(n - 1) + [0x80];
      FoldOne(Fence.Advance, w, Stray(n - 1), 0x80);
    }
  }

  /** n stray continuation bytes are released as one token of 3n bytes. */
  lemma StrayReleased(n: nat) returns (t: seq<Byte>)
    requires n > 0
    ensures Fence.Release(Fence.FRESH, Stray(n)) == (Fence.FRESH, [t]) && |t| == 3 * n
  {
    StrayMore(Fence.Work(Fence.FRESH, [], []), n);
    t := Fold(Fence.Advance, Fence.Work(Fence.FRESH, [], []), Stray(n)).text;
    assert [] + [t] == [t];
  }

  lemma OneEmitted(who: Guard.Identity, s: Source.State, p: seq<Byte>)
    ensures Source.EmitAll(who, s, [p]) == Source.Emit(who, s, p)
  {
    assert [p][..0] == [];
  }

  lemma OneTokenPayload(t: seq<Byte>)
    requires t != []
    ensures Source.Payloads([t]) == [t]
  {
    FoldOne(Source.Put, Source.Batches([], []), [], t);
    assert [] + [t] == [t];
    assert [] + t == t;
  }

  /** A read that releases one token is logged as one event. */
  lemma OneLogged(who: Guard.Identity, src: Source.State, bytes: seq<Byte>, fence: Fence.State, t: seq<Byte>)
    requires t != [] && Fence.Release(src.fence, bytes) == (fence, [t])
    ensures Source.Ingest(who, src, bytes) == Source.Emit(who, src.(fence := fence), t)
  {
    OneTokenPayload(t);
    OneEmitted(who, src.(fence := fence), t);
  }

  /** An event's payload may exceed 32768 bytes: one read of n stray continuation bytes is logged as a single event
      of 3n bytes, and `encode` refuses every frame over the limit. */
  lemma OversizedEvent(who: Guard.Identity, limit: nat, cols: nat, rows: nat, n: nat)
    requires 0 < n <= F.MAX_PAYLOAD
    ensures var s := Run(Initial(who, limit, cols, rows), [Read(Stray(n))]);
            && |s.source.log| == 1 && s.source.log[0].kind == F.OUTPUT && |s.source.log[0].payload| == 3 * n
            && (n > 10922 ==> !Codec.Encodable(s.source.log[0]))
  {
    var start := Initial(who, limit, cols, rows);
    FoldOne(Step, start, [], Read(Stray(n)));
    assert [] + [Read(Stray(n))] == [Read(Stray(n))];
    var t := StrayReleased(n);
    OneLogged(who, start.source, Stray(n), Fence.FRESH, t);
  }

  /** The first byte of a scalar of two. */
  const LEAD: seq<Byte> := [0xc3]
  const LED := Fence.State(Fence.Ground, [], LEAD, false, 0)

  /** A letter that cuts the scalar short, and stray bytes: as many as one read can return. */
  const MOST: seq<Byte> := [0x61] + Stray(F.MAX_PAYLOAD - 1)

  lemma LeadHeld()
    ensures Fence.Release(Fence.FRESH, LEAD) == (LED, [])
  {
    FoldFront(Fence.Advance, Fence.Work(Fence.FRESH, [], []), 0xc3, []);
    assert [0xc3] + [] == LEAD;
  }

  lemma LetterCuts()
    ensures Fence.Advance(Fence.Work(LED, [], []), 0x61) == Fence.Work(Fence.FRESH, Fence.REPLACEMENT + [0x61], [])
  {
    assert LEAD + [0x61] == [0xc3, 0x61];
    assert [] + (Fence.REPLACEMENT + [0x61]) == Fence.REPLACEMENT + [0x61];
  }

  lemma MostReleased() returns (t: seq<Byte>)
    ensures Fence.Release(LED, MOST) == (Fence.FRESH, [t]) && |t| == LARGEST_PAYLOAD
  {
    LetterCuts();
    FoldFront(Fence.Advance, Fence.Work(LED, [], []), 0x61, Stray(F.MAX_PAYLOAD - 1));
    StrayMore(Fence.Work(Fence.FRESH, Fence.REPLACEMENT + [0x61], []), F.MAX_PAYLOAD - 1);
    t := Fold(Fence.Advance, Fence.Work(LED, [], []), MOST).text;
    assert [] + [t] == [t] && |Fence.REPLACEMENT + [0x61]| == 4;
  }

  /** The bound on events is reached: by a read after one that ends inside a scalar. */
  lemma LargestLogged(who: Guard.Identity, src: Source.State, mid: Source.State, u: Source.State)
    requires src.fence == Fence.FRESH && mid == Source.Ingest(who, src, LEAD) && u == Source.Ingest(who, mid, MOST)
    ensures mid == src.(fence := LED) && |u.log| == |src.log| + 1 && u.log[|src.log|].Size() == LARGEST_EVENT
  {
    LeadHeld();
    assert Source.Payloads([]) == [];
    var t := MostReleased();
    OneLogged(who, mid, MOST, Fence.FRESH, t);
  }
}
