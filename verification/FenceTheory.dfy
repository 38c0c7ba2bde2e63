/** What the fence guarantees over any input, however it is cut into reads. */
module FenceTheory {
  import opened Bytes
  import opened Utf8
  import opened Fence

  // ---- Runs, independent of how reads and text runs are cut ----

  predicate IsText(t: seq<Byte>) { t != [] && t[0] != ESC }

  /** Appends `t` to a token list, gluing text to text. */
  function Glue(ts: seq<seq<Byte>>, t: seq<Byte>): seq<seq<Byte>> {
    if t == [] then ts
    else if IsText(t) && ts != [] && IsText(ts[|ts| - 1]) then ts[..|ts| - 1] + [ts[|ts| - 1] + t]
    else ts + [t]
  }

  /** A token list with adjacent text tokens merged, appended to `acc`. */
  function Merge(acc: seq<seq<Byte>>, ts: seq<seq<Byte>>): seq<seq<Byte>> {
    if ts == [] then acc else Glue(Merge(acc, ts[..|ts| - 1]), ts[|ts| - 1])
  }

  /** A run: the fence, the bytes released so far, and the merged tokens released so far. */
  datatype Trail = Trail(fence: State, bytes: seq<Byte>, tokens: seq<seq<Byte>>)

  function NoteWith(r: Trail, e: Effect): Trail {
    Trail(e.next, r.bytes + (e.text + e.token), Glue(Glue(r.tokens, e.text), e.token))
  }

  function Note(r: Trail, b: Byte): Trail { NoteWith(r, Delta(r.fence, b)) }

  /** The run over `s`, byte by byte, from the trail `r`. */
  function Read(r: Trail, s: seq<Byte>): Trail { Fold(Note, r, s) }

  function From(f: State): Trail { Trail(f, [], []) }

  // ---- The invariant of every reachable fence ----

  /** Bytes of a scalar not yet finished. */
  predicate Unfinished(u: seq<Byte>) {
    u == [] || (0xc2 <= u[0] && |u| <= 3 && (|u| == 1 || ScanScalar(u) == Partial))
  }

  datatype Move = To(mode: Mode) | Done | Dead

  /** The sequence automaton without its byte limits. */
  function NextMode(m: Mode, b: Byte): Move {
    match m
    case Esc =>
      if b == 0x5b then To(Csi) else if b == 0x5d then To(Osc)
      else if b in {0x50, 0x5f, 0x5e, 0x58} then Dead
      else if 0x20 <= b <= 0x2f then To(Esc) else Done
    case Csi => if 0x40 <= b <= 0x7e then Done else if b == 0x18 || b == 0x1a then Dead else To(Csi)
    case Osc => if b == 7 then Done else if b == ESC then To(OscEsc) else To(Osc)
    case OscEsc => if b == 0x5c then Done else To(Osc)
    case _ => Dead
  }

  /** The mode reached from `m` by the bytes `p`, all of them read without ending the sequence. */
  function Walk(m: Mode, p: seq<Byte>): Move {
    if p == [] then To(m) else
    match Walk(m, p[..|p| - 1])
    case To(k) => (match NextMode(k, p[|p| - 1]) case To(j) => To(j) case _ => Dead)
    case _ => Dead
  }

  /** The bytes after ESC already hold a CSI parameter or intermediate byte. */
  predicate InCsiBody(p: seq<Byte>) {
    p != [] && Walk(Esc, p) == To(Csi) && Walk(Esc, p[..|p| - 1]) == To(Csi)
  }

  /** The bytes after ESC have passed a limit. */
  predicate Over(p: seq<Byte>) { |p| + 1 > LIMIT || (InCsiBody(p) && |p| + 1 > CSI_LIMIT) }

  predicate Good(f: State) {
    if f.mode == Ground then f.pending == [] && !f.discard && Unfinished(f.utf8)
    else
      && f.utf8 == [] && 1 <= |f.pending| <= LIMIT && f.pending[0] == ESC
      && (f.mode == Str || f.mode == StrEsc ==> f.discard)
      && (!f.discard ==> Walk(Esc, f.pending[1..]) == To(f.mode) && !Over(f.pending[1..]))
  }

  // ---- The grammar of what may be released ----

  predicate CsiBody(s: seq<Byte>) {
    s != [] && if 0x40 <= s[0] <= 0x7e then |s| == 1 else s[0] != 0x18 && s[0] != 0x1a && CsiBody(s[1..])
  }

  /** An OSC string: any bytes, an ESC taking the next byte with it, up to BEL or ESC \. */
  predicate OscBody(s: seq<Byte>) {
    s != [] && if s[0] == 7 then |s| == 1
    else if s[0] == ESC then |s| >= 2 && if s[1] == 0x5c then |s| == 2 else OscBody(s[2..])
    else OscBody(s[1..])
  }

  /** What may follow ESC: intermediate bytes, then a CSI, an OSC, or a single final byte. Never DCS, APC, PM or SOS. */
  predicate EscBody(s: seq<Byte>) {
    s != [] && if s[0] == 0x5b then CsiBody(s[1..])
    else if s[0] == 0x5d then OscBody(s[1..])
    else if s[0] in {0x50, 0x5f, 0x5e, 0x58} then false
    else if 0x20 <= s[0] <= 0x2f then EscBody(s[1..])
    else |s| == 1
  }

  /** One complete escape sequence the fence may release. */
  predicate SafeSequence(t: seq<Byte>) {
    && |t| >= 2 && t[0] == ESC && EscBody(t[1..]) && !Forbidden(t)
    && |t| <= LIMIT && (InCsiBody(t[1..|t| - 1]) ==> |t| <= CSI_LIMIT + 1)
  }

  ghost predicate SafeText(t: seq<Byte>) { t != [] && IsUtf8(t) && ESC !in t }

  // ---- The grammar and the automaton agree ----

  /** The automaton reads `s` and finishes with its last byte. */
  predicate Finishes(m: Mode, s: seq<Byte>)
    decreases |s|
  {
    s != [] && match NextMode(m, s[0]) case Done => |s| == 1 case Dead => false case To(k) => Finishes(k, s[1..])
  }

  lemma {:induction false} CsiAgrees(s: seq<Byte>)
    ensures Finishes(Csi, s) <==> CsiBody(s)
  {
    if s != [] { CsiAgrees(s[1..]); }
  }

  lemma {:induction false} OscAgrees(s: seq<Byte>)
    ensures Finishes(Osc, s) <==> OscBody(s)
    decreases |s|
  {
    if s != [] {
      OscAgrees(s[1..]);
      if |s| >= 2 {
        OscAgrees(s[2..]);
        assert s[1..][1..] == s[2..];
        assert s[1..][0] == s[1];
      }
    }
  }

  lemma {:induction false} GrammarAgrees(s: seq<Byte>)
    ensures Finishes(Esc, s) <==> EscBody(s)
  {
    if s != [] {
      GrammarAgrees(s[1..]);
      CsiAgrees(s[1..]);
      OscAgrees(s[1..]);
    }
  }

  lemma {:induction false} WalkFront(m: Mode, b: Byte, k: Mode, q: seq<Byte>)
    requires NextMode(m, b) == To(k)
    ensures Walk(m, [b] + q) == Walk(k, q)
  {
    var s := [b] + q;
    if q == [] {
      assert s[..|s| - 1] == [] && s[|s| - 1] == b;
      assert Walk(m, []) == To(m);
    } else {
      assert s[..|s| - 1] == [b] + q[..|q| - 1];
      WalkFront(m, b, k, q[..|q| - 1]);
    }
  }

  /** Finishing means: walk over all bytes but the last, and end with that one. */
  lemma {:induction false} FinishesByWalk(m: Mode, s: seq<Byte>)
    requires s != []
    ensures Finishes(m, s) <==>
            var w := Walk(m, s[..|s| - 1]); w.To? && NextMode(w.mode, s[|s| - 1]) == Done
    decreases |s|
  {
    var n := |s| - 1;
    var q := s[1..];
    if n == 0 {
      assert s[..0] == [];
    } else {
      assert s[..n] == [s[0]] + q[..n - 1];
      match NextMode(m, s[0]) {
        case To(k) =>
          WalkFront(m, s[0], k, q[..n - 1]);
          FinishesByWalk(k, q);
        case _ => WalkStuck(m, s[..n]);
      }
    }
  }

  lemma {:induction false} WalkStuck(m: Mode, p: seq<Byte>)
    requires p != [] && !NextMode(m, p[0]).To?
    ensures Walk(m, p) == Dead
  {
    if |p| == 1 {
      assert p[..0] == [];
    } else {
      WalkStuck(m, p[..|p| - 1]);
    }
  }

  // ---- Every step keeps the invariant and releases only safe tokens ----

  lemma UnfinishedStep(u: seq<Byte>, b: Byte)
    requires u != [] && Unfinished(u)
    ensures FromUtf8(u + [b]) == Ok ==> SafeText(u + [b])
    ensures FromUtf8(u + [b]) == Truncated ==> Unfinished(u + [b])
  {
    var s := u + [b];
    ScanAgrees(s, |s|);
    assert s[..|s|] == s;
    match ScanScalar(s) {
      case Whole(n) =>
        if n == |s| {
          ScalarIsUtf8(s);
          assert s[n..] == [];
          assert FromUtf8(s) == Ok;
        } else {
          assert false;
        }
      case _ =>
    }
  }

  lemma ReplacementSafe()
    ensures IsScalar(REPLACEMENT) && SafeText(REPLACEMENT)
  {
    ScalarIsUtf8(REPLACEMENT);
  }

  lemma AsciiSafe(b: Byte)
    requires b < 0x80 && b != ESC
    ensures IsScalar([b]) && SafeText([b])
  {
    ScalarIsUtf8([b]);
  }

  ghost predicate GoodEffect(f: State, b: Byte, e: Effect) {
    && Good(e.next)
    && (e.text != [] ==> f.mode == Ground && SafeText(e.text))
    && (e.token != [] ==> f.mode != Ground && SafeSequence(e.token))
    && (e.token != [] ==> !f.discard && e.token == f.pending + [b] && e.next == Rest(f.omitted))
    && |e.text| + |e.token| + e.next.PendingLen() <= f.PendingLen() + 3
  }

  lemma GroundStep(f: State, b: Byte)
    requires Good(f) && f.mode == Ground
    ensures GoodEffect(f, b, Delta(f, b))
    ensures Delta(f, b).next.mode != Ground ==> Delta(f, b).flush
  {
    ReplacementSafe();
    if b < 0x80 && b != ESC {
      AsciiSafe(b);
      Utf8Append(REPLACEMENT, [b]);
    }
    if f.utf8 != [] {
      UnfinishedStep(f.utf8, b);
    }
  }

  /** What a sequence holds after one more byte that does not end it. */
  lemma WalkOn(p: seq<Byte>, b: Byte, m: Mode)
    requires Walk(Esc, p) == To(m)
    ensures Walk(Esc, p + [b]) == match NextMode(m, b) case To(k) => To(k) case _ => Dead
    ensures InCsiBody(p + [b]) <==> m == Csi && NextMode(m, b) == To(Csi)
    ensures Over(p) && NextMode(m, b).To? ==> Over(p + [b])
  {
    assert (p + [b])[..|p|] == p;
  }

  lemma PushedGood(f: State, b: Byte, g: State)
    requires Good(f) && f.mode != Ground
    requires g == Push(f, b) && !g.discard
    ensures g.pending == f.pending + [b] && |g.pending| <= LIMIT
    ensures g.pending[1..] == f.pending[1..] + [b]
    ensures Walk(Esc, f.pending[1..]) == To(f.mode) && !Over(f.pending[1..])
    ensures Walk(Esc, g.pending[1..]) == match NextMode(f.mode, b) case To(k) => To(k) case _ => Dead
    ensures InCsiBody(g.pending[1..]) <==> f.mode == Csi && NextMode(f.mode, b) == To(Csi)
  {
    assert (f.pending + [b])[1..] == f.pending[1..] + [b];
    WalkOn(f.pending[1..], b, f.mode);
  }

  lemma ReleasedSafe(f: State, b: Byte)
    requires Good(f) && f.mode != Ground && !Push(f, b).discard
    requires NextMode(f.mode, b) == Done && !Forbidden(f.pending + [b])
    ensures SafeSequence(f.pending + [b])
  {
    PushedGood(f, b, Push(f, b));
    var t := f.pending + [b];
    var p := f.pending[1..];
    assert t[1..] == p + [b] && t[1..][..|t[1..]| - 1] == p;
    assert t[1..|t| - 1] == p;
    FinishesByWalk(Esc, t[1..]);
    GrammarAgrees(t[1..]);
  }

  /** `g` is what byte `b` makes of the sequence `f` when it ends it. */
  predicate Closes(f: State, b: Byte, g: State) {
    g == Push(f, b).(discard := g.discard) && (!g.discard ==> !Push(f, b).discard && NextMode(f.mode, b) == Done)
  }

  /** `g` is what byte `b` makes of the sequence `f` when it does not. */
  predicate Goes(f: State, b: Byte, g: State) {
    && g == Push(f, b).(mode := g.mode, discard := g.discard)
    && g.mode != Ground && (g.mode == Str || g.mode == StrEsc ==> g.discard)
    && (!g.discard ==> !Push(f, b).discard && NextMode(f.mode, b) == To(g.mode)
                       && (f.mode == Csi ==> |g.pending| <= CSI_LIMIT))
  }

  lemma DeltaShape(f: State, b: Byte) returns (g: State)
    requires Good(f) && f.mode != Ground
    ensures (Delta(f, b) == Complete(g) && Closes(f, b, g)) || (Delta(f, b) == Stay(g) && Goes(f, b, g))
  {
    g := Push(f, b);
    if Delta(f, b).next.mode != Ground {
      g := Delta(f, b).next;
    } else if f.mode == Csi && !(0x40 <= b <= 0x7e) {
      g := g.(discard := true);
    }
  }

  lemma ClosesGood(f: State, b: Byte, g: State)
    requires Good(f) && f.mode != Ground && Closes(f, b, g)
    ensures GoodEffect(f, b, Complete(g)) && !Complete(g).flush
  {
    if Complete(g).token != [] {
      PushedGood(f, b, g);
      ReleasedSafe(f, b);
    }
  }

  lemma GoesGood(f: State, b: Byte, g: State)
    requires Good(f) && f.mode != Ground && Goes(f, b, g)
    ensures GoodEffect(f, b, Stay(g)) && !Stay(g).flush
  {
    if !g.discard {
      PushedGood(f, b, Push(f, b));
    }
  }

  lemma SequenceStep(f: State, b: Byte)
    requires Good(f) && f.mode != Ground
    ensures GoodEffect(f, b, Delta(f, b)) && !Delta(f, b).flush
  {
    var g := DeltaShape(f, b);
    if Goes(f, b, g) && Delta(f, b) == Stay(g) {
      GoesGood(f, b, g);
    } else {
      ClosesGood(f, b, g);
    }
  }

  lemma DeltaGood(f: State, b: Byte)
    requires Good(f)
    ensures GoodEffect(f, b, Delta(f, b))
    ensures Delta(f, b).next.mode != Ground ==> Delta(f, b).flush || f.mode != Ground
    ensures f.mode != Ground ==> Delta(f, b).text == [] && !Delta(f, b).flush
  {
    if f.mode == Ground { GroundStep(f, b); } else { SequenceStep(f, b); }
  }

  /** The bytes released and still held. */
  function Held(r: Trail): nat { |r.bytes| + r.fence.PendingLen() }

  lemma NoteGood(r: Trail, q: Trail, b: Byte)
    requires Good(r.fence) && q == Note(r, b)
    ensures Good(q.fence) && Held(q) <= Held(r) + 3
  {
    DeltaGood(r.fence, b);
  }

  lemma {:induction false} ReadGood(r: Trail, s: seq<Byte>)
    requires Good(r.fence)
    ensures Good(Read(r, s).fence)
    ensures Held(Read(r, s)) <= Held(r) + 3 * |s|
  {
    if s != [] {
      var s', b := s[..|s| - 1], s[|s| - 1];
      ReadGood(r, s');
      NoteGood(Read(r, s'), Read(r, s), b);
    }
  }

  /** What was released before does not influence what comes after. */
  lemma {:induction false} ReadShift(r: Trail, q: Trail, s: seq<Byte>)
    requires r.fence == q.fence
    ensures Read(r, s).fence == Read(q, s).fence
    ensures Read(r, s).bytes == r.bytes + Read(q.(bytes := []), s).bytes
    decreases |s|
  {
    var q0 := q.(bytes := []);
    if s == [] {
      assert r.bytes + [] == r.bytes;
    } else {
      var s', b := s[..|s| - 1], s[|s| - 1];
      ReadShift(r, q, s');
      ReadShift(q0, q, s');
      ShiftOne(Read(r, s'), Read(q, s'), Read(q0, s'), r.bytes, b);
    }
  }

  lemma ShiftOne(r: Trail, q: Trail, q0: Trail, before: seq<Byte>, b: Byte)
    requires r.fence == q.fence == q0.fence && r.bytes == before + q0.bytes
    ensures Note(r, b).fence == Note(q, b).fence && Note(r, b).bytes == before + Note(q0, b).bytes
  {
    var e := Delta(r.fence, b);
    ShiftWith(r, q0, before, e.text + e.token);
  }

  lemma ShiftWith(r: Trail, q0: Trail, before: seq<Byte>, added: seq<Byte>)
    requires r.bytes == before + q0.bytes
    ensures r.bytes + added == before + (q0.bytes + added)
  {
  }

  lemma {:induction false} MergeAppend(acc: seq<seq<Byte>>, a: seq<seq<Byte>>, b: seq<seq<Byte>>)
    ensures Merge(acc, a + b) == Merge(Merge(acc, a), b)
  {
    if b == [] {
      assert a + b == a;
    } else {
      assert (a + b)[..|a + b| - 1] == a + b[..|b| - 1];
      MergeAppend(acc, a, b[..|b| - 1]);
    }
  }

  // ---- One call ----

  /** A token the fence may hand to the browser. */
  ghost predicate SafeToken(t: seq<Byte>) { if IsText(t) then SafeText(t) else SafeSequence(t) }

  /** The work state of `push_bytes`, started after the trail `r0`, agrees with the run `r`. */
  ghost predicate Tracks(r0: Trail, r: Trail, w: Work) {
    && w.fence == r.fence && Good(w.fence)
    && (w.fence.mode != Ground ==> w.text == [])
    && (w.text != [] ==> SafeText(w.text))
    && (forall t | t in w.out :: SafeToken(t))
    && r.bytes == r0.bytes + (Flatten(w.out) + w.text)
    && r.tokens == Glue(Merge(r0.tokens, w.out), w.text)
  }

  lemma GlueTwice(ts: seq<seq<Byte>>, a: seq<Byte>, b: seq<Byte>)
    requires (a != [] ==> IsText(a)) && (b != [] ==> IsText(b))
    ensures Glue(Glue(ts, a), b) == Glue(ts, a + b)
  {
    if a == [] {
      assert a + b == b;
    } else if b == [] {
      assert a + b == a;
    } else if ts != [] && IsText(ts[|ts| - 1]) {
      var h, l := ts[..|ts| - 1], ts[|ts| - 1];
      assert Glue(ts, a) == h + [l + a];
      assert (l + a) + b == l + (a + b);
    } else {
      assert Glue(ts, a) == ts + [a];
    }
  }

  lemma PutFacts(acc: seq<seq<Byte>>, out: seq<seq<Byte>>, t: seq<Byte>)
    ensures Flatten(PutNonEmpty(out, t)) == Flatten(out) + t
    ensures Merge(acc, PutNonEmpty(out, t)) == Glue(Merge(acc, out), t)
  {
    if t != [] {
      assert (out + [t])[..|out|] == out;
    }
  }

  lemma SafeTextJoin(a: seq<Byte>, b: seq<Byte>)
    requires a == [] || SafeText(a)
    requires b == [] || SafeText(b)
    ensures a + b == [] || SafeText(a + b)
  {
    Utf8Append(a, b);
  }

  lemma BytesStay(before: seq<Byte>, out: seq<seq<Byte>>, text: seq<Byte>, e: Effect)
    requires e.token != [] ==> text == [] && e.text == []
    ensures var w := AdvanceWith(Work(e.next, text, out), e);
            before + (Flatten(w.out) + w.text) == (before + (Flatten(out) + text)) + (e.text + e.token)
  {
    var w := AdvanceWith(Work(e.next, text, out), e);
    var t := text + e.text;
    assert Flatten(w.out) + w.text == Flatten(out) + t + e.token by {
      PutFacts([], out, t);
      PutFacts([], PutNonEmpty(out, t), e.token);
      PutFacts([], out, e.token);
    }
    Regroup(before, Flatten(out), text, e.text, e.token);
  }

  lemma Regroup(a: seq<Byte>, b: seq<Byte>, c: seq<Byte>, d: seq<Byte>, e: seq<Byte>)
    ensures a + (b + (c + d) + e) == (a + (b + c)) + (d + e)
  {
  }

  lemma TokensStay(acc: seq<seq<Byte>>, out: seq<seq<Byte>>, text: seq<Byte>, e: Effect)
    requires text != [] ==> IsText(text)
    requires e.text != [] ==> IsText(e.text)
    requires e.token != [] ==> text == [] && e.text == []
    ensures var w := AdvanceWith(Work(e.next, text, out), e);
            Glue(Merge(acc, w.out), w.text) == Glue(Glue(Glue(Merge(acc, out), text), e.text), e.token)
  {
    var t := text + e.text;
    GlueTwice(Merge(acc, out), text, e.text);
    PutFacts(acc, out, t);
    PutFacts(acc, PutNonEmpty(out, t), e.token);
    PutFacts(acc, out, e.token);
  }

  lemma TracksWith(r0: Trail, r: Trail, w: Work, e: Effect)
    requires Tracks(r0, r, w) && Good(e.next)
    requires e.text != [] ==> SafeText(e.text)
    requires e.token != [] ==> SafeSequence(e.token) && w.text == [] && e.text == []
    requires e.next.mode != Ground ==> e.flush || (w.text == [] && e.text == [])
    ensures Tracks(r0, NoteWith(r, e), AdvanceWith(w, e))
  {
    SafeTextJoin(w.text, e.text);
    BytesStay(r0.bytes, w.out, w.text, e);
    TokensStay(r0.tokens, w.out, w.text, e);
  }

  lemma TracksStep(r0: Trail, r: Trail, w: Work, b: Byte)
    requires Tracks(r0, r, w)
    ensures Tracks(r0, Note(r, b), Advance(w, b))
  {
    DeltaGood(w.fence, b);
    TracksWith(r0, r, w, Delta(w.fence, b));
  }

  lemma {:induction false} TracksAll(r: Trail, s: seq<Byte>)
    requires Good(r.fence)
    ensures Tracks(r, Read(r, s), Fold(Advance, Work(r.fence, [], []), s))
  {
    if s == [] {
      assert r.bytes + (Flatten<Byte>([]) + []) == r.bytes;
    } else {
      var s', b := s[..|s| - 1], s[|s| - 1];
      TracksAll(r, s');
      TracksStep(r, Read(r, s'), Fold(Advance, Work(r.fence, [], []), s'), b);
    }
  }

  ghost predicate AllSafe(out: seq<seq<Byte>>) { forall t | t in out :: SafeToken(t) }

  /** `out` and the fence `g` sum up the run from the trail `r` to the trail `all`. */
  ghost predicate SumsUp(r: Trail, all: Trail, g: State, out: seq<seq<Byte>>) {
    && g == all.fence && Good(g)
    && all.bytes == r.bytes + Flatten(out)
    && all.tokens == Merge(r.tokens, out)
    && AllSafe(out)
  }

  lemma SumsUpChain(r: Trail, mid: Trail, all: Trail, g: State, h: State, out: seq<seq<Byte>>, more: seq<seq<Byte>>)
    requires SumsUp(r, mid, g, out) && SumsUp(mid, all, h, more)
    ensures SumsUp(r, all, h, out + more)
  {
    FlattenAppend(out, more);
    MergeAppend(r.tokens, out, more);
    assert (r.bytes + Flatten(out)) + Flatten(more) == r.bytes + (Flatten(out) + Flatten(more));
  }

  /** Everything one call guarantees, against the run over its bytes. */
  lemma OneCall(r: Trail, s: seq<Byte>)
    requires Good(r.fence)
    ensures SumsUp(r, Read(r, s), Release(r.fence, s).0, Release(r.fence, s).1)
  {
    TracksAll(r, s);
    var w := Fold(Advance, Work(r.fence, [], []), s);
    PutFacts(r.tokens, w.out, w.text);
  }
}
