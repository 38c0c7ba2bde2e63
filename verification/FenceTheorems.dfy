/** The fence's main results: chunk invariance, the exact set of fixed points, idempotence, token shape and bounds. */
module FenceTheorems {
  import opened Bytes
  import opened Utf8
  import opened Fence
  import opened FenceTheory

  lemma ReadAppend(r: Trail, a: seq<Byte>, b: seq<Byte>)
    ensures Read(r, a + b) == Read(Read(r, a), b)
  {
    FoldAppend(Note, r, a, b);
  }

  // ---- Chunk invariance ----

  lemma {:induction false} ChunksTrack(r: Trail, chunks: seq<seq<Byte>>)
    requires Good(r.fence)
    ensures SumsUp(r, Read(r, Flatten(chunks)), ReleaseChunks(r.fence, chunks).0, ReleaseChunks(r.fence, chunks).1)
  {
    if chunks == [] {
      assert r.bytes + Flatten<Byte>([]) == r.bytes;
    } else {
      var cs, c := chunks[..|chunks| - 1], chunks[|chunks| - 1];
      ChunksTrack(r, cs);
      var mid := Read(r, Flatten(cs));
      OneCall(mid, c);
      ReadAppend(r, Flatten(cs), c);
      var (g, out) := ReleaseChunks(r.fence, cs);
      var (h, more) := Release(g, c);
      SumsUpChain(r, mid, Read(mid, c), g, h, out, more);
    }
  }

  /** A summary of a run from an empty trail, without the safety of its tokens. */
  lemma Totals(f: State, all: Trail, g: State, out: seq<seq<Byte>>)
    requires SumsUp(From(f), all, g, out)
    ensures g == all.fence && Flatten(out) == all.bytes && Merge([], out) == all.tokens
  {
    assert [] + Flatten(out) == Flatten(out);
  }

  lemma CallTotals(f: State, s: seq<Byte>)
    requires Good(f)
    ensures var (g, out) := Release(f, s); var all := Read(From(f), s);
            g == all.fence && Flatten(out) == all.bytes && Merge([], out) == all.tokens
  {
    OneCall(From(f), s);
    Totals(f, Read(From(f), s), Release(f, s).0, Release(f, s).1);
  }

  lemma ChunkTotals(f: State, chunks: seq<seq<Byte>>)
    requires Good(f)
    ensures var (g, out) := ReleaseChunks(f, chunks); var all := Read(From(f), Flatten(chunks));
            g == all.fence && Flatten(out) == all.bytes && Merge([], out) == all.tokens
  {
    ChunksTrack(From(f), chunks);
    Totals(f, Read(From(f), Flatten(chunks)), ReleaseChunks(f, chunks).0, ReleaseChunks(f, chunks).1);
  }

  /** However the input is cut into reads, the fence ends in the same state, has withheld the same
      number of sequences, and has released the same bytes and the same merged tokens. */
  lemma ChunkInvariance(f: State, chunks: seq<seq<Byte>>)
    requires Good(f)
    ensures ReleaseChunks(f, chunks).0 == Release(f, Flatten(chunks)).0
    ensures Flatten(ReleaseChunks(f, chunks).1) == Flatten(Release(f, Flatten(chunks)).1)
    ensures Merge([], ReleaseChunks(f, chunks).1) == Merge([], Release(f, Flatten(chunks)).1)
  {
    ChunkTotals(f, chunks);
    CallTotals(f, Flatten(chunks));
  }

  // ---- Replaying a released token through a fence at rest ----

  lemma ReadOne(r: Trail, b: Byte)
    ensures Read(r, [b]) == Note(r, b)
  {
    FoldOne(Note, r, [], b);
    assert [] + [b] == [b];
  }

  /** At rest, a fence with `u` unfinished. */
  function Holding(omitted: nat, u: seq<Byte>): State { Rest(omitted).(utf8 := u) }

  lemma {:induction false} ScalarHeld(k: nat, s: seq<Byte>, n: nat)
    requires IsScalar(s) && |s| >= 2 && 1 <= n < |s|
    ensures Read(From(Rest(k)), s[..n]) == From(Holding(k, s[..n]))
  {
    if n == 1 {
      ReadOne(From(Rest(k)), s[0]);
      assert s[..1] == [s[0]];
    } else {
      ScalarHeld(k, s, n - 1);
      var u := s[..n - 1];
      assert s[..n] == u + [s[n - 1]];
      FoldOne(Note, From(Rest(k)), u, s[n - 1]);
      assert ScanScalar(s[..n]) == Partial;
    }
  }

  lemma ScalarReplay(k: nat, s: seq<Byte>)
    requires IsScalar(s) && s != [ESC]
    ensures Read(From(Rest(k)), s).fence == Rest(k) && Read(From(Rest(k)), s).bytes == s
  {
    var n := |s|;
    if n == 1 {
      ReadOne(From(Rest(k)), s[0]);
      assert s == [s[0]];
    } else {
      var u := s[..n - 1];
      ScalarHeld(k, s, n - 1);
      assert s == u + [s[n - 1]];
      FoldOne(Note, From(Rest(k)), u, s[n - 1]);
      ScalarEnds(k, u, s[n - 1]);
      assert [] + (s + []) == s;
    }
  }

  /** The last byte of a scalar releases it. */
  lemma ScalarEnds(k: nat, u: seq<Byte>, b: Byte)
    requires u != [] && IsScalar(u + [b])
    ensures Delta(Holding(k, u), b) == Effect(Rest(k), u + [b], false, [])
  {
    ScalarIsUtf8(u + [b]);
    FromUtf8Exact(u + [b]);
  }

  lemma ReplayJoin(k: nat, a: seq<Byte>, b: seq<Byte>)
    requires Read(From(Rest(k)), a).fence == Rest(k) && Read(From(Rest(k)), a).bytes == a
    requires Read(From(Rest(k)), b).fence == Rest(k) && Read(From(Rest(k)), b).bytes == b
    ensures Read(From(Rest(k)), a + b).fence == Rest(k) && Read(From(Rest(k)), a + b).bytes == a + b
  {
    ReadAppend(From(Rest(k)), a, b);
    var mid := Read(From(Rest(k)), a);
    var q := From(Rest(k));
    ReadShift(mid, q, b);
    assert q.(bytes := []) == q;
  }

  lemma FirstScalar(t: seq<Byte>) returns (n: nat)
    requires IsUtf8(t) && t != []
    ensures 1 <= n <= |t| && IsScalar(t[..n]) && IsUtf8(t[n..]) && t == t[..n] + t[n..]
  {
    n :| 1 <= n <= 4 && n <= |t| && IsScalar(t[..n]) && IsUtf8(t[n..]);
  }

  lemma {:induction false} TextReplay(k: nat, t: seq<Byte>)
    requires IsUtf8(t) && ESC !in t
    ensures Read(From(Rest(k)), t).fence == Rest(k) && Read(From(Rest(k)), t).bytes == t
  {
    if t == [] {
      assert Read(From(Rest(k)), []) == From(Rest(k));
    } else {
      var n := FirstScalar(t);
      var c, rest := t[..n], t[n..];
      assert c[0] == t[0];
      ScalarReplay(k, c);
      TextReplay(k, rest);
      ReplayJoin(k, c, rest);
    }
  }

  lemma {:induction false} WalkReplay(k: nat, p: seq<Byte>, m: Mode)
    requires Walk(Esc, p) == To(m) && !Over(p)
    ensures Read(From(Rest(k)), [ESC] + p) == From(State(m, [ESC] + p, [], false, k))
  {
    if p == [] {
      ReadOne(From(Rest(k)), ESC);
      assert [ESC] + p == [ESC];
    } else {
      var q, b := p[..|p| - 1], p[|p| - 1];
      var j := Walk(Esc, q).mode;
      assert q + [b] == p;
      WalkOn(q, b, j);
      WalkReplay(k, q, j);
      FoldOne(Note, From(Rest(k)), [ESC] + q, b);
      assert ([ESC] + q) + [b] == [ESC] + p;
      HeldByte(k, q, j, b, m);
      NothingNoted(State(j, [ESC] + q, [], false, k), State(m, [ESC] + p, [], false, k));
    }
  }

  lemma NothingNoted(f: State, g: State)
    ensures NoteWith(From(f), Stay(g)) == From(g)
  {
  }

  /** A byte inside a sequence is held back. */
  lemma HeldByte(k: nat, q: seq<Byte>, j: Mode, b: Byte, m: Mode)
    requires Walk(Esc, q) == To(j) && NextMode(j, b) == To(m) && !Over(q + [b])
    ensures Delta(State(j, [ESC] + q, [], false, k), b) == Stay(State(m, [ESC] + (q + [b]), [], false, k))
  {
    assert ([ESC] + q) + [b] == [ESC] + (q + [b]);
    if j == Csi {
      assert InCsiBody(q + [b]) by {
        assert (q + [b])[..|q|] == q && (q + [b])[|q|] == b;
      }
    }
  }

  lemma SafeSequenceWalk(t: seq<Byte>) returns (m: Mode)
    requires SafeSequence(t)
    ensures Walk(Esc, t[1..|t| - 1]) == To(m) && !Over(t[1..|t| - 1]) && NextMode(m, t[|t| - 1]) == Done
  {
    GrammarAgrees(t[1..]);
    assert t[1..][..|t| - 2] == t[1..|t| - 1];
    FinishesByWalk(Esc, t[1..]);
    m := Walk(Esc, t[1..|t| - 1]).mode;
  }

  lemma CompletingByte(m: Mode, p: seq<Byte>, b: Byte, k: nat)
    requires NextMode(m, b) == Done && |p| < LIMIT && !Forbidden(p + [b])
    ensures Delta(State(m, p, [], false, k), b) == Effect(Rest(k), [], false, p + [b])
  {
  }

  lemma LoneToken(f: State, k: nat, t: seq<Byte>)
    requires t != []
    ensures NoteWith(From(f), Effect(Rest(k), [], false, t)) == Trail(Rest(k), t, [t])
  {
    assert [] + ([] + t) == t;
  }

  lemma SequenceReplay(k: nat, t: seq<Byte>)
    requires SafeSequence(t)
    ensures Read(From(Rest(k)), t) == Trail(Rest(k), t, [t])
  {
    var m := SafeSequenceWalk(t);
    var p, b := t[1..|t| - 1], t[|t| - 1];
    assert ([ESC] + p) + [b] == t;
    WalkReplay(k, p, m);
    CompletingByte(m, [ESC] + p, b, k);
    FoldOne(Note, From(Rest(k)), [ESC] + p, b);
    LoneToken(State(m, [ESC] + p, [], false, k), k, t);
  }

  lemma TokenReplay(k: nat, t: seq<Byte>)
    requires SafeToken(t)
    ensures Read(From(Rest(k)), t).fence == Rest(k) && Read(From(Rest(k)), t).bytes == t
  {
    if IsText(t) { TextReplay(k, t); } else { SequenceReplay(k, t); }
  }

  lemma {:induction false} TokensReplay(ts: seq<seq<Byte>>)
    requires AllSafe(ts)
    ensures Read(From(FRESH), Flatten(ts)).fence == FRESH && Read(From(FRESH), Flatten(ts)).bytes == Flatten(ts)
  {
    if ts != [] {
      var us, t := ts[..|ts| - 1], ts[|ts| - 1];
      TokensReplay(us);
      TokenReplay(0, t);
      ReplayJoin(0, Flatten(us), t);
    }
  }

  // ---- Fixed points and idempotence ----

  /** A fresh fence releases `s` unchanged, withholds nothing and holds nothing back. */
  predicate Unchanged(s: seq<Byte>) {
    Release(FRESH, s).0 == FRESH && Flatten(Release(FRESH, s).1) == s
  }

  lemma SafeIsUnchanged(ts: seq<seq<Byte>>)
    requires AllSafe(ts)
    ensures Unchanged(Flatten(ts))
  {
    TokensReplay(ts);
    CallTotals(FRESH, Flatten(ts));
  }

  /** The strings a fresh fence lets through unchanged are exactly the concatenations of safe tokens. */
  lemma FixedPoints(s: seq<Byte>)
    ensures Unchanged(s) <==> exists ts: seq<seq<Byte>> :: AllSafe(ts) && Flatten(ts) == s
  {
    if Unchanged(s) {
      OneCall(From(FRESH), s);
      assert AllSafe(Release(FRESH, s).1) && Flatten(Release(FRESH, s).1) == s;
    }
    if ts: seq<seq<Byte>> :| AllSafe(ts) && Flatten(ts) == s {
      SafeIsUnchanged(ts);
    }
  }

  /** Whatever any run released passes a fresh fence unchanged. */
  lemma Idempotence(f: State, chunks: seq<seq<Byte>>)
    requires Good(f)
    ensures Unchanged(Flatten(ReleaseChunks(f, chunks).1))
  {
    ChunksTrack(From(f), chunks);
    SafeIsUnchanged(ReleaseChunks(f, chunks).1);
  }

  // ---- Token shape ----

  lemma {:induction false} MergeSingle(out: seq<seq<Byte>>, t: seq<Byte>)
    requires Merge([], out) == [t] && t != [] && !IsText(t) && [] !in out
    ensures out == [t]
  {
    var us, u := out[..|out| - 1], out[|out| - 1];
    assert u in out;
    var m := Merge([], us);
    if !IsText(u) {
      assert m + [u] == [t];
      assert m == [] && u == t;
      if us != [] {
        MergeEmpty(us);
      }
      assert out == us + [u];
    } else {
      GlueEndsInText(m, u);
      assert false;
    }
  }

  lemma GlueEndsInText(m: seq<seq<Byte>>, u: seq<Byte>)
    requires IsText(u)
    ensures Glue(m, u) != [] && IsText(Glue(m, u)[|Glue(m, u)| - 1])
  {
  }

  lemma MergeEmpty(out: seq<seq<Byte>>)
    requires [] !in out && out != []
    ensures Merge([], out) != []
  {
    assert out[|out| - 1] in out;
  }

  /** A string starting with ESC is released whole, as one token, exactly when it is a safe sequence. */
  lemma ReleasedExactly(t: seq<Byte>)
    requires t != [] && t[0] == ESC
    ensures Release(FRESH, t) == (FRESH, [t]) <==> SafeSequence(t)
  {
    OneCall(From(FRESH), t);
    if SafeSequence(t) {
      SequenceReplay(0, t);
      MergeSingle(Release(FRESH, t).1, t);
    }
    if Release(FRESH, t) == (FRESH, [t]) {
      assert t in [t];
    }
  }

  /** Every token of every run is ESC-free valid UTF-8 or one complete sequence; it is never empty, never an
      OSC 52 or OSC 8, never a DCS, APC, PM or SOS, and a sequence has at most 16384 bytes. */
  lemma TokenShape(f: State, chunks: seq<seq<Byte>>, t: seq<Byte>)
    requires Good(f) && t in ReleaseChunks(f, chunks).1
    ensures t != []
    ensures t[0] != ESC ==> IsUtf8(t) && ESC !in t
    ensures t[0] == ESC ==> 2 <= |t| <= LIMIT && EscBody(t[1..]) && t[1] !in {0x50, 0x5f, 0x5e, 0x58}
    ensures !(OSC_52 <= t) && !(OSC_8 <= t)
    ensures |t| >= 2 && t[0] == ESC && t[1] == 0x5b ==> |t| <= 1025
  {
    ChunksTrack(From(f), chunks);
    if |t| >= 2 && t[0] == ESC && t[1] == 0x5b {
      CsiBound(t);
    }
  }

  lemma {:induction false} WalkInCsi(p: seq<Byte>)
    ensures Walk(Csi, p) in {To(Csi), Dead}
  {
    if p != [] {
      WalkInCsi(p[..|p| - 1]);
    }
  }

  /** A plain control sequence, ESC [ and what follows, has at most 1025 bytes. */
  lemma CsiBound(t: seq<Byte>)
    requires SafeSequence(t) && t[1] == 0x5b
    ensures |t| <= 1025
  {
    var n := |t| - 1;
    if n > 3 {
      var p := t[1..n];
      GrammarAgrees(t[1..]);
      assert t[1..][..n - 1] == p;
      FinishesByWalk(Esc, t[1..]);
      var q := p[1..];
      WalkFront(Esc, p[0], Csi, q);
      assert p == [p[0]] + q;
      WalkInCsi(q);
      var q' := q[..|q| - 1];
      WalkFront(Esc, p[0], Csi, q');
      WalkInCsi(q');
      assert p[..|p| - 1] == [p[0]] + q';
    }
  }

  /** ESC, n spaces, then `[m`. */
  function Spaced(n: nat): (t: seq<Byte>)
    ensures |t| == n + 3 && t[0] == ESC
  {
    [ESC] + seq(n, _ => 0x20) + [0x5b, 0x6d]
  }

  lemma {:induction false} SpacedBody(n: nat)
    ensures EscBody(seq(n, _ => 0x20 as Byte) + [0x5b, 0x6d])
    ensures Walk(Esc, seq(n, _ => 0x20 as Byte)) == To(Esc)
  {
    var s := seq(n, _ => 0x20 as Byte) + [0x5b, 0x6d];
    if n > 0 {
      SpacedBody(n - 1);
      assert s[1..] == seq(n - 1, _ => 0x20 as Byte) + [0x5b, 0x6d];
      assert seq(n, _ => 0x20 as Byte)[..n - 1] == seq(n - 1, _ => 0x20 as Byte);
    } else {
      assert s == [0x5b, 0x6d];
    }
  }

  /** The 1024-byte check looks at parameter bytes only, so a control sequence with intermediates before
      its `[` and none after it is released at any length up to 16384, beyond the 1025 of the plain form. */
  lemma CsiBoundNeedsPlainForm(n: nat)
    requires n + 3 <= LIMIT
    ensures Release(FRESH, Spaced(n)) == (FRESH, [Spaced(n)])
  {
    var t := Spaced(n);
    SpacedBody(n);
    var sp := seq(n, _ => 0x20 as Byte);
    assert t[1..] == sp + [0x5b, 0x6d];
    assert t[1..|t| - 1] == sp + [0x5b];
    WalkOn(sp, 0x5b, Esc);
    ReleasedExactly(t);
  }

  // ---- Bounds ----

  /** The fence never holds more than 16384 bytes, and replacement characters at most triple what it reads. */
  lemma OutputBound(f: State, chunks: seq<seq<Byte>>)
    requires Good(f)
    ensures var (g, out) := ReleaseChunks(f, chunks);
            && g.PendingLen() <= LIMIT
            && |Flatten(out)| + g.PendingLen() <= 3 * |Flatten(chunks)| + f.PendingLen()
  {
    ChunksTrack(From(f), chunks);
    ReadGood(From(f), Flatten(chunks));
  }

  /** Every state a fence can reach is `Good`. */
  lemma Reachable(chunks: seq<seq<Byte>>)
    ensures Good(ReleaseChunks(FRESH, chunks).0)
  {
    ChunksTrack(From(FRESH), chunks);
  }

  /** The factor three is reached: n stray continuation bytes are released as 3n bytes, in one token. */
  lemma {:induction false} TripledText(n: nat)
    requires n > 0
    ensures var out := Release(FRESH, seq(n, _ => 0x80)).1; |out| == 1 && |out[0]| == 3 * n
  {
    StrayRun(n);
  }

  lemma {:induction false} StrayRun(n: nat)
    ensures var w := Fold(Advance, Work(FRESH, [], []), seq(n, _ => 0x80));
            w.fence == FRESH && w.out == [] && |w.text| == 3 * n
  {
    if n > 0 {
      StrayRun(n - 1);
      var s := seq(n - 1, _ => 0x80 as Byte);
      assert s + [0x80] == seq(n, _ => 0x80 as Byte);
      FoldOne<Work, Byte>(Advance, Work(FRESH, [], []), s, 0x80 as Byte);
    }
  }
}
