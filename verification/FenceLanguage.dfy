/** What the fence does with any input, over a grammar of its own: the input is a list of scalars, garbled bytes,
    sequences and strings, and each of them is released, replaced or withheld by itself. */
module FenceLanguage {
  import opened Bytes
  import opened Utf8
  import opened Fence
  import opened FenceTheory
  import opened FenceTheorems

  // ---- The grammar ----

  /** A string: any bytes, an ESC taking the next byte with it, up to ESC \. */
  predicate StringBody(s: seq<Byte>) {
    s != [] && if s[0] == ESC then |s| >= 2 && if s[1] == 0x5c then |s| == 2 else StringBody(s[2..]) else StringBody(s[1..])
  }

  /** A control sequence broken off by CAN or SUB. */
  predicate BrokenOff(s: seq<Byte>) {
    s != [] && if s[0] == 0x18 || s[0] == 0x1a then |s| == 1 else !(0x40 <= s[0] <= 0x7e) && BrokenOff(s[1..])
  }

  /** What follows the ESC of a sequence that is never released: intermediate bytes, then a control sequence broken off,
      or a DCS, APC, PM or SOS string. */
  predicate LostBody(s: seq<Byte>) {
    s != [] && if s[0] == 0x5b then BrokenOff(s[1..])
    else if s[0] in {0x50, 0x5f, 0x5e, 0x58} then StringBody(s[1..])
    else 0x20 <= s[0] <= 0x2f && LostBody(s[1..])
  }

  /** One complete sequence or string, of any length. */
  predicate Sequence(t: seq<Byte>) { |t| >= 2 && t[0] == ESC && (EscBody(t[1..]) || LostBody(t[1..])) }

  ghost predicate Viable(s: seq<Byte>) { exists v :: IsScalar(s + v) }

  /** A lead byte, or the proper beginning of a scalar. */
  ghost predicate Begun(u: seq<Byte>) {
    (|u| == 1 && u[0] >= 0xc2) || (|u| >= 2 && exists v :: v != [] && IsScalar(u + v))
  }

  /** A piece of the input. `cut` is a scalar begun and cut short by the ESC of the sequence. */
  datatype Item = Scalar(bytes: seq<Byte>) | Garbled(bytes: seq<Byte>) | Escaped(cut: seq<Byte>, bytes: seq<Byte>)

  ghost predicate WellFormed(i: Item) {
    match i
    case Scalar(s) => IsScalar(s) && s != [ESC]
    case Garbled(s) =>
      || (|s| == 1 && 0x80 <= s[0] < 0xc2)
      || (|s| >= 2 && Begun(s[..|s| - 1]) && s[|s| - 1] != ESC && !Viable(s))
    case Escaped(cut, t) => (cut == [] || Begun(cut)) && Sequence(t)
  }

  function Raw(i: Item): seq<Byte> { if i.Escaped? then i.cut + i.bytes else i.bytes }

  /** The sequences that are released: none but OSC 52 and OSC 8 is withheld that keeps within 16384 bytes, and within 1025
      if it is a control sequence with something between its bracket and its last byte. */
  predicate Released(t: seq<Byte>) {
    && |t| >= 2 && t[0] == ESC && EscBody(t[1..])
    && !([0x1b, 0x5d, 0x35, 0x32, 0x3b] <= t) && !([0x1b, 0x5d, 0x38, 0x3b] <= t)
    && |t| <= 16384 && (InCsiBody(t[1..|t| - 1]) ==> |t| <= 1025)
  }

  lemma ReleasedIsSafe(t: seq<Byte>)
    ensures Released(t) <==> SafeSequence(t)
  {
  }

  /** A scalar is released as it is; garbled bytes as one replacement character, which keeps the ASCII byte that cut a
      scalar short; a sequence as it is if it is safe, and not at all otherwise. */
  function Kept(i: Item): seq<Byte> {
    match i
    case Scalar(s) => s
    case Garbled(s) => REPLACEMENT + if s != [] && s[|s| - 1] < 0x80 then [s[|s| - 1]] else []
    case Escaped(cut, t) => (if cut != [] then REPLACEMENT else []) + if Released(t) then t else []
  }

  function Withheld(i: Item): nat { if i.Escaped? && !Released(i.bytes) then 1 else 0 }

  ghost predicate AllWellFormed(items: seq<Item>) {
    items == [] || (WellFormed(items[0]) && AllWellFormed(items[1..]))
  }

  function RawAll(items: seq<Item>): seq<Byte> { if items == [] then [] else Raw(items[0]) + RawAll(items[1..]) }

  function KeptAll(items: seq<Item>): seq<Byte> { if items == [] then [] else Kept(items[0]) + KeptAll(items[1..]) }

  function WithheldAll(items: seq<Item>): nat { if items == [] then 0 else Withheld(items[0]) + WithheldAll(items[1..]) }

  /** What is left over: a scalar begun, or a sequence begun, which may have cut a scalar short. */
  datatype Remainder = Nothing | Lead(begun: seq<Byte>) | Opened(cut: seq<Byte>, bytes: seq<Byte>)

  ghost predicate LeftOver(r: Remainder) {
    match r
    case Nothing => true
    case Lead(u) => Begun(u)
    case Opened(cut, s) =>
      && (cut == [] || Begun(cut)) && s != [] && s[0] == ESC && forall n :: 0 <= n <= |s| ==> !Sequence(s[..n])
  }

  function RawRest(r: Remainder): seq<Byte> {
    match r case Nothing => [] case Lead(u) => u case Opened(cut, s) => cut + s
  }

  function KeptRest(r: Remainder): seq<Byte> { if r.Opened? && r.cut != [] then REPLACEMENT else [] }

  // ---- Where a sequence ends ----

  /** The modes of a sequence, without limits. */
  function Onward(m: Mode, b: Byte): Move {
    match m
    case Esc =>
      if b == 0x5b then To(Csi) else if b == 0x5d then To(Osc)
      else if b in {0x50, 0x5f, 0x5e, 0x58} then To(Str)
      else if 0x20 <= b <= 0x2f then To(Esc) else Done
    case Csi => if 0x40 <= b <= 0x7e || b == 0x18 || b == 0x1a then Done else To(Csi)
    case Osc => if b == 7 then Done else if b == ESC then To(OscEsc) else To(Osc)
    case OscEsc => if b == 0x5c then Done else To(Osc)
    case Str => if b == ESC then To(StrEsc) else To(Str)
    case StrEsc => if b == 0x5c then Done else To(Str)
    case Ground => Dead
  }

  predicate Ends(m: Mode, s: seq<Byte>)
    decreases |s|
  {
    s != [] && match Onward(m, s[0]) case Done => |s| == 1 case To(k) => Ends(k, s[1..]) case Dead => false
  }

  lemma {:induction false} CsiEnds(s: seq<Byte>)
    ensures Ends(Csi, s) <==> CsiBody(s) || BrokenOff(s)
  {
    if s != [] { CsiEnds(s[1..]); }
  }

  lemma {:induction false} OscEnds(s: seq<Byte>)
    ensures Ends(Osc, s) <==> OscBody(s)
    decreases |s|
  {
    if s != [] {
      OscEnds(s[1..]);
      if |s| >= 2 {
        OscEnds(s[2..]);
        assert s[1..][1..] == s[2..] && s[1..][0] == s[1];
      }
    }
  }

  lemma {:induction false} StringEnds(s: seq<Byte>)
    ensures Ends(Str, s) <==> StringBody(s)
    decreases |s|
  {
    if s != [] {
      StringEnds(s[1..]);
      if |s| >= 2 {
        StringEnds(s[2..]);
        assert s[1..][1..] == s[2..] && s[1..][0] == s[1];
      }
    }
  }

  lemma {:induction false} BodyEnds(s: seq<Byte>)
    ensures Ends(Esc, s) <==> EscBody(s) || LostBody(s)
  {
    if s != [] {
      BodyEnds(s[1..]);
      CsiEnds(s[1..]);
      OscEnds(s[1..]);
      StringEnds(s[1..]);
    }
  }

  /** Where the bytes `p` lead from the mode `m`: `Done` if they end a sequence with the last of them. */
  function Reach(m: Mode, p: seq<Byte>): Move {
    if p == [] then To(m) else
    match Reach(m, p[..|p| - 1]) case To(k) => Onward(k, p[|p| - 1]) case _ => Dead
  }

  lemma {:induction false} ReachFront(m: Mode, b: Byte, q: seq<Byte>)
    ensures Reach(m, [b] + q) == match Onward(m, b) case To(k) => Reach(k, q) case other => if q == [] then other else Dead
  {
    var s := [b] + q;
    if q == [] {
      assert s[..|s| - 1] == [] && s[|s| - 1] == b;
      assert Reach(m, []) == To(m);
    } else {
      assert s[..|s| - 1] == [b] + q[..|q| - 1];
      ReachFront(m, b, q[..|q| - 1]);
    }
  }

  lemma {:induction false} EndsByReach(m: Mode, s: seq<Byte>)
    ensures Ends(m, s) <==> Reach(m, s) == Done
    decreases |s|
  {
    if s != [] {
      assert s == [s[0]] + s[1..];
      ReachFront(m, s[0], s[1..]);
      match Onward(m, s[0]) {
        case To(k) => EndsByReach(k, s[1..]);
        case _ =>
      }
    }
  }

  lemma SequenceByReach(t: seq<Byte>)
    requires t != [] && t[0] == ESC
    ensures Sequence(t) <==> Reach(Esc, t[1..]) == Done
  {
    BodyEnds(t[1..]);
    EndsByReach(Esc, t[1..]);
  }

  /** As long as no beginning is a sequence, the automaton is inside one. */
  lemma {:induction false} NoneInside(p: seq<Byte>)
    requires forall n :: 0 <= n <= |p| + 1 ==> !Sequence(([ESC] + p)[..n])
    ensures Reach(Esc, p).To?
  {
    if p != [] {
      var q := p[..|p| - 1];
      var s := [ESC] + p;
      forall n | 0 <= n <= |q| + 1 ensures !Sequence(([ESC] + q)[..n]) {
        assert ([ESC] + q)[..n] == s[..n];
      }
      NoneInside(q);
      SequenceByReach(s);
      assert s[1..] == p && s[..|p| + 1] == s;
    }
  }

  // ---- The fence inside a sequence ----

  /** The fence goes on, or it ends the sequence: as a token, or counting it. */
  lemma Follows(f: State, b: Byte)
    requires Good(f) && f.mode != Ground
    ensures var e := Delta(f, b);
            && e.text == []
            && match Onward(f.mode, b)
               case To(k) => e.next.mode == k && e.next.omitted == f.omitted && e.token == []
               case Done => (e.next == Rest(f.omitted + 1) && e.token == []) || (e.next == Rest(f.omitted) && e.token != [])
               case Dead => false
  {
    DeltaGood(f, b);
  }

  /** The fence has read `t`, in the middle of a sequence in mode `m`: it holds all of it, or has given it up. */
  predicate Amid(k: nat, t: seq<Byte>, m: Mode, r: Trail) {
    && Good(r.fence) && r.fence.mode == m && m != Ground && r.fence.omitted == k && r.bytes == []
    && (!r.fence.discard ==> r.fence.pending == t)
  }

  lemma NothingAdded()
    ensures var none: seq<Byte> := []; none + (none + none) == none
  {
  }

  lemma AmidOn(k: nat, t: seq<Byte>, m: Mode, r: Trail, b: Byte, m': Mode)
    requires Amid(k, t, m, r) && Onward(m, b) == To(m')
    ensures Amid(k, t + [b], m', Note(r, b))
  {
    DeltaGood(r.fence, b);
    Follows(r.fence, b);
    StaysMode(m, b);
    HoldsOn(r.fence, b);
    NothingAdded();
  }

  lemma StaysMode(m: Mode, b: Byte)
    requires m != Ground && Onward(m, b).To?
    ensures Onward(m, b).mode != Ground
  {
  }

  /** A sequence that goes on and was not given up is held whole. */
  lemma HoldsOn(f: State, b: Byte)
    requires Good(f) && f.mode != Ground && Onward(f.mode, b).To?
    ensures var g := Delta(f, b).next; !g.discard ==> !f.discard && g.pending == f.pending + [b]
  {
  }

  lemma AmidStart(k: nat)
    ensures Amid(k, [ESC], Esc, Read(From(Rest(k)), [ESC]))
  {
    ReadOne(From(Rest(k)), ESC);
    NothingAdded();
    assert [] + [ESC] == [ESC];
    assert [ESC][1..] == [];
  }

  /** What holds at its ESC, and at every byte at which a sequence goes on, holds as long as it goes on. */
  lemma {:induction false} Throughout<S(!new)>(step: (S, Byte) -> S, inv: (seq<Byte>, Mode, S) -> bool, s: S,
                                               p: seq<Byte>, m: Mode)
    requires inv([], Esc, s) && Reach(Esc, p) == To(m)
    requires forall t, j, r, b :: inv(t, j, r) && Onward(j, b).To? ==> inv(t + [b], Onward(j, b).mode, step(r, b))
    ensures inv(p, m, Fold(step, s, p))
  {
    if p != [] {
      var q, b := p[..|p| - 1], p[|p| - 1];
      var j := Reach(Esc, q).mode;
      Throughout(step, inv, s, q, j);
      assert q + [b] == p;
      assert inv(q + [b], Onward(j, b).mode, step(Fold(step, s, q), b));
    }
  }

  lemma AmidAll(k: nat, p: seq<Byte>, m: Mode)
    requires Reach(Esc, p) == To(m)
    ensures Amid(k, [ESC] + p, m, Read(From(Rest(k)), [ESC] + p))
  {
    var inv := (t: seq<Byte>, j: Mode, r: Trail) => Amid(k, [ESC] + t, j, r);
    var start := Read(From(Rest(k)), [ESC]);
    AmidStart(k);
    assert [ESC] + [] == [ESC];
    forall t: seq<Byte>, j: Mode, r: Trail, b: Byte | inv(t, j, r) && Onward(j, b).To?
      ensures inv(t + [b], Onward(j, b).mode, Note(r, b))
    {
      AmidOn(k, [ESC] + t, j, r, b, Onward(j, b).mode);
      Associates([ESC], t, [b]);
    }
    Throughout(Note, inv, start, p, m);
    ReadAppend(From(Rest(k)), [ESC], p);
  }

  /** A sequence that is not safe is withheld, and counted once. */
  lemma WithheldWhole(k: nat, t: seq<Byte>)
    requires Sequence(t) && !SafeSequence(t)
    ensures Read(From(Rest(k)), t).fence == Rest(k + 1) && Read(From(Rest(k)), t).bytes == []
  {
    SequenceByReach(t);
    var p, b := t[1..|t| - 1], t[|t| - 1];
    assert t[1..][..|t| - 2] == p && t[1..][|t| - 2] == b;
    assert ([ESC] + p) + [b] == t;
    WithheldAfter(k, p, Reach(Esc, p).mode, b);
  }

  lemma WithheldAfter(k: nat, p: seq<Byte>, m: Mode, b: Byte)
    requires Reach(Esc, p) == To(m) && Onward(m, b) == Done && !SafeSequence(([ESC] + p) + [b])
    ensures Read(From(Rest(k)), ([ESC] + p) + [b]).fence == Rest(k + 1)
    ensures Read(From(Rest(k)), ([ESC] + p) + [b]).bytes == []
  {
    AmidAll(k, p, m);
    FoldOne(Note, From(Rest(k)), [ESC] + p, b);
    WithheldLast(k, [ESC] + p, m, Read(From(Rest(k)), [ESC] + p), b);
  }

  lemma WithheldLast(k: nat, t: seq<Byte>, m: Mode, r: Trail, b: Byte)
    requires Amid(k, t, m, r) && Onward(m, b) == Done && !SafeSequence(t + [b])
    ensures Note(r, b).fence == Rest(k + 1) && Note(r, b).bytes == []
  {
    DeltaGood(r.fence, b);
    Follows(r.fence, b);
    NothingAdded();
  }

  lemma SequenceRead(k: nat, t: seq<Byte>)
    requires Sequence(t)
    ensures Read(From(Rest(k)), t).fence == Rest(k + if SafeSequence(t) then 0 else 1)
    ensures Read(From(Rest(k)), t).bytes == if SafeSequence(t) then t else []
  {
    if SafeSequence(t) {
      SequenceReplay(k, t);
    } else {
      WithheldWhole(k, t);
    }
  }

  // ---- Scalars begun, and garbled bytes ----

  lemma BegunHeld(k: nat, u: seq<Byte>)
    requires Begun(u)
    ensures Read(From(Rest(k)), u) == From(Holding(k, u)) && Unfinished(u)
  {
    if |u| == 1 {
      ReadOne(From(Rest(k)), u[0]);
      assert u == [u[0]];
    } else {
      var v :| v != [] && IsScalar(u + v);
      ScalarHeld(k, u + v, |u|);
      assert (u + v)[..|u|] == u;
      assert ScanScalar(u) == Partial;
    }
  }

  /** What the scanner has not found malformed begins a scalar. */
  lemma OpenIsViable(s: seq<Byte>)
    requires s != [] && (ScanScalar(s) == Partial || ScanScalar(s) == Whole(|s|))
    ensures Viable(s)
  {
    if ScanScalar(s) == Partial {
      ScalarCompleted(s);
      var all := s + Completion(s);
      ScanAgrees(all, |all|);
      assert all[..|all|] == all;
    } else {
      ScanAgrees(s, |s|);
      assert s[..|s|] == s && s + [] == s;
    }
  }

  /** The scanner takes the next byte of an unfinished scalar or finds it malformed. */
  lemma ScanOneMore(u: seq<Byte>, b: Byte)
    requires u != [] && Unfinished(u)
    ensures ScanScalar(u + [b]).Whole? ==> ScanScalar(u + [b]) == Whole(|u| + 1)
  {
    var s := u + [b];
    assert s[0] == u[0];
    assert |u| >= 2 ==> s[1] == u[1];
    assert |u| >= 3 ==> s[2] == u[2];
  }

  /** What begins with `u` and one more byte is malformed unless it begins a scalar. */
  lemma NotViable(u: seq<Byte>, b: Byte)
    requires Begun(u) && !Viable(u + [b])
    ensures FromUtf8(u + [b]) == Malformed
  {
    BegunHeld(0, u);
    ScanOneMore(u, b);
    if ScanScalar(u + [b]) != Broken {
      OpenIsViable(u + [b]);
    }
  }

  lemma GarbledRead(k: nat, s: seq<Byte>)
    requires WellFormed(Garbled(s))
    ensures Read(From(Rest(k)), s).fence == Rest(k) && Read(From(Rest(k)), s).bytes == Kept(Garbled(s))
  {
    if |s| == 1 {
      assert s == [s[0]];
      StrayRead(k, s[0]);
    } else {
      assert s == s[..|s| - 1] + [s[|s| - 1]];
      CutByByte(k, s[..|s| - 1], s[|s| - 1]);
    }
  }

  lemma CutByByte(k: nat, u: seq<Byte>, b: Byte)
    requires Begun(u) && b != ESC && !Viable(u + [b])
    ensures Read(From(Rest(k)), u + [b]).fence == Rest(k)
    ensures Read(From(Rest(k)), u + [b]).bytes == REPLACEMENT + if b < 0x80 then [b] else []
  {
    NotViable(u, b);
    BrokenRead(k, u, b);
  }

  lemma StrayRead(k: nat, b: Byte)
    requires 0x80 <= b < 0xc2
    ensures Read(From(Rest(k)), [b]).fence == Rest(k) && Read(From(Rest(k)), [b]).bytes == REPLACEMENT
  {
    ReadOne(From(Rest(k)), b);
    assert [] + (REPLACEMENT + []) == REPLACEMENT;
  }

  lemma BrokenRead(k: nat, u: seq<Byte>, b: Byte)
    requires Begun(u) && FromUtf8(u + [b]) == Malformed && b != ESC
    ensures Read(From(Rest(k)), u + [b]).fence == Rest(k)
    ensures Read(From(Rest(k)), u + [b]).bytes == REPLACEMENT + if b < 0x80 then [b] else []
  {
    BegunHeld(k, u);
    FoldOne(Note, From(Rest(k)), u, b);
    GarbledLast(k, u, b);
  }

  lemma GarbledLast(k: nat, u: seq<Byte>, b: Byte)
    requires u != [] && FromUtf8(u + [b]) == Malformed && b != ESC
    ensures Note(From(Holding(k, u)), b).fence == Rest(k)
    ensures Note(From(Holding(k, u)), b).bytes == REPLACEMENT + if b < 0x80 then [b] else []
  {
    var kept := REPLACEMENT + if b < 0x80 then [b] else [];
    assert REPLACEMENT + [] == REPLACEMENT;
    assert [] + (kept + []) == kept;
  }

  /** An ESC that cuts a scalar short replaces it, and begins a sequence as at rest. */
  lemma CutByEscape(k: nat, u: seq<Byte>)
    requires Begun(u)
    ensures Read(From(Rest(k)), u + [ESC]).fence == Read(From(Rest(k)), [ESC]).fence
    ensures Read(From(Rest(k)), u + [ESC]).bytes == REPLACEMENT
  {
    BegunHeld(k, u);
    EscapeMalformed(u);
    FoldOne(Note, From(Rest(k)), u, ESC);
    ReadOne(From(Rest(k)), ESC);
    assert [] + (REPLACEMENT + []) == REPLACEMENT;
  }

  lemma EscapeMalformed(u: seq<Byte>)
    requires u != [] && Unfinished(u)
    ensures FromUtf8(u + [ESC]) == Malformed
  {
  }

  lemma AfterCut(k: nat, cut: seq<Byte>, t: seq<Byte>)
    requires Begun(cut) && t != [] && t[0] == ESC
    ensures Read(From(Rest(k)), cut + t).fence == Read(From(Rest(k)), t).fence
    ensures Read(From(Rest(k)), cut + t).bytes == REPLACEMENT + Read(From(Rest(k)), t).bytes
  {
    var p := t[1..];
    assert t == [ESC] + p && cut + t == (cut + [ESC]) + p;
    CutByEscape(k, cut);
    AmidStart(k);
    ReadAppend(From(Rest(k)), cut + [ESC], p);
    ReadAppend(From(Rest(k)), [ESC], p);
    var r, q := Read(From(Rest(k)), cut + [ESC]), Read(From(Rest(k)), [ESC]);
    ReadShift(r, q, p);
    assert q.(bytes := []) == q;
  }

  // ---- Any input ----

  lemma ItemRead(k: nat, i: Item)
    requires WellFormed(i)
    ensures Read(From(Rest(k)), Raw(i)).fence == Rest(k + Withheld(i)) && Read(From(Rest(k)), Raw(i)).bytes == Kept(i)
  {
    match i {
      case Scalar(s) => ScalarReplay(k, s);
      case Garbled(s) => GarbledRead(k, s);
      case Escaped(cut, t) =>
        ReleasedIsSafe(t);
        SequenceRead(k, t);
        if cut != [] {
          AfterCut(k, cut, t);
        } else {
          assert cut + t == t && [] + Kept(i) == Kept(i);
        }
    }
  }

  /** Reading goes on from rest. */
  lemma Onto(k: nat, a: seq<Byte>, j: nat, s: seq<Byte>)
    requires Read(From(Rest(k)), a).fence == Rest(j)
    ensures Read(From(Rest(k)), a + s).fence == Read(From(Rest(j)), s).fence
    ensures Read(From(Rest(k)), a + s).bytes == Read(From(Rest(k)), a).bytes + Read(From(Rest(j)), s).bytes
  {
    ReadAppend(From(Rest(k)), a, s);
    ReadShift(Read(From(Rest(k)), a), From(Rest(j)), s);
    assert From(Rest(j)).(bytes := []) == From(Rest(j));
  }

  /** A fence at rest that has withheld `k` sequences is at rest again after `s`: it has withheld `j` and released
      `out`. */
  predicate Passes(k: nat, s: seq<Byte>, j: nat, out: seq<Byte>) {
    Read(From(Rest(k)), s).fence == Rest(j) && Read(From(Rest(k)), s).bytes == out
  }

  lemma PassesOn(k: nat, a: seq<Byte>, j: nat, x: seq<Byte>, s: seq<Byte>, m: nat, y: seq<Byte>)
    requires Passes(k, a, j, x) && Passes(j, s, m, y)
    ensures Passes(k, a + s, m, x + y)
  {
    Onto(k, a, j, s);
  }

  lemma ItemPasses(k: nat, items: seq<Item>)
    requires items != [] && AllWellFormed(items)
    ensures Passes(k, Raw(items[0]), k + Withheld(items[0]), Kept(items[0]))
  {
    ItemRead(k, items[0]);
  }

  lemma {:induction false} ItemsRead(k: nat, items: seq<Item>)
    requires AllWellFormed(items)
    ensures Passes(k, RawAll(items), k + WithheldAll(items), KeptAll(items))
    decreases |items|
  {
    if items == [] {
    } else {
      var i, more := items[0], items[1..];
      ItemPasses(k, items);
      ItemsRead(k + Withheld(i), more);
      PassesOn(k, Raw(i), k + Withheld(i), Kept(i), RawAll(more), k + Withheld(i) + WithheldAll(more), KeptAll(more));
    }
  }

  /** What is left over releases nothing but a replacement for the scalar it cut short, and is held back. */
  lemma RestRead(k: nat, r: Remainder)
    requires LeftOver(r)
    ensures Read(From(Rest(k)), RawRest(r)).bytes == KeptRest(r)
    ensures var f := Read(From(Rest(k)), RawRest(r)).fence;
            && f.omitted == k && (f == Rest(k) <==> r.Nothing?)
            && (r.Lead? ==> f == Holding(k, r.begun)) && (r.Opened? ==> f.mode != Ground)
  {
    match r {
      case Nothing => assert Read(From(Rest(k)), []) == From(Rest(k));
      case Lead(u) => BegunHeld(k, u);
      case Opened(cut, s) =>
        OpenedRead(k, s);
        if cut != [] {
          AfterCut(k, cut, s);
          assert REPLACEMENT + [] == REPLACEMENT;
        } else {
          assert cut + s == s;
        }
    }
  }

  lemma OpenedRead(k: nat, s: seq<Byte>)
    requires s != [] && s[0] == ESC && forall n :: 0 <= n <= |s| ==> !Sequence(s[..n])
    ensures Read(From(Rest(k)), s).bytes == [] && Read(From(Rest(k)), s).fence.omitted == k
    ensures Read(From(Rest(k)), s).fence.mode != Ground
  {
    var p := s[1..];
    assert s == [ESC] + p;
    NoneInside(p);
    AmidAll(k, p, Reach(Esc, p).mode);
  }

  /** The input is the items and what is left over. */
  ghost predicate Reads(s: seq<Byte>, items: seq<Item>, rest: Remainder) {
    AllWellFormed(items) && LeftOver(rest) && s == RawAll(items) + RawRest(rest)
  }

  /** What a fresh fence does with such an input: it releases what each item keeps, counts the sequences it withholds,
      and is at rest exactly if nothing is left over. */
  lemma ReadsExactly(s: seq<Byte>, items: seq<Item>, rest: Remainder)
    requires Reads(s, items, rest)
    ensures var (f, out) := Release(FRESH, s);
            && Flatten(out) == KeptAll(items) + KeptRest(rest)
            && f.omitted == WithheldAll(items)
            && (f == Rest(f.omitted) <==> rest.Nothing?)
            && (rest.Lead? ==> f == Holding(f.omitted, rest.begun)) && (rest.Opened? ==> f.mode != Ground)
  {
    ItemsRead(0, items);
    RestRead(WithheldAll(items), rest);
    ThenRest(RawAll(items), WithheldAll(items), KeptAll(items), rest);
    CallTotals(FRESH, s);
  }

  lemma ThenRest(a: seq<Byte>, k: nat, out: seq<Byte>, rest: Remainder)
    requires Passes(0, a, k, out)
    ensures Read(From(FRESH), a + RawRest(rest)).fence == Read(From(Rest(k)), RawRest(rest)).fence
    ensures Read(From(FRESH), a + RawRest(rest)).bytes == out + Read(From(Rest(k)), RawRest(rest)).bytes
  {
    Onto(0, a, k, RawRest(rest));
  }

  /** And every input is of this form. */
  lemma {:induction false} EveryInput(s: seq<Byte>) returns (items: seq<Item>, rest: Remainder)
    ensures Reads(s, items, rest)
    decreases |s|, 3
  {
    if s == [] {
      items, rest := [], Nothing;
    } else if s[0] == ESC {
      items, rest := SequenceFirst([], s);
    } else if s[0] < 0xc2 {
      var i := if s[0] < 0x80 then Scalar(s[..1]) else Garbled(s[..1]);
      assert s[..1] == [s[0]];
      items, rest := ItemFirst(i, s[1..]);
      assert s == s[..1] + s[1..];
    } else {
      assert s[..1] == [s[0]];
      items, rest := LeadFirst(s[..1], s[1..]);
      assert s == s[..1] + s[1..];
    }
  }

  lemma ItemFirst(i: Item, s: seq<Byte>) returns (items: seq<Item>, rest: Remainder)
    requires WellFormed(i)
    ensures Reads(Raw(i) + s, items, rest)
    decreases |s|, 4
  {
    var more: seq<Item>;
    more, rest := EveryInput(s);
    items := [i] + more;
    assert items[1..] == more;
    Associates(Raw(i), RawAll(more), RawRest(rest));
  }

  /** A sequence first, which has cut short the scalar `cut`. */
  lemma SequenceFirst(cut: seq<Byte>, s: seq<Byte>) returns (items: seq<Item>, rest: Remainder)
    requires s != [] && s[0] == ESC && (cut == [] || Begun(cut))
    ensures Reads(cut + s, items, rest)
    decreases |s|, 1
  {
    if n :| 0 <= n <= |s| && Sequence(s[..n]) {
      assert s == s[..n] + s[n..];
      items, rest := SequenceThen(cut, s[..n], s[n..]);
    } else {
      items, rest := OnlyOpened(cut, s);
    }
  }

  lemma SequenceThen(cut: seq<Byte>, t: seq<Byte>, s: seq<Byte>) returns (items: seq<Item>, rest: Remainder)
    requires Sequence(t) && (cut == [] || Begun(cut))
    ensures Reads(cut + (t + s), items, rest)
    decreases |t + s|, 0
  {
    items, rest := ItemFirst(Escaped(cut, t), s);
    Associates(cut, t, s);
  }

  lemma OnlyOpened(cut: seq<Byte>, s: seq<Byte>) returns (items: seq<Item>, rest: Remainder)
    requires LeftOver(Opened(cut, s))
    ensures Reads(cut + s, items, rest)
  {
    items, rest := [], Opened(cut, s);
    assert [] + (cut + s) == cut + s;
  }

  /** A scalar begun with `u` comes first. */
  lemma LeadFirst(u: seq<Byte>, s: seq<Byte>) returns (items: seq<Item>, rest: Remainder)
    requires Begun(u)
    ensures Reads(u + s, items, rest)
    decreases |s|, 2
  {
    if s == [] {
      items, rest := [], Lead(u);
      assert [] + u == u + s;
    } else if s[0] == ESC {
      items, rest := SequenceFirst(u, s);
    } else {
      var v := u + s[..1];
      assert s[..1] == [s[0]] && u + s == v + s[1..];
      assert v[..|v| - 1] == u;
      if IsScalar(v) {
        items, rest := ItemFirst(Scalar(v), s[1..]);
      } else if Viable(v) {
        var w :| IsScalar(v + w);
        assert v + [] == v;
        items, rest := LeadFirst(v, s[1..]);
      } else {
        items, rest := ItemFirst(Garbled(v), s[1..]);
      }
    }
  }

  /** What a fresh fence does with any input whatever, in terms of the grammar alone. */
  lemma InputExactly(s: seq<Byte>) returns (items: seq<Item>, rest: Remainder)
    ensures Reads(s, items, rest)
    ensures Flatten(Release(FRESH, s).1) == KeptAll(items) + KeptRest(rest)
    ensures Release(FRESH, s).0.omitted == WithheldAll(items)
    ensures Release(FRESH, s).0 == Rest(WithheldAll(items)) <==> rest.Nothing?
  {
    items, rest := EveryInput(s);
    ReadsExactly(s, items, rest);
  }
}
