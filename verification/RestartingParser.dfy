/** A small parser in the DEC style, for which ESC starts a new sequence wherever it comes, CAN and SUB break one off,
    and other controls neither start nor end one. The fence's automaton is not of this kind: it takes an ESC inside a
    sequence for an ordinary byte. So a token that is complete for the fence need not be complete for this parser. */
module RestartingParser {
  import opened Bytes
  import FenceTheory

  datatype Mode = Ground | Escape | Intermediate | Csi | Osc | Str

  predicate Breaks(b: Byte) { b == 0x18 || b == 0x1a }

  function Next(m: Mode, b: Byte): Mode {
    if b == ESC then Escape
    else if Breaks(b) then Ground
    else match m
      case Ground => Ground
      case Escape =>
        if b < 0x20 || b >= 0x7f then Escape
        else if b < 0x30 then Intermediate
        else if b == 0x5b then Csi
        else if b == 0x5d then Osc
        else if b in {0x50, 0x58, 0x5e, 0x5f} then Str
        else Ground
      case Intermediate => if 0x30 <= b <= 0x7e then Ground else Intermediate
      case Csi => if 0x40 <= b <= 0x7e then Ground else Csi
      case Osc => if b == 7 then Ground else Osc
      case Str => Str
  }

  function Parse(m: Mode, s: seq<Byte>): Mode { Fold(Next, m, s) }

  // ---- When it is at rest ----

  /** What ends a sequence that has got as far as `m`. */
  predicate Final(m: Mode, b: Byte) {
    Breaks(b) || match m
                 case Intermediate => 0x30 <= b <= 0x7e
                 case Csi => 0x40 <= b <= 0x7e
                 case Osc => b == 7
                 case _ => false
  }

  ghost predicate Contains(m: Mode, s: seq<Byte>) { exists i :: 0 <= i < |s| && Final(m, s[i]) }

  /** The bytes after an ESC, none of them an ESC, begin with a whole sequence: controls aside, intermediate bytes and a
      final one, a control sequence with its final byte, an operating system command with its BEL, or a single byte.
      The strings that only ESC \ ends are whole only if broken off. */
  ghost predicate Whole(s: seq<Byte>) {
    s != [] &&
    if Breaks(s[0]) then true
    else if s[0] < 0x20 || s[0] >= 0x7f then Whole(s[1..])
    else if s[0] < 0x30 then Contains(Intermediate, s[1..])
    else if s[0] == 0x5b then Contains(Csi, s[1..])
    else if s[0] == 0x5d then Contains(Osc, s[1..])
    else if s[0] in {0x50, 0x58, 0x5e, 0x5f} then Contains(Str, s[1..])
    else true
  }

  /** The bytes after the last ESC. */
  function Tail(s: seq<Byte>): seq<Byte>
    requires ESC in s
  {
    if ESC in s[1..] then Tail(s[1..]) else s[1..]
  }

  /** The parser is in the middle of nothing after `s`. */
  ghost predicate Closed(s: seq<Byte>) { ESC !in s || Whole(Tail(s)) }

  lemma ParseFirst(m: Mode, s: seq<Byte>)
    requires s != []
    ensures Parse(m, s) == Parse(Next(m, s[0]), s[1..])
  {
    assert s == [s[0]] + s[1..];
    FoldFront(Next, m, s[0], s[1..]);
  }

  lemma {:induction false} GroundStays(s: seq<Byte>)
    requires ESC !in s
    ensures Parse(Ground, s) == Ground
  {
    if s != [] {
      ParseFirst(Ground, s);
      GroundStays(s[1..]);
    }
  }

  lemma ContainsFirst(m: Mode, s: seq<Byte>)
    requires s != []
    ensures Contains(m, s) <==> Final(m, s[0]) || Contains(m, s[1..])
  {
    if i :| 0 <= i < |s| && Final(m, s[i]) {
      assert i > 0 ==> s[1..][i - 1] == s[i];
    }
    if i :| 0 <= i < |s[1..]| && Final(m, s[1..][i]) {
      assert s[i + 1] == s[1..][i];
    }
  }

  /** Inside a sequence the parser gets back to rest with the first final byte. */
  lemma {:induction false} EndsByFinal(m: Mode, s: seq<Byte>)
    requires m in {Intermediate, Csi, Osc, Str} && ESC !in s
    ensures Parse(m, s) == Ground <==> Contains(m, s)
  {
    if s != [] {
      ParseFirst(m, s);
      ContainsFirst(m, s);
      if Next(m, s[0]) == Ground {
        GroundStays(s[1..]);
      } else {
        EndsByFinal(m, s[1..]);
      }
    }
  }

  lemma {:induction false} EscapeEnds(s: seq<Byte>)
    requires ESC !in s
    ensures Parse(Escape, s) == Ground <==> Whole(s)
  {
    if s != [] {
      ParseFirst(Escape, s);
      match Next(Escape, s[0]) {
        case Ground => GroundStays(s[1..]);
        case Escape => EscapeEnds(s[1..]);
        case m => EndsByFinal(m, s[1..]);
      }
    }
  }

  /** Where the parser was before an ESC does not matter. */
  lemma {:induction false} OnlyTail(m: Mode, s: seq<Byte>)
    requires ESC in s
    ensures ESC !in Tail(s) && Parse(m, s) == Parse(Escape, Tail(s))
    decreases |s|
  {
    ParseFirst(m, s);
    if ESC in s[1..] {
      OnlyTail(Next(m, s[0]), s[1..]);
    } else {
      assert s[0] == ESC;
    }
  }

  /** Which byte strings leave the parser at rest: those without an ESC, and those whose last ESC begins a whole
      sequence. */
  lemma AtRestExactly(s: seq<Byte>)
    ensures Parse(Ground, s) == Ground <==> Closed(s)
  {
    if ESC in s {
      OnlyTail(Ground, s);
      EscapeEnds(Tail(s));
    } else {
      GroundStays(s);
    }
  }

  // ---- Which of the fence's tokens leave it at rest ----

  /** Intermediate bytes and then a control, DEL or 8-bit byte: complete for the fence, and nothing yet for the parser. */
  predicate Loose(p: seq<Byte>) {
    p != [] && if |p| == 1 then !Breaks(p[0]) && (p[0] < 0x20 || p[0] >= 0x7f) else 0x20 <= p[0] < 0x30 && Loose(p[1..])
  }

  lemma {:induction false} CsiEnds(p: seq<Byte>)
    requires FenceTheory.CsiBody(p)
    ensures Contains(Csi, p)
  {
    ContainsFirst(Csi, p);
    if !(0x40 <= p[0] <= 0x7e) {
      CsiEnds(p[1..]);
    }
  }

  lemma {:induction false} OscEnds(p: seq<Byte>)
    requires FenceTheory.OscBody(p) && ESC !in p
    ensures Contains(Osc, p)
  {
    ContainsFirst(Osc, p);
    if p[0] != 7 {
      OscEnds(p[1..]);
    }
  }

  lemma {:induction false} IntermediateEnds(p: seq<Byte>)
    requires FenceTheory.EscBody(p) && ESC !in p
    ensures Contains(Intermediate, p) <==> !Loose(p)
  {
    ContainsFirst(Intermediate, p);
    if 0x20 <= p[0] < 0x30 {
      IntermediateEnds(p[1..]);
    } else if |p| == 1 {
      assert p[1..] == [];
    }
  }

  /** After a single ESC a safe sequence is whole unless it is loose. */
  lemma BodyWhole(p: seq<Byte>)
    requires FenceTheory.EscBody(p) && ESC !in p
    ensures Whole(p) <==> !Loose(p)
  {
    if p[0] == 0x5b {
      CsiEnds(p[1..]);
    } else if p[0] == 0x5d {
      OscEnds(p[1..]);
    } else if 0x20 <= p[0] < 0x30 {
      IntermediateEnds(p[1..]);
    } else {
      assert p[1..] == [];
    }
  }

  /** Which of the tokens the fence releases leave the parser at rest: text; a sequence without a second ESC, unless it
      ends in a control, DEL or 8-bit byte right after its intermediate bytes; and a sequence with more of them if and
      only if what follows the last one begins with a whole sequence. */
  lemma TokenExactly(t: seq<Byte>)
    requires FenceTheory.SafeToken(t)
    ensures Parse(Ground, t) == Ground <==>
            ESC !in t || if ESC in t[1..] then Whole(Tail(t[1..])) else !Loose(t[1..])
  {
    AtRestExactly(t);
    if ESC in t && ESC !in t[1..] {
      assert t[0] == ESC;
      BodyWhole(t[1..]);
    }
  }

  /** Three tokens that leave it in the middle of a sequence. */
  lemma TokensInTheMiddle()
    ensures FenceTheory.SafeToken([ESC, ESC]) && Parse(Ground, [ESC, ESC]) == Escape
    ensures FenceTheory.SafeToken([ESC, 7]) && Parse(Ground, [ESC, 7]) == Escape
    ensures FenceTheory.SafeToken([ESC, 0x5b, ESC, 0x5b]) && Parse(Ground, [ESC, 0x5b, ESC, 0x5b]) == Csi
  {
    TwoBytes(ESC);
    TwoBytes(7);
    NestedBrackets();
  }

  lemma TwoBytes(b: Byte)
    requires b == ESC || b == 7
    ensures FenceTheory.SafeToken([ESC, b]) && Parse(Ground, [ESC, b]) == Escape
  {
    var t := [ESC, b];
    assert t[1..] == [b] && t[1..|t| - 1] == [];
    ParseFirst(Ground, t);
    ParseFirst(Escape, t[1..]);
    assert t[1..][1..] == [];
  }

  lemma NestedBrackets()
    ensures FenceTheory.SafeToken([ESC, 0x5b, ESC, 0x5b]) && Parse(Ground, [ESC, 0x5b, ESC, 0x5b]) == Csi
  {
    var t := [ESC, 0x5b, ESC, 0x5b];
    var p := t[1..];
    assert p[1..] == [ESC, 0x5b] && p[1..][1..] == [0x5b] && p[1..][1..][1..] == [];
    assert FenceTheory.CsiBody([0x5b]);
    assert FenceTheory.CsiBody([ESC, 0x5b]);
    ParseFirst(Ground, t);
    ParseFirst(Escape, p);
    ParseFirst(Csi, p[1..]);
    ParseFirst(Escape, p[1..][1..]);
  }
}
