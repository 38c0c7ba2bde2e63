/** crates/rc-agent/examples/unicode-width-profile.rs, which writes the width table, and
    packages/terminal-client/src/unicode.ts, which searches it. */
module WidthTable {
  import opened Protocol

  const LAST := 0x10FFFF

  datatype Range = Range(start: nat, end: nat, width: nat)

  predicate Surrogate(cp: int) { 0xD800 <= cp <= 0xDFFF }

  predicate Scalar(cp: int) { 0 <= cp <= LAST && !Surrogate(cp) }

  /** A scalar's width by the generator's width function, at most 2. Everything else counts as the default, 1. */
  function Class(w: nat -> nat, cp: nat): nat {
    if !Scalar(cp) then 1 else if w(cp) <= 2 then w(cp) else 2
  }

  predicate Contains(r: Range, cp: int) { r.start <= cp <= r.end }

  /** A run of one width other than the default. */
  ghost predicate IsRun(w: nat -> nat, r: Range) {
    r.start <= r.end && r.width != 1 && forall cp :: r.start <= cp <= r.end ==> Class(w, cp) == r.width
  }

  predicate StartsFresh(w: nat -> nat, r: Range) { r.start == 0 || Class(w, r.start - 1) != r.width }

  predicate EndsFresh(w: nat -> nat, r: Range) { Class(w, r.end + 1) != r.width }

  predicate InOrder(table: seq<Range>) { forall i, j :: 0 <= i < j < |table| ==> table[i].end < table[j].start }

  predicate Covered(table: seq<Range>, cp: int) { exists r :: r in table && Contains(r, cp) }

  predicate Covers(w: nat -> nat, table: seq<Range>, below: nat) {
    forall cp :: 0 <= cp < below && Class(w, cp) != 1 ==> Covered(table, cp)
  }

  /** The table of a width function: its maximal runs of a width other than 1, in order, and all of them. */
  ghost predicate TableOf(w: nat -> nat, table: seq<Range>) {
    && InOrder(table) && Covers(w, table, LAST + 1)
    && forall r :: r in table ==> Maximal(w, r)
  }

  // ---- Writing the table ----

  ghost predicate Maximal(w: nat -> nat, r: Range) { IsRun(w, r) && StartsFresh(w, r) && EndsFresh(w, r) }

  /** The ranges pushed before `cp`. */
  ghost predicate Pushed(w: nat -> nat, table: seq<Range>, cp: nat) {
    InOrder(table) && forall r :: r in table ==> Maximal(w, r) && r.end < cp
  }

  /** The run still open, which ends right before `cp`. */
  ghost predicate OpenRun(w: nat -> nat, table: seq<Range>, r: Range, cp: nat) {
    IsRun(w, r) && StartsFresh(w, r) && r.end + 1 == cp && forall q :: q in table ==> q.end < r.start
  }

  /** The loop's state at `cp`. */
  ghost predicate Scanned(w: nat -> nat, table: seq<Range>, open: Option<Range>, cp: nat) {
    && Pushed(w, table, cp)
    && match open
       case None => Covers(w, table, cp) && (cp == 0 || Class(w, cp - 1) == 1)
       case Some(r) => Covers(w, table + [r], cp) && OpenRun(w, table, r, cp)
  }

  /** The open run ends because the next code point differs. */
  lemma CloseRun(w: nat -> nat, table: seq<Range>, r: Range, cp: nat)
    requires Pushed(w, table, cp) && OpenRun(w, table, r, cp) && Class(w, cp) != r.width
    ensures Pushed(w, table + [r], cp)
  {
  }

  lemma ExtendRun(w: nat -> nat, table: seq<Range>, r: Range, cp: nat)
    requires OpenRun(w, table, r, cp) && Class(w, cp) == r.width
    ensures OpenRun(w, table, r.(end := cp), cp + 1)
  {
  }

  lemma NewRun(w: nat -> nat, table: seq<Range>, cp: nat)
    requires Pushed(w, table, cp) && Class(w, cp) != 1 && (cp == 0 || Class(w, cp - 1) != Class(w, cp))
    ensures OpenRun(w, table, Range(cp, cp, Class(w, cp)), cp + 1)
  {
  }

  lemma CoveredMore(table: seq<Range>, r: Range, cp: int)
    ensures Covered(table + [r], cp) <==> Covered(table, cp) || Contains(r, cp)
  {
    if Covered(table, cp) {
      var q :| q in table && Contains(q, cp);
      assert q in table + [r];
    }
    if Contains(r, cp) {
      assert r in table + [r];
    }
  }

  /** Covering up to `cp`, and `cp` itself. */
  lemma CoverNext(w: nat -> nat, table: seq<Range>, r: Range, cp: nat)
    requires forall c :: 0 <= c < cp && Class(w, c) != 1 ==> Covered(table, c) || Contains(r, c)
    requires Class(w, cp) == 1 || Contains(r, cp)
    ensures Covers(w, table + [r], cp + 1)
  {
    forall c | 0 <= c < cp + 1 && Class(w, c) != 1 ensures Covered(table + [r], c) {
      CoveredMore(table, r, c);
    }
  }

  method Write(w: nat -> nat) returns (ranges: seq<Range>)
    ensures TableOf(w, ranges)
  {
    ranges := [];
    var curStart: Option<nat> := None;
    var curEnd: nat, curWidth: nat := 0, 0;
    for cp := 0 to LAST + 1
      invariant Scanned(w, ranges, Current(curStart, curEnd, curWidth), cp)
    {
      ghost var table, open := ranges, Current(curStart, curEnd, curWidth);
      var width := if w(cp) <= 2 then w(cp) else 2;
      if Surrogate(cp) || width == 1 {
        if curStart.Some? {
          ranges := ranges + [Range(curStart.value, curEnd, curWidth)];
          curStart := None;
        }
        StepDefault(w, table, open, cp);
      } else if curStart.None? {
        curStart, curEnd, curWidth := Some(cp), cp, width;
        StepOpen(w, table, cp);
      } else if curWidth == width && curEnd + 1 == cp {
        curEnd := cp;
        StepExtend(w, table, open.value, cp);
      } else {
        ranges := ranges + [Range(curStart.value, curEnd, curWidth)];
        curStart, curEnd, curWidth := Some(cp), cp, width;
        StepChange(w, table, open.value, cp);
      }
    }
    if curStart.Some? {
      ranges := ranges + [Range(curStart.value, curEnd, curWidth)];
    }
  }

  function Current(start: Option<nat>, end: nat, width: nat): Option<Range> {
    if start.Some? then Some(Range(start.value, end, width)) else None
  }

  lemma StepDefault(w: nat -> nat, table: seq<Range>, open: Option<Range>, cp: nat)
    requires Scanned(w, table, open, cp) && Class(w, cp) == 1
    ensures Scanned(w, if open.Some? then table + [open.value] else table, None, cp + 1)
  {
    if open.Some? {
      CloseRun(w, table, open.value, cp);
      CoverSkip(w, table + [open.value], cp);
    } else {
      CoverSkip(w, table, cp);
    }
  }

  lemma CoverSkip(w: nat -> nat, table: seq<Range>, cp: nat)
    requires Covers(w, table, cp) && Class(w, cp) == 1
    ensures Covers(w, table, cp + 1)
  {
  }

  lemma StepOpen(w: nat -> nat, table: seq<Range>, cp: nat)
    requires Scanned(w, table, None, cp) && Class(w, cp) != 1
    ensures Scanned(w, table, Some(Range(cp, cp, Class(w, cp))), cp + 1)
  {
    NewRun(w, table, cp);
    CoverNext(w, table, Range(cp, cp, Class(w, cp)), cp);
  }

  lemma StepExtend(w: nat -> nat, table: seq<Range>, r: Range, cp: nat)
    requires Scanned(w, table, Some(r), cp) && Class(w, cp) == r.width
    ensures Scanned(w, table, Some(r.(end := cp)), cp + 1)
  {
    ExtendRun(w, table, r, cp);
    forall c | 0 <= c < cp && Class(w, c) != 1 ensures Covered(table, c) || Contains(r.(end := cp), c) {
      CoveredMore(table, r, c);
    }
    CoverNext(w, table, r.(end := cp), cp);
  }

  lemma StepChange(w: nat -> nat, table: seq<Range>, r: Range, cp: nat)
    requires Scanned(w, table, Some(r), cp) && Class(w, cp) != r.width && Class(w, cp) != 1
    ensures Scanned(w, table + [r], Some(Range(cp, cp, Class(w, cp))), cp + 1)
  {
    CloseRun(w, table, r, cp);
    assert Class(w, cp - 1) == r.width;
    NewRun(w, table + [r], cp);
    CoverNext(w, table + [r], Range(cp, cp, Class(w, cp)), cp);
  }

  // ---- Searching the table ----

  /** The width a number should have: surrogates, fractions and numbers out of range take none. */
  function WidthOf(w: nat -> nat, x: real): nat {
    if x.Floor as real == x && Scalar(x.Floor) then Class(w, x.Floor) else 0
  }

  method ScalarWidth(widthRanges: seq<Range>, x: real, ghost w: nat -> nat) returns (r: nat)
    requires TableOf(w, widthRanges)
    ensures r == WidthOf(w, x)
  {
    if x.Floor as real != x || x.Floor < 0 || x.Floor > 0x10FFFF {
      return 0;
    }
    var codepoint := x.Floor;
    if codepoint >= 0xD800 && codepoint <= 0xDFFF {
      return 0;
    }
    var lo, hi := 0, |widthRanges| - 1;
    while lo <= hi
      invariant 0 <= lo <= |widthRanges| && -1 <= hi < |widthRanges|
      invariant forall i :: 0 <= i < |widthRanges| && !(lo <= i <= hi) ==> !Contains(widthRanges[i], codepoint)
    {
      var middle := (lo + hi) / 2;
      var range := widthRanges[middle];
      if codepoint < range.start {
        hi := middle - 1;
      } else if codepoint > range.end {
        lo := middle + 1;
      } else {
        assert range in widthRanges && Contains(range, codepoint);
        return range.width;
      }
      Excluded(widthRanges, middle, codepoint);
    }
    assert !Covered(widthRanges, codepoint);
    r := 1;
  }

  /** In an ordered table, what lies before one range is in no later one, and what lies after it in no earlier one. */
  lemma Excluded(table: seq<Range>, m: nat, cp: int)
    requires InOrder(table) && m < |table| && (forall r :: r in table ==> r.start <= r.end)
    ensures cp < table[m].start ==> forall i :: m <= i < |table| ==> !Contains(table[i], cp)
    ensures cp > table[m].end ==> forall i :: 0 <= i <= m ==> !Contains(table[i], cp)
  {
    forall i | 0 <= i < |table| ensures table[i] in table && table[i].start <= table[i].end {}
  }

  // ---- The table is the only one ----

  /** Maximal runs that meet are the same. */
  lemma SameRun(w: nat -> nat, q: Range, r: Range)
    requires Maximal(w, q) && Maximal(w, r) && Contains(q, r.start)
    ensures q == r
  {
    assert Class(w, r.start) == q.width == r.width;
  }

  /** The ranges of the table are exactly the maximal runs of the width function. */
  lemma TableIsMaximalRuns(w: nat -> nat, table: seq<Range>, r: Range)
    requires TableOf(w, table)
    ensures r in table <==> Maximal(w, r)
  {
    if Maximal(w, r) {
      assert Class(w, r.start) == r.width;
      assert Covered(table, r.start);
      var q :| q in table && Contains(q, r.start);
      SameRun(w, q, r);
    }
  }
}
