/** What a paste becomes: the `replace` calls of `enqueue_paste` (crates/rc-agent/src/session.rs), told by lines. */
module PasteText {
  import opened Bytes
  import opened Protocol
  import opened InputPath
  import opened InputTheory
  import opened InputShape
  import opened InputTheorems

  datatype Break = CrLf | Cr | Lf

  function BreakBytes(k: Break): seq<Byte> { match k case CrLf => [13, 10] case Cr => [13] case Lf => [10] }

  predicate Line(s: seq<Byte>) { 10 !in s && 13 !in s }

  /** A text: a line, or a line, a break and the rest of the text. */
  datatype Text = Last(line: seq<Byte>) | Lines(line: seq<Byte>, end: Break, rest: Text)

  /** Lines hold no breaks, and no CR ends a line right before an LF: that is the one break CR LF. */
  predicate Proper(t: Text) {
    && Line(t.line)
    && (t.Lines? ==> Proper(t.rest) && !(t.end == Cr && t.rest.Lines? && t.rest.line == [] && t.rest.end == Lf))
  }

  function TextBytes(t: Text): seq<Byte> { t.line + if t.Lines? then BreakBytes(t.end) + TextBytes(t.rest) else [] }

  /** The lines, joined by single CRs. */
  function Returns(t: Text): seq<Byte> { t.line + if t.Lines? then [13] + Returns(t.rest) else [] }

  lemma {:induction false} LinePasses(a: seq<Byte>, s: seq<Byte>)
    requires Line(a)
    ensures Newlines(a + s) == a + Newlines(s)
  {
    if a == [] {
      assert a + s == s && a + Newlines(s) == Newlines(s);
    } else {
      LinePasses(a[1..], s);
      assert a == [a[0]] + a[1..] && a[0] in a;
      BytePasses(a[0], a[1..] + s);
      Associates([a[0]], a[1..], s);
      Associates([a[0]], a[1..], Newlines(s));
    }
  }

  lemma BytePasses(b: Byte, s: seq<Byte>)
    requires b != 10 && b != 13
    ensures Newlines([b] + s) == [b] + Newlines(s)
  {
    assert ([b] + s)[1..] == s;
  }

  lemma BreakPasses(k: Break, s: seq<Byte>)
    requires k == Cr ==> s == [] || s[0] != 10
    ensures Newlines(BreakBytes(k) + s) == [13] + Newlines(s)
  {
    var t := BreakBytes(k) + s;
    if k == CrLf {
      assert t[2..] == s;
    } else {
      assert t[1..] == s;
    }
  }

  lemma BeginsWithLf(t: Text)
    requires Proper(t)
    ensures TextBytes(t) != [] && TextBytes(t)[0] == 10 <==> t.Lines? && t.line == [] && t.end == Lf
  {
    if t.line != [] {
      assert TextBytes(t)[0] == t.line[0] && t.line[0] in t.line;
    } else if t.Lines? {
      assert TextBytes(t) == BreakBytes(t.end) + TextBytes(t.rest);
    }
  }

  lemma LfInBreak(k: Break)
    ensures 10 in BreakBytes(k) <==> k != Cr
  {
    match k {
      case CrLf => assert BreakBytes(k)[1] == 10;
      case Lf => assert BreakBytes(k)[0] == 10;
      case Cr =>
    }
  }

  /** Every break becomes one CR and nothing else changes. */
  lemma {:induction false} NewlinesExactly(t: Text)
    requires Proper(t)
    ensures Newlines(TextBytes(t)) == Returns(t)
  {
    match t {
      case Last(line) =>
        LinePasses(line, []);
      case Lines(line, end, rest) =>
        NewlinesExactly(rest);
        var s := TextBytes(rest);
        BeginsWithLf(rest);
        BreakPasses(end, s);
        LinePasses(line, BreakBytes(end) + s);
    }
  }

  /** Every string of bytes is such a text. */
  lemma {:induction false} EveryText(s: seq<Byte>) returns (t: Text)
    ensures Proper(t) && TextBytes(t) == s
    decreases |s|
  {
    if s == [] {
      t := Last([]);
    } else if s[0] != 10 && s[0] != 13 {
      var u := EveryText(s[1..]);
      var line := [s[0]] + u.line;
      t := if u.Last? then Last(line) else Lines(line, u.end, u.rest);
      assert TextBytes(t) == [s[0]] + TextBytes(u);
    } else {
      var k := if s[0] == 10 then Lf else if |s| >= 2 && s[1] == 10 then CrLf else Cr;
      var n := if k == CrLf then 2 else 1;
      var u := EveryText(s[n..]);
      t := Lines([], k, u);
      assert s == BreakBytes(k) + s[n..];
      BeginsWithLf(u);
    }
  }

  lemma {:induction false} ReturnsHasNoLf(t: Text)
    requires Proper(t)
    ensures 10 !in Returns(t)
  {
    if t.Lines? { ReturnsHasNoLf(t.rest); }
  }

  lemma {:induction false} WithoutLf(s: seq<Byte>)
    ensures 10 !in Newlines(s)
    ensures 10 !in s ==> Newlines(s) == s
  {
    var t := EveryText(s);
    NewlinesExactly(t);
    ReturnsHasNoLf(t);
    if 10 !in s { OnlyReturns(t); }
  }

  lemma {:induction false} OnlyReturns(t: Text)
    requires 10 !in TextBytes(t)
    ensures Returns(t) == TextBytes(t)
  {
    if t.Lines? {
      assert forall b :: b in TextBytes(t.rest) ==> b in TextBytes(t);
      assert forall b :: b in BreakBytes(t.end) ==> b in TextBytes(t);
      OnlyReturns(t.rest);
      LfInBreak(t.end);
    }
  }

  // ---- What reaches the PTY ----

  /** The job is what this request asked to have written. */
  predicate Asked(a: Action, job: Job) {
    (a.Input? && job == TypedJob(a)) || (a.Paste? && job == PastedJob(a))
  }

  lemma AdmittedOne(s: State, a: Action, job: Job)
    requires job in Step(s, a).admitted && job !in s.admitted
    ensures Asked(a, job)
  {
    RequestIsAdmit(s, a);
    if a.Input? {
      AdmitAdds(s, TypedJob(a), MAX_INPUT, a.data == INTERRUPT);
    } else if a.Paste? {
      AdmitAdds(s, PastedJob(a), MAX_PASTE, false);
    } else {
      OthersAdmitNothing(s, a);
    }
  }

  lemma AdmitAdds(s: State, job: Job, max: nat, priority: bool)
    ensures Admit(s, job, max, priority).0.admitted in {s.admitted, s.admitted + [job]}
  {
  }

  lemma OthersAdmitNothing(s: State, a: Action)
    requires !a.Input? && !a.Paste?
    ensures Step(s, a).admitted == s.admitted
  {
  }

  /** Whatever was admitted was asked for by some request. */
  lemma {:induction false} AdmittedWasAsked(acts: seq<Action>, job: Job) returns (a: Action)
    requires job in Run(acts).admitted
    ensures a in acts && Asked(a, job)
  {
    var before := acts[..|acts| - 1];
    if job in Run(before).admitted {
      a := AdmittedWasAsked(before, job);
    } else {
      a := acts[|acts| - 1];
      AdmittedOne(Run(before), a, job);
    }
  }

  lemma {:induction false} PartsFinished(parts: seq<Part>, b: Block)
    requires JobPart(b) in parts
    ensures b.job in Finished(parts)
  {
    if parts[|parts| - 1] != JobPart(b) {
      PartsFinished(parts[..|parts| - 1], b);
    }
  }

  /** What a request asks to have written: the bytes typed, or the lines pasted, with what goes around them. */
  ghost predicate AskedBytes(a: Action, bytes: seq<Byte>) {
    || (a.Input? && bytes == a.data)
    || (a.Paste? && forall t :: Proper(t) && TextBytes(t) == a.text ==>
        bytes == (if a.bracketed then PASTE_OPEN else []) + Returns(t) + (if a.bracketed then PASTE_CLOSE else [])
                 + (if a.appendEnter then CR else []))
  }

  /** Whatever is reported as written is exactly what some request asked to have written. */
  lemma WrittenWasAsked(acts: seq<Action>, b: Block) returns (a: Action)
    requires JobPart(b) in Run(acts).parts && b.result.Ok?
    ensures b.chunks <= ChunkCount(b.job.data)
    ensures a in acts && Asked(a, b.job) && AskedBytes(a, AllBytes(Render(b)))
  {
    RunKeeps(acts);
    PartsFinished(Run(acts).parts, b);
    PlacedIsAdmitted(Run(acts));
    a := AdmittedWasAsked(acts, b.job);
    FullBytes(b);
    AskedIsWritten(a, b.job, AllBytes(Render(b)));
  }

  lemma AskedIsWritten(a: Action, job: Job, bytes: seq<Byte>)
    requires Asked(a, job)
    requires bytes == (if job.bracketed then PASTE_OPEN else []) + job.data + (if job.bracketed then PASTE_CLOSE else [])
                      + (if job.appendEnter then CR else [])
    ensures AskedBytes(a, bytes)
  {
    if a.Input? {
      assert [] + job.data + [] + [] == job.data;
    } else {
      forall t | Proper(t) && TextBytes(t) == a.text ensures Returns(t) == job.data {
        NewlinesExactly(t);
      }
    }
  }
}
