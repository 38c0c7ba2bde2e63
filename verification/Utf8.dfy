/** UTF-8 as section 4 of RFC 3629 defines it, and the scanner behind `std::str::from_utf8`. */
module Utf8 {
  import opened Bytes

  predicate Tail(b: Byte) { 0x80 <= b <= 0xbf }

  /** The grammar of RFC 3629, section 4: one scalar value. */
  predicate IsScalar(s: seq<Byte>) {
    || (|s| == 1 && s[0] <= 0x7f)
    || (|s| == 2 && 0xc2 <= s[0] <= 0xdf && Tail(s[1]))
    || (|s| == 3 && Tail(s[2]) &&
        ( || (s[0] == 0xe0 && 0xa0 <= s[1] <= 0xbf)
          || (0xe1 <= s[0] <= 0xec && Tail(s[1]))
          || (s[0] == 0xed && 0x80 <= s[1] <= 0x9f)
          || (0xee <= s[0] <= 0xef && Tail(s[1]))))
    || (|s| == 4 && Tail(s[2]) && Tail(s[3]) &&
        ( || (s[0] == 0xf0 && 0x90 <= s[1] <= 0xbf)
          || (0xf1 <= s[0] <= 0xf3 && Tail(s[1]))
          || (s[0] == 0xf4 && 0x80 <= s[1] <= 0x8f)))
  }

  /** The grammar of RFC 3629, section 4: a string of scalar values. */
  ghost predicate IsUtf8(s: seq<Byte>) {
    s == [] || exists n :: 1 <= n <= 4 && n <= |s| && IsScalar(s[..n]) && IsUtf8(s[n..])
  }

  /** What `from_utf8` reports: success, an unfinished last scalar, or bytes that can never be repaired. */
  datatype Verdict = Ok | Truncated | Malformed

  datatype Scan = Whole(width: nat) | Partial | Broken

  /** The number of bytes a lead byte announces; 0 when it is no lead byte. */
  function Width(lead: Byte): (w: nat)
    ensures w <= 4
  {
    if lead < 0x80 then 1 else if lead < 0xc2 then 0 else if lead < 0xe0 then 2
    else if lead < 0xf0 then 3 else if lead < 0xf5 then 4 else 0
  }

  predicate SecondFits(lead: Byte, b: Byte) {
    Tail(b) && (lead == 0xe0 ==> b >= 0xa0) && (lead == 0xed ==> b <= 0x9f)
            && (lead == 0xf0 ==> b >= 0x90) && (lead == 0xf4 ==> b <= 0x8f)
  }

  /** Scans the scalar at the front, byte by byte, stopping at the first byte that cannot belong to it. */
  function ScanScalar(s: seq<Byte>): (r: Scan)
    requires s != []
    ensures r.Whole? ==> 1 <= r.width <= 4 && r.width <= |s|
  {
    var w := Width(s[0]);
    if w == 0 then Broken
    else if w == 1 then Whole(1)
    else if |s| < 2 then Partial
    else if !SecondFits(s[0], s[1]) then Broken
    else if w == 2 then Whole(2)
    else if |s| < 3 then Partial
    else if !Tail(s[2]) then Broken
    else if w == 3 then Whole(3)
    else if |s| < 4 then Partial
    else if !Tail(s[3]) then Broken
    else Whole(4)
  }

  function FromUtf8(s: seq<Byte>): (v: Verdict) {
    if s == [] then Ok else
    match ScanScalar(s)
    case Whole(n) => FromUtf8(s[n..])
    case Partial => Truncated
    case Broken => Malformed
  }

  lemma ScanAgrees(s: seq<Byte>, n: nat)
    requires s != [] && 1 <= n <= 4 && n <= |s|
    ensures IsScalar(s[..n]) <==> ScanScalar(s) == Whole(n)
  {
    var p := s[..n];
    assert p[0] == s[0];
    assert n >= 2 ==> p[1] == s[1];
    assert n >= 3 ==> p[2] == s[2];
    assert n >= 4 ==> p[3] == s[3];
  }

  /** The scanner accepts exactly the strings of the grammar. */
  lemma {:induction false} FromUtf8Exact(s: seq<Byte>)
    ensures FromUtf8(s) == Ok <==> IsUtf8(s)
  {
    if s != [] {
      forall n | 1 <= n <= 4 && n <= |s| ensures IsScalar(s[..n]) <==> ScanScalar(s) == Whole(n) {
        ScanAgrees(s, n);
      }
      if ScanScalar(s).Whole? {
        FromUtf8Exact(s[ScanScalar(s).width..]);
      }
    }
  }

  lemma DropLeft(a: seq<Byte>, b: seq<Byte>, n: nat)
    requires n <= |a|
    ensures (a + b)[n..] == a[n..] + b
  {
  }

  /** A completion for a string whose last scalar is unfinished. */
  function Completion(s: seq<Byte>): (t: seq<Byte>)
    requires FromUtf8(s) == Truncated
  {
    match ScanScalar(s)
    case Whole(n) => Completion(s[n..])
    case _ =>
      var second: Byte := if s[0] == 0xe0 then 0xa0 else if s[0] == 0xf0 then 0x90 else 0x80;
      (if |s| < 2 then [second] else []) +
      (if |s| < 3 && Width(s[0]) >= 3 then [0x80] else []) +
      (if Width(s[0]) == 4 then [0x80] else [])
  }

  lemma {:induction false} CompletionWorks(s: seq<Byte>)
    requires FromUtf8(s) == Truncated
    ensures IsUtf8(s + Completion(s))
  {
    var t := Completion(s);
    FromUtf8Exact(s + t);
    if ScanScalar(s).Whole? {
      var n := ScanScalar(s).width;
      CompletionWorks(s[n..]);
      FromUtf8Exact(s[n..] + t);
      ScanExtends(s, t);
      DropLeft(s, t, n);
      ScanStep(s + t, n);
    } else {
      ScalarCompleted(s);
      assert (s + t)[|s + t|..] == [];
    }
  }

  lemma ScalarCompleted(s: seq<Byte>)
    requires s != [] && ScanScalar(s) == Partial
    ensures FromUtf8(s) == Truncated && ScanScalar(s + Completion(s)) == Whole(|s + Completion(s)|)
  {
  }

  lemma {:induction false} MalformedIsFinal(s: seq<Byte>, t: seq<Byte>)
    requires FromUtf8(s) == Malformed
    ensures FromUtf8(s + t) == Malformed
  {
    if ScanScalar(s).Whole? {
      var n := ScanScalar(s).width;
      MalformedIsFinal(s[n..], t);
      assert (s + t)[n..] == s[n..] + t;
      ScanExtends(s, t);
    } else {
      ScanExtends(s, t);
    }
  }

  /** The three verdicts mean: in the language, a proper prefix of it, or beyond repair. */
  lemma VerdictMeaning(s: seq<Byte>)
    ensures FromUtf8(s) == Ok <==> IsUtf8(s)
    ensures FromUtf8(s) == Truncated <==> !IsUtf8(s) && exists t :: IsUtf8(s + t)
    ensures FromUtf8(s) == Malformed <==> forall t :: !IsUtf8(s + t)
  {
    FromUtf8Exact(s);
    match FromUtf8(s) {
      case Ok => assert s + [] == s; assert IsUtf8(s + []);
      case Truncated => CompletionWorks(s);
      case Malformed =>
        forall t ensures !IsUtf8(s + t) {
          MalformedIsFinal(s, t);
          FromUtf8Exact(s + t);
        }
    }
  }

  lemma ScanExtends(a: seq<Byte>, b: seq<Byte>)
    requires a != [] && !ScanScalar(a).Partial?
    ensures ScanScalar(a + b) == ScanScalar(a)
  {
  }

  lemma ScanStep(s: seq<Byte>, n: nat)
    requires s != [] && ScanScalar(s) == Whole(n)
    ensures FromUtf8(s) == FromUtf8(s[n..])
  {
  }

  lemma {:induction false} ScanPast(a: seq<Byte>, b: seq<Byte>)
    requires FromUtf8(a) == Ok
    ensures FromUtf8(a + b) == FromUtf8(b)
  {
    if a == [] {
      assert a + b == b;
    } else {
      var n := ScanScalar(a).width;
      calc {
        FromUtf8(a + b);
        { ScanExtends(a, b); ScanStep(a + b, n); DropLeft(a, b, n); }
        FromUtf8(a[n..] + b);
        { ScanStep(a, n); ScanPast(a[n..], b); }
        FromUtf8(b);
      }
    }
  }

  lemma Utf8Append(a: seq<Byte>, b: seq<Byte>)
    requires IsUtf8(a) && IsUtf8(b)
    ensures IsUtf8(a + b)
  {
    FromUtf8Exact(a);
    FromUtf8Exact(b);
    FromUtf8Exact(a + b);
    ScanPast(a, b);
  }

  lemma ScalarIsUtf8(s: seq<Byte>)
    requires IsScalar(s)
    ensures IsUtf8(s)
  {
    assert s[..|s|] == s && s[|s|..] == [];
  }
}
