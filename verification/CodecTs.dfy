/** packages/core/src/frame.ts: the browser's decoder and encoder, and their agreement with the agent's. */
module CodecTs {
  import opened Bytes
  import F = Frames
  import Codec

  datatype Error = FrameTooLarge | TruncatedHeader | ProtocolVersion | InvalidFlagsOrKind
                 | TruncatedPayload | InvalidFrame | InvalidUuid
  datatype Result<T> = Ok(value: T) | Err(error: Error)

  /** A frame as the browser sees it; the session id is its usual text form. */
  datatype TerminalFrame = TerminalFrame(kind: int, sessionId: string, generation: int, sequence: int, payload: seq<Byte>)

  // ---- UUID text ----

  function HexDigit(n: nat): char
    requires n < 16
  {
    "0123456789abcdef"[n]
  }

  predicate IsHex(c: char) { '0' <= c <= '9' || 'a' <= c <= 'f' || 'A' <= c <= 'F' }

  function HexValue(c: char): (n: nat)
    requires IsHex(c)
    ensures n < 16
  {
    if c <= '9' then c as int - '0' as int
    else if c <= 'F' then c as int - 'A' as int + 10 else c as int - 'a' as int + 10
  }

  function HexText(bytes: seq<Byte>): (s: string)
    ensures |s| == 2 * |bytes| && forall i :: 0 <= i < |s| ==> IsHex(s[i])
  {
    if bytes == [] then ""
    else [HexDigit(bytes[0] / 16), HexDigit(bytes[0] % 16)] + HexText(bytes[1..])
  }

  predicate AllHex(s: string) { forall i :: 0 <= i < |s| ==> IsHex(s[i]) }

  function HexBytes(s: string): (b: seq<Byte>)
    requires AllHex(s) && |s| % 2 == 0
    ensures |b| == |s| / 2
  {
    if s == "" then [] else [HexValue(s[0]) * 16 + HexValue(s[1])] + HexBytes(s[2..])
  }

  /** `id.replaceAll('-', '')`. */
  function Strip(s: string): string {
    if s == "" then "" else (if s[0] == '-' then "" else [s[0]]) + Strip(s[1..])
  }

  /** The regular expression of the source. */
  predicate UuidShaped(id: string) {
    |id| == 36 && forall i :: 0 <= i < 36 ==> if i in {8, 13, 18, 23} then id[i] == '-' else IsHex(id[i])
  }

  function Dashed(h: string): string
    requires |h| == 32
  {
    h[..8] + "-" + h[8..12] + "-" + h[12..16] + "-" + h[16..20] + "-" + h[20..]
  }

  function BytesUuid(bytes: seq<Byte>): Result<string> {
    if |bytes| != 16 then Err(InvalidUuid) else Ok(Dashed(HexText(bytes)))
  }

  lemma {:induction false} StripAppend(a: string, b: string)
    ensures Strip(a + b) == Strip(a) + Strip(b)
  {
    if a == "" {
      assert a + b == b;
    } else {
      assert (a + b)[1..] == a[1..] + b;
      StripAppend(a[1..], b);
    }
  }

  lemma {:induction false} StripHex(s: string)
    requires AllHex(s)
    ensures Strip(s) == s
  {
    if s != "" {
      StripHex(s[1..]);
    }
  }

  lemma StripDashed(h: string)
    requires |h| == 32 && AllHex(h)
    ensures Strip(Dashed(h)) == h
  {
    var a, b, c, d, e := h[..8], h[8..12], h[12..16], h[16..20], h[20..];
    StripHex(a); StripHex(b); StripHex(c); StripHex(d); StripHex(e);
    StripJoin(a, b, a);
    StripJoin(a + "-" + b, c, a + b);
    StripJoin(a + "-" + b + "-" + c, d, a + b + c);
    StripJoin(a + "-" + b + "-" + c + "-" + d, e, a + b + c + d);
    FiveParts(h);
  }

  lemma FiveParts(h: string)
    requires |h| == 32
    ensures h == h[..8] + h[8..12] + h[12..16] + h[16..20] + h[20..]
  {
  }

  lemma StripJoin(a: string, b: string, bare: string)
    requires Strip(a) == bare && Strip(b) == b
    ensures Strip(a + "-" + b) == bare + b
  {
    StripAppend(a + "-", b);
    StripAppend(a, "-");
    StripDash();
  }

  lemma StripDash()
    ensures Strip("-") == ""
  {
    assert "-"[1..] == "";
  }

  /** The hexadecimal digits of a text shaped like a UUID. */
  function Digits(id: string): (h: string)
    requires UuidShaped(id)
    ensures |h| == 32
  {
    id[..8] + id[9..13] + id[14..18] + id[19..23] + id[24..]
  }

  lemma DigitsHex(id: string)
    requires UuidShaped(id)
    ensures AllHex(Digits(id))
  {
    forall i | 0 <= i < 32 ensures IsHex(Digits(id)[i]) {
      var j := if i < 8 then i else if i < 12 then i + 1 else if i < 16 then i + 2 else if i < 20 then i + 3 else i + 4;
      assert Digits(id)[i] == id[j];
    }
  }

  lemma DigitsDashed(id: string)
    requires UuidShaped(id)
    ensures Dashed(Digits(id)) == id
  {
    var h := Digits(id);
    assert h[..8] == id[..8] && h[8..12] == id[9..13] && h[12..16] == id[14..18];
    assert h[16..20] == id[19..23] && h[20..] == id[24..];
    assert id == id[..8] + id[8..9] + id[9..13] + id[13..14] + id[14..18] + id[18..19] + id[19..23] + id[23..24] + id[24..];
    assert id[8..9] == "-" && id[13..14] == "-" && id[18..19] == "-" && id[23..24] == "-";
  }

  function UuidBytes(id: string): (r: Result<seq<Byte>>)
    ensures r.Ok? ==> |r.value| == 16
  {
    if !UuidShaped(id) then Err(InvalidUuid) else
      DigitsHex(id); DigitsDashed(id); StripDashed(Digits(id));
      Ok(HexBytes(Strip(id)))
  }

  lemma {:induction false} HexRoundTrip(bytes: seq<Byte>)
    ensures HexBytes(HexText(bytes)) == bytes
  {
    if bytes != [] {
      HexRoundTrip(bytes[1..]);
      var s := HexText(bytes);
      assert s[2..] == HexText(bytes[1..]);
      HexDigitValue(bytes[0] / 16);
      HexDigitValue(bytes[0] % 16);
    }
  }

  lemma HexDigitValue(n: nat)
    requires n < 16
    ensures IsHex(HexDigit(n)) && HexValue(HexDigit(n)) == n
  {
  }

  lemma DashedShape(h: string)
    requires |h| == 32 && AllHex(h)
    ensures UuidShaped(Dashed(h))
  {
  }

  /** Sixteen bytes survive the trip through their text form. */
  lemma UuidRoundTrip(bytes: seq<Byte>)
    requires |bytes| == 16
    ensures BytesUuid(bytes).Ok? && UuidBytes(BytesUuid(bytes).value) == Ok(bytes)
  {
    var h := HexText(bytes);
    DashedShape(h);
    StripDashed(h);
    HexRoundTrip(bytes);
  }

  // ---- Decoding ----

  function TextOf(session: seq<Byte>): string
    requires |session| == 16
  {
    BytesUuid(session).value
  }

  function FrameAt(d: seq<Byte>): (r: Result<(TerminalFrame, nat)>)
    ensures r.Ok? ==> F.HEADER_LEN <= r.value.1 <= |d|
  {
    if |d| < F.HEADER_LEN then Err(TruncatedHeader)
    else if Codec.FromBigEndian(d[0..4]) != 0x5243544d || d[4] != 1 then Err(ProtocolVersion)
    else if d[5] < 1 || d[5] > 6 || Codec.FromBigEndian(d[6..8]) != 0 then Err(InvalidFlagsOrKind)
    else
      var size := Codec.FromBigEndian(d[36..40]);
      if size > F.MAX_PAYLOAD then Err(FrameTooLarge)
      else if F.HEADER_LEN + size > |d| then Err(TruncatedPayload)
      else Ok((TerminalFrame(d[5], TextOf(d[8..24]), Codec.FromBigEndian(d[24..28]),
                             Codec.FromBigEndian(d[28..36]), d[F.HEADER_LEN..F.HEADER_LEN + size]),
               F.HEADER_LEN + size))
  }

  function FramesFrom(d: seq<Byte>): Result<seq<TerminalFrame>> {
    if d == [] then Ok([]) else
    match FrameAt(d)
    case Err(e) => Err(e)
    case Ok((f, n)) =>
      match FramesFrom(d[n..])
      case Err(e) => Err(e)
      case Ok(fs) => Ok([f] + fs)
  }

  /** `decodeFrames`. */
  function Decode(d: seq<Byte>): Result<seq<TerminalFrame>> {
    if d == [] || |d| > F.MAX_MESSAGE then Err(FrameTooLarge) else FramesFrom(d)
  }

  function Prepend(fs: seq<TerminalFrame>, r: Result<seq<TerminalFrame>>): Result<seq<TerminalFrame>> {
    match r case Ok(more) => Ok(fs + more) case Err(e) => Err(e)
  }

  lemma PrependOne(fs: seq<TerminalFrame>, d: seq<Byte>)
    requires d != [] && FrameAt(d).Ok?
    ensures var (f, n) := FrameAt(d).value; Prepend(fs, FramesFrom(d)) == Prepend(fs + [f], FramesFrom(d[n..]))
  {
    var (f, n) := FrameAt(d).value;
    var r := FramesFrom(d[n..]);
    if r.Ok? {
      assert fs + ([f] + r.value) == (fs + [f]) + r.value;
    }
  }

  lemma NextFrame(fs: seq<TerminalFrame>, d: seq<Byte>, at: nat, next: (TerminalFrame, nat))
    requires at < |d| && FrameAt(d[at..]) == Ok(next)
    ensures at + next.1 <= |d|
    ensures Prepend(fs, FramesFrom(d[at..])) == Prepend(fs + [next.0], FramesFrom(d[at + next.1..]))
  {
    PrependOne(fs, d[at..]);
    assert d[at..][next.1..] == d[at + next.1..];
  }

  method DecodeFrames(bytes: seq<Byte>) returns (r: Result<seq<TerminalFrame>>)
    ensures r == Decode(bytes)
  {
    if bytes == [] || |bytes| > F.MAX_MESSAGE {
      return Err(FrameTooLarge);
    }
    var result: seq<TerminalFrame> := [];
    var offset := 0;
    assert bytes[0..] == bytes;
    assert Prepend([], FramesFrom(bytes)) == FramesFrom(bytes) by {
      if FramesFrom(bytes).Ok? {
        assert [] + FramesFrom(bytes).value == FramesFrom(bytes).value;
      }
    }
    while offset < |bytes|
      invariant 0 <= offset <= |bytes|
      invariant FramesFrom(bytes) == Prepend(result, FramesFrom(bytes[offset..]))
      decreases |bytes| - offset
    {
      match FrameAt(bytes[offset..]) {
        case Err(e) =>
          return Err(e);
        case Ok(next) =>
          NextFrame(result, bytes, offset, next);
          result, offset := result + [next.0], offset + next.1;
      }
    }
    assert bytes[offset..] == [];
    assert result + [] == result;
    r := Ok(result);
  }

  // ---- Agreement with the agent ----

  /** An agent frame as the browser presents it. */
  function Shown(f: F.Frame): TerminalFrame
    requires |f.session| == 16
  {
    TerminalFrame(f.kind, TextOf(f.session), f.generation, f.sequence, f.payload)
  }

  ghost predicate Same(rs: Codec.Result<seq<F.Frame>>, ts: Result<seq<TerminalFrame>>) {
    && (rs.Ok? <==> ts.Ok?)
    && (rs.Ok? ==> |rs.value| == |ts.value|)
    && (rs.Ok? ==> forall i :: 0 <= i < |rs.value| ==> |rs.value[i].session| == 16 && ts.value[i] == Shown(rs.value[i]))
  }

  lemma Numbers(d: seq<Byte>)
    ensures |d| == 4 ==> (Codec.FromBigEndian(d) == 0x5243544d <==> d == Codec.MAGIC)
    ensures |d| == 2 ==> (Codec.FromBigEndian(d) == 0 <==> d[0] == 0 && d[1] == 0)
  {
    if |d| == 2 {
      assert d == [] + [d[0]] + [d[1]];
      ReadMore([], d[0]);
      ReadMore([d[0]], d[1]);
    }
    if |d| == 4 {
      Codec.BigEndianWritten(d);
      MagicNumber();
    }
  }

  lemma MagicNumber()
    ensures Codec.FromBigEndian(Codec.MAGIC) == 0x5243544d
    ensures Codec.BigEndian(0x5243544d, 4) == Codec.MAGIC
  {
    ReadMore([], 0x52);
    ReadMore([0x52], 0x43);
    ReadMore([0x52, 0x43], 0x54);
    ReadMore([0x52, 0x43, 0x54], 0x4d);
    assert [] + [0x52] == [0x52] && [0x52] + [0x43] == [0x52, 0x43];
    assert [0x52, 0x43] + [0x54] == [0x52, 0x43, 0x54] && [0x52, 0x43, 0x54] + [0x4d] == Codec.MAGIC;
    Codec.BigEndianWritten(Codec.MAGIC);
  }

  lemma ReadMore(s: seq<Byte>, b: Byte)
    ensures Codec.FromBigEndian(s + [b]) == Codec.FromBigEndian(s) * 256 + b
  {
    assert (s + [b])[..|s|] == s;
  }

  lemma OneAgrees(d: seq<Byte>)
    ensures Codec.ParseOne(d).Ok? <==> FrameAt(d).Ok?
    ensures FrameAt(d).Ok? ==> var f := Codec.ParseOne(d).value;
            |f.session| == 16 && FrameAt(d).value == (Shown(f), f.Size())
  {
    if |d| >= F.HEADER_LEN {
      var h := d[..F.HEADER_LEN];
      Numbers(d[0..4]);
      Numbers(d[6..8]);
      assert h[..4] == d[0..4];
    }
  }

  lemma {:induction false} AllAgree(d: seq<Byte>)
    ensures Same(Codec.Parse(d), FramesFrom(d))
  {
    if d != [] {
      OneAgrees(d);
      if FrameAt(d).Ok? {
        AllAgree(d[FrameAt(d).value.1..]);
      }
    }
  }

  /** On every non-empty message the two decoders agree: both reject it, or both give the same frames. */
  lemma DecodersAgree(d: seq<Byte>)
    requires d != []
    ensures Same(Codec.Decode(d), Decode(d))
  {
    AllAgree(d);
  }

  /** What the agent encodes the browser decodes to the same frames. */
  lemma BrowserReadsAgent(fs: seq<F.Frame>)
    requires Codec.AllEncodable(fs) && fs != [] && |Codec.WireAll(fs)| <= F.MAX_MESSAGE
    ensures Same(Codec.Ok(fs), Decode(Codec.WireAll(fs)))
  {
    Codec.DecodeExactly(Codec.WireAll(fs), fs);
    Codec.WireSize(fs[0]);
    DecodersAgree(Codec.WireAll(fs));
  }

  /** One frame, as the agent sends it: always within the browser's limit. */
  lemma BrowserReadsFrame(f: F.Frame)
    requires Codec.Encodable(f)
    ensures Decode(Codec.Wire(f)) == Ok([Shown(f)])
  {
    WireOne(f);
    Codec.WireSize(f);
    BrowserReadsAgent([f]);
    var read := Decode(Codec.Wire(f)).value;
    assert [f][0] == f && read[0] == Shown(f) && read == [read[0]];
  }

  lemma WireOne(f: F.Frame)
    ensures Codec.WireAll([f]) == Codec.Wire(f)
  {
    assert [f][1..] == [];
    assert Codec.Wire(f) + [] == Codec.Wire(f);
  }

  /** The empty message is the one difference: no frames for the agent, an error in the browser. */
  lemma EmptyMessageDiffers()
    ensures Codec.Decode([]) == Codec.Ok([]) && Decode([]) == Err(FrameTooLarge)
  {
  }

  // ---- Encoding ----

  method EncodeFrame(frame: TerminalFrame) returns (r: Result<seq<Byte>>)
    ensures r == Encoded(frame)
  {
    if |frame.payload| > F.MAX_PAYLOAD || frame.kind < 1 || frame.kind > 6
       || frame.generation < 0 || frame.generation > 0xffff_ffff
       || frame.sequence < 0 || frame.sequence > 0xffff_ffff_ffff_ffff {
      return Err(InvalidFrame);
    }
    var id := UuidBytes(frame.sessionId);
    if id.Err? {
      return Err(InvalidUuid);
    }
    var bytes := Codec.BigEndian(0x5243544d, 4) + [1, frame.kind, 0, 0];
    bytes := bytes + id.value;
    bytes := bytes + Codec.BigEndian(frame.generation, 4) + Codec.BigEndian(frame.sequence, 8);
    bytes := bytes + Codec.BigEndian(|frame.payload|, 4);
    MagicNumber();
    r := Ok(bytes + frame.payload);
  }

  function Encoded(f: TerminalFrame): Result<seq<Byte>> {
    if |f.payload| > F.MAX_PAYLOAD || f.kind < 1 || f.kind > 6
       || f.generation < 0 || f.generation > 0xffff_ffff
       || f.sequence < 0 || f.sequence > 0xffff_ffff_ffff_ffff then Err(InvalidFrame)
    else match UuidBytes(f.sessionId)
      case Err(_) => Err(InvalidUuid)
      case Ok(id) => Ok(Codec.Header(f.kind, id, f.generation, f.sequence, |f.payload|) + f.payload)
  }

  /** Of the frames the agent's types can hold, the browser refuses exactly those the agent refuses. */
  lemma SameRejected(f: F.Frame)
    requires Codec.Typed(f)
    ensures Encoded(Shown(f)).Ok? <==> Codec.Encodable(f)
  {
    UuidRoundTrip(f.session);
  }

  /** The browser writes a frame exactly as the agent does, so the agent reads it back. */
  lemma EncodersAgree(f: F.Frame)
    requires Codec.Encodable(f)
    ensures Encoded(Shown(f)) == Ok(Codec.Wire(f))
    ensures Codec.Decode(Encoded(Shown(f)).value) == Codec.Ok([f])
  {
    UuidRoundTrip(f.session);
    Codec.WireSize(f);
    WireOne(f);
    Codec.DecodeExactly(Codec.Wire(f), [f]);
  }
}
