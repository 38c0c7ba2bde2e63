/** crates/rc-core/src/frame.rs: the wire format of frames, and its two directions. */
module Codec {
  import opened Bytes
  import opened Frames

  datatype Error = FrameTooLarge | InvalidRequest
  datatype Result<T> = Ok(value: T) | Err(error: Error)

  const MAGIC: seq<Byte> := [0x52, 0x43, 0x54, 0x4d]

  // ---- Big-endian integers ----

  function Pow256(w: nat): (p: nat)
    ensures p >= 1
  {
    if w == 0 then 1 else 256 * Pow256(w - 1)
  }

  function BigEndian(n: nat, w: nat): (s: seq<Byte>)
    ensures |s| == w
  {
    if w == 0 then [] else BigEndian(n / 256, w - 1) + [n % 256]
  }

  function FromBigEndian(s: seq<Byte>): nat {
    if s == [] then 0 else FromBigEndian(s[..|s| - 1]) * 256 + s[|s| - 1]
  }

  lemma {:induction false} BigEndianRead(n: nat, w: nat)
    requires n < Pow256(w)
    ensures FromBigEndian(BigEndian(n, w)) == n
  {
    if w > 0 {
      BigEndianRead(n / 256, w - 1);
      var s := BigEndian(n, w);
      assert s[..|s| - 1] == BigEndian(n / 256, w - 1);
    }
  }

  lemma {:induction false} BigEndianWritten(s: seq<Byte>)
    ensures FromBigEndian(s) < Pow256(|s|) && BigEndian(FromBigEndian(s), |s|) == s
  {
    if s != [] {
      BigEndianWritten(s[..|s| - 1]);
    }
  }

  lemma Widths()
    ensures Pow256(2) == 0x1_0000 && Pow256(4) == 0x1_0000_0000 && Pow256(8) == 0x1_0000_0000_0000_0000
  {
    assert Pow256(1) == 256;
    assert Pow256(3) == 0x100_0000;
    assert Pow256(5) == 0x100_0000_0000;
    assert Pow256(6) == 0x1_0000_0000_0000;
    assert Pow256(7) == 0x100_0000_0000_0000;
  }

  // ---- One frame ----

  /** The widths of the Rust fields. */
  predicate Typed(f: Frame) {
    |f.session| == 16 && f.generation < 0x1_0000_0000 && f.sequence < 0x1_0000_0000_0000_0000
  }

  /** The frames `encode` accepts. */
  predicate Encodable(f: Frame) { Typed(f) && |f.payload| <= MAX_PAYLOAD && 1 <= f.kind <= 6 }

  function Header(kind: Byte, session: seq<Byte>, generation: nat, sequence: nat, size: nat): seq<Byte> {
    MAGIC + [1, kind, 0, 0] + session + BigEndian(generation, 4) + BigEndian(sequence, 8) + BigEndian(size, 4)
  }

  function Wire(f: Frame): (s: seq<Byte>) {
    Header(f.kind, f.session, f.generation, f.sequence, |f.payload|) + f.payload
  }

  function WireAll(fs: seq<Frame>): seq<Byte> {
    if fs == [] then [] else Wire(fs[0]) + WireAll(fs[1..])
  }

  method Encode(f: Frame) returns (r: Result<seq<Byte>>)
    requires Typed(f)
    ensures r == if Encodable(f) then Ok(Wire(f)) else Err(FrameTooLarge)
  {
    if |f.payload| > MAX_PAYLOAD || !(1 <= f.kind <= 6) {
      return Err(FrameTooLarge);
    }
    var out := MAGIC;
    out := out + [1];
    out := out + [f.kind];
    out := out + [0, 0];
    out := out + f.session;
    out := out + BigEndian(f.generation, 4);
    out := out + BigEndian(f.sequence, 8);
    out := out + BigEndian(|f.payload|, 4);
    out := out + f.payload;
    assert MAGIC + [1] + [f.kind] + [0, 0] == MAGIC + [1, f.kind, 0, 0];
    r := Ok(out);
  }

  predicate HeaderValid(h: seq<Byte>)
    requires |h| == HEADER_LEN
  {
    h[..4] == MAGIC && h[4] == 1 && 1 <= h[5] <= 6 && h[6] == 0 && h[7] == 0
  }

  /** The frame at the front of `d`. */
  function ParseOne(d: seq<Byte>): (r: Result<Frame>)
    ensures r.Ok? ==> r.value.Size() <= |d|
  {
    if |d| < HEADER_LEN then Err(InvalidRequest)
    else if !HeaderValid(d[..HEADER_LEN]) then Err(InvalidRequest)
    else
      var size := FromBigEndian(d[36..40]);
      if size > MAX_PAYLOAD then Err(FrameTooLarge)
      else if HEADER_LEN + size > |d| then Err(InvalidRequest)
      else Ok(Frame(d[5], d[8..24], FromBigEndian(d[24..28]), FromBigEndian(d[28..36]), d[HEADER_LEN..HEADER_LEN + size]))
  }

  function Parse(d: seq<Byte>): Result<seq<Frame>> {
    if d == [] then Ok([]) else
    match ParseOne(d)
    case Err(e) => Err(e)
    case Ok(f) =>
      match Parse(d[f.Size()..])
      case Err(e) => Err(e)
      case Ok(fs) => Ok([f] + fs)
  }

  /** `decode_all`. */
  function Decode(d: seq<Byte>): Result<seq<Frame>> {
    if |d| > MAX_MESSAGE then Err(FrameTooLarge) else Parse(d)
  }

  /** The frames decoded so far, followed by whatever the rest decodes to. */
  function Prepend(fs: seq<Frame>, r: Result<seq<Frame>>): Result<seq<Frame>> {
    match r case Ok(more) => Ok(fs + more) case Err(e) => Err(e)
  }

  method DecodeAll(data: seq<Byte>) returns (r: Result<seq<Frame>>)
    ensures r == Decode(data)
  {
    if |data| > MAX_MESSAGE {
      return Err(FrameTooLarge);
    }
    var pos := 0;
    var result: seq<Frame> := [];
    assert data[0..] == data;
    assert Prepend([], Parse(data)) == Parse(data) by {
      if Parse(data).Ok? {
        assert [] + Parse(data).value == Parse(data).value;
      }
    }
    while pos < |data|
      invariant 0 <= pos <= |data|
      invariant Parse(data) == Prepend(result, Parse(data[pos..]))
      decreases |data| - pos
    {
      ghost var rest := data[pos..];
      if |data| - pos < HEADER_LEN {
        return Err(InvalidRequest);
      }
      var h := data[pos..pos + HEADER_LEN];
      assert h == rest[..HEADER_LEN];
      if h[..4] != MAGIC || h[4] != 1 || !(1 <= h[5] <= 6) || h[6] != 0 || h[7] != 0 {
        return Err(InvalidRequest);
      }
      var size := FromBigEndian(h[36..40]);
      assert h[36..40] == rest[36..40];
      if size > MAX_PAYLOAD {
        return Err(FrameTooLarge);
      }
      var end := pos + (HEADER_LEN + size);
      if end > |data| {
        return Err(InvalidRequest);
      }
      var f := Frame(h[5], h[8..24], FromBigEndian(h[24..28]), FromBigEndian(h[28..36]), data[pos + HEADER_LEN..end]);
      assert f == ParseOne(rest).value by {
        assert h[8..24] == rest[8..24] && h[24..28] == rest[24..28] && h[28..36] == rest[28..36];
        assert data[pos + HEADER_LEN..end] == rest[HEADER_LEN..HEADER_LEN + size];
      }
      PrependOne(result, f, rest);
      assert data[end..] == rest[f.Size()..];
      result := result + [f];
      pos := end;
    }
    assert data[pos..] == [];
    r := Ok(result);
    assert result + [] == result;
  }

  lemma PrependOne(fs: seq<Frame>, f: Frame, d: seq<Byte>)
    requires d != [] && ParseOne(d) == Ok(f)
    ensures Prepend(fs, Parse(d)) == Prepend(fs + [f], Parse(d[f.Size()..]))
  {
    var r := Parse(d[f.Size()..]);
    if r.Ok? {
      assert fs + ([f] + r.value) == (fs + [f]) + r.value;
    }
  }

  // ---- Round trips ----

  lemma HeaderLayout(kind: Byte, session: seq<Byte>, generation: nat, sequence: nat, size: nat)
    requires |session| == 16
    ensures var h := Header(kind, session, generation, sequence, size);
            && |h| == HEADER_LEN
            && h[..4] == MAGIC && h[4] == 1 && h[5] == kind && h[6] == 0 && h[7] == 0
            && h[8..24] == session && h[24..28] == BigEndian(generation, 4)
            && h[28..36] == BigEndian(sequence, 8) && h[36..40] == BigEndian(size, 4)
  {
  }

  lemma SliceOfFront(h: seq<Byte>, t: seq<Byte>, i: nat, j: nat)
    requires i <= j <= |h|
    ensures (h + t)[i..j] == h[i..j]
  {
  }

  /** Parsing what `encode` wrote, with anything behind it. */
  lemma ParseOneOfWire(f: Frame, rest: seq<Byte>)
    requires Encodable(f)
    ensures ParseOne(Wire(f) + rest) == Ok(f)
  {
    var h := Header(f.kind, f.session, f.generation, f.sequence, |f.payload|);
    HeaderLayout(f.kind, f.session, f.generation, f.sequence, |f.payload|);
    var t := f.payload + rest;
    assert Wire(f) + rest == h + t;
    Widths();
    BigEndianRead(f.generation, 4);
    BigEndianRead(f.sequence, 8);
    BigEndianRead(|f.payload|, 4);
    SliceOfFront(h, t, 0, HEADER_LEN);
    SliceOfFront(h, t, 8, 24);
    SliceOfFront(h, t, 24, 28);
    SliceOfFront(h, t, 28, 36);
    SliceOfFront(h, t, 36, 40);
    assert (h + t)[..HEADER_LEN] == h;
    assert (h + t)[HEADER_LEN..HEADER_LEN + |f.payload|] == f.payload;
  }

  /** A frame is parsed only from the bytes that encode it. */
  lemma WireOfParseOne(d: seq<Byte>)
    requires ParseOne(d).Ok?
    ensures var f := ParseOne(d).value; Encodable(f) && f.Size() <= |d| && d[..f.Size()] == Wire(f)
  {
    var f := ParseOne(d).value;
    Widths();
    BigEndianWritten(d[24..28]);
    BigEndianWritten(d[28..36]);
    BigEndianWritten(d[36..40]);
    HeaderLayout(f.kind, f.session, f.generation, f.sequence, |f.payload|);
    var h := Header(f.kind, f.session, f.generation, f.sequence, |f.payload|);
    HeaderFromParts(d[..HEADER_LEN], h);
    assert d[..f.Size()] == d[..HEADER_LEN] + f.payload;
  }

  lemma HeaderFromParts(a: seq<Byte>, b: seq<Byte>)
    requires |a| == |b| == HEADER_LEN
    requires a[..4] == b[..4] && a[4] == b[4] && a[5] == b[5] && a[6] == b[6] && a[7] == b[7]
    requires a[8..24] == b[8..24] && a[24..28] == b[24..28] && a[28..36] == b[28..36] && a[36..40] == b[36..40]
    ensures a == b
  {
    assert a == a[..4] + [a[4], a[5], a[6], a[7]] + a[8..24] + a[24..28] + a[28..36] + a[36..40];
    assert b == b[..4] + [b[4], b[5], b[6], b[7]] + b[8..24] + b[24..28] + b[28..36] + b[36..40];
  }

  ghost predicate AllEncodable(fs: seq<Frame>) { forall f | f in fs :: Encodable(f) }

  lemma FirstSound(d: seq<Byte>, f: Frame, more: seq<Frame>)
    requires ParseOne(d) == Ok(f) && AllEncodable(more) && d[f.Size()..] == WireAll(more)
    ensures AllEncodable([f] + more) && d == WireAll([f] + more)
  {
    WireOfParseOne(d);
    assert ([f] + more)[1..] == more;
    assert d == d[..f.Size()] + d[f.Size()..];
  }

  lemma {:induction false} ParseSound(d: seq<Byte>, fs: seq<Frame>)
    requires Parse(d) == Ok(fs)
    ensures AllEncodable(fs) && d == WireAll(fs)
  {
    if d != [] {
      var f := ParseOne(d).value;
      var more := Parse(d[f.Size()..]).value;
      ParseSound(d[f.Size()..], more);
      FirstSound(d, f, more);
    }
  }

  lemma WireSize(f: Frame)
    requires Encodable(f)
    ensures |Wire(f)| == f.Size()
  {
    HeaderLayout(f.kind, f.session, f.generation, f.sequence, |f.payload|);
  }

  lemma {:induction false} ParseComplete(fs: seq<Frame>)
    requires AllEncodable(fs)
    ensures Parse(WireAll(fs)) == Ok(fs)
  {
    if fs != [] {
      var f, rest := fs[0], WireAll(fs[1..]);
      ParseOneOfWire(f, rest);
      WireSize(f);
      assert (Wire(f) + rest)[f.Size()..] == rest;
      ParseComplete(fs[1..]);
      assert fs == [f] + fs[1..];
    }
  }

  /** Decoding succeeds with exactly the frames whose encodings, concatenated, are the message. So decoding undoes
      encoding, and encoding whatever was accepted gives the message back. */
  lemma DecodeExactly(d: seq<Byte>, fs: seq<Frame>)
    ensures Decode(d) == Ok(fs) <==> |d| <= MAX_MESSAGE && AllEncodable(fs) && d == WireAll(fs)
  {
    if Parse(d).Ok? {
      ParseSound(d, Parse(d).value);
    }
    if AllEncodable(fs) {
      ParseComplete(fs);
    }
  }
}
