/** crates/rc-core/src/vt_fence.rs: the fence that releases only whole UTF-8 scalars and whole escape sequences. */
module Fence {
  import opened Bytes
  import opened Utf8

  const LIMIT := 16 * 1024
  const CSI_LIMIT := 1024
  const REPLACEMENT: seq<Byte> := [0xef, 0xbf, 0xbd]
  const OSC_52: seq<Byte> := [0x1b, 0x5d, 0x35, 0x32, 0x3b]
  const OSC_8: seq<Byte> := [0x1b, 0x5d, 0x38, 0x3b]

  datatype Mode = Ground | Esc | Csi | Osc | OscEsc | Str | StrEsc

  /** The fields of the fence. */
  datatype State = State(mode: Mode, pending: seq<Byte>, utf8: seq<Byte>, discard: bool, omitted: nat)
  {
    function PendingLen(): nat { |pending| + |utf8| }
  }

  /** The fence at rest, after `omitted` sequences were withheld. */
  function Rest(omitted: nat): State { State(Ground, [], [], false, omitted) }

  const FRESH := Rest(0)

  /** What one byte does: it extends the text run, may end the run, and may release one sequence. */
  datatype Effect = Effect(next: State, text: seq<Byte>, flush: bool, token: seq<Byte>)

  predicate Forbidden(t: seq<Byte>) { OSC_52 <= t || OSC_8 <= t }

  function Push(f: State, b: Byte): State {
    if |f.pending| < LIMIT then f.(pending := f.pending + [b]) else f.(discard := true)
  }

  function Complete(f: State): Effect {
    if f.discard || Forbidden(f.pending)
    then Effect(Rest(f.omitted + 1).(utf8 := f.utf8), [], false, [])
    else Effect(Rest(f.omitted).(utf8 := f.utf8), [], false, f.pending)
  }

  function Begin(f: State, text: seq<Byte>): Effect {
    Effect(f.(mode := Esc, pending := f.pending + [ESC], utf8 := []), text, true, [])
  }

  function GroundDelta(f: State, b: Byte): Effect {
    if f.utf8 != [] then
      match FromUtf8(f.utf8 + [b])
      case Ok => Effect(f.(utf8 := []), f.utf8 + [b], false, [])
      case Truncated => Effect(f.(utf8 := f.utf8 + [b]), [], false, [])
      case Malformed =>
        if b == ESC then Begin(f, REPLACEMENT)
        else if b < 0x80 then Effect(f.(utf8 := []), REPLACEMENT + [b], false, [])
        else Effect(f.(utf8 := []), REPLACEMENT, false, [])
    else if b == ESC then Begin(f, [])
    else if b >= 0xc2 then Effect(f.(utf8 := [b]), [], false, [])
    else if b >= 0x80 then Effect(f, REPLACEMENT, false, [])
    else Effect(f, [b], false, [])
  }

  function Stay(f: State): Effect { Effect(f, [], false, []) }

  function Delta(f: State, b: Byte): Effect {
    if f.mode == Ground then GroundDelta(f, b) else
    var g := Push(f, b);
    match f.mode
    case Esc =>
      if b == 0x5b then Stay(g.(mode := Csi))
      else if b == 0x5d then Stay(g.(mode := Osc))
      else if b in {0x50, 0x5f, 0x5e, 0x58} then Stay(g.(mode := Str, discard := true))
      else if 0x20 <= b <= 0x2f then Stay(g)
      else Complete(g)
    case Csi =>
      if 0x40 <= b <= 0x7e then Complete(g)
      else if b == 0x18 || b == 0x1a then Complete(g.(discard := true))
      else if |g.pending| > CSI_LIMIT then Stay(g.(discard := true))
      else Stay(g)
    case Osc =>
      if b == 7 then Complete(g) else if b == ESC then Stay(g.(mode := OscEsc)) else Stay(g)
    case OscEsc => if b == 0x5c then Complete(g) else Stay(g.(mode := Osc))
    case Str => if b == ESC then Stay(g.(mode := StrEsc)) else Stay(g)
    case _ => if b == 0x5c then Complete(g) else Stay(g.(mode := Str))
  }

  /** The fence together with the locals of `push_bytes`. */
  datatype Work = Work(fence: State, text: seq<Byte>, out: seq<seq<Byte>>)

  function PutNonEmpty(out: seq<seq<Byte>>, t: seq<Byte>): seq<seq<Byte>> {
    if t == [] then out else out + [t]
  }

  function AdvanceWith(w: Work, e: Effect): Work {
    var text := w.text + e.text;
    if e.flush then Work(e.next, [], PutNonEmpty(PutNonEmpty(w.out, text), e.token))
    else Work(e.next, text, PutNonEmpty(w.out, e.token))
  }

  function Advance(w: Work, b: Byte): Work { AdvanceWith(w, Delta(w.fence, b)) }

  /** The result of `push_bytes`: the new fence and the released tokens. */
  function Release(f: State, bytes: seq<Byte>): (State, seq<seq<Byte>>) {
    var w := Fold(Advance, Work(f, [], []), bytes);
    (w.fence, PutNonEmpty(w.out, w.text))
  }

  /** One `push_bytes` call for each chunk, in order. */
  function ReleaseChunks(f: State, chunks: seq<seq<Byte>>): (State, seq<seq<Byte>>) {
    if chunks == [] then (f, []) else
    var (g, out) := ReleaseChunks(f, chunks[..|chunks| - 1]);
    var (h, more) := Release(g, chunks[|chunks| - 1]);
    (h, out + more)
  }

  class VtFence {
    var mode: Mode
    var pending: seq<Byte>
    var utf8: seq<Byte>
    var discard: bool
    var omitted: nat

    function Value(): State
      reads this
    {
      State(mode, pending, utf8, discard, omitted)
    }

    constructor ()
      ensures Value() == FRESH
    {
      mode, pending, utf8, discard, omitted := Ground, [], [], false, 0;
    }

    method PushByte(b: Byte)
      modifies this
      ensures Value() == Push(old(Value()), b)
    {
      if |pending| < 16 * 1024 {
        pending := pending + [b];
      } else {
        discard := true;
      }
    }

    method CompleteSequence(out: seq<seq<Byte>>) returns (out': seq<seq<Byte>>)
      modifies this
      ensures Value() == Complete(old(Value())).next
      ensures out' == PutNonEmpty(out, Complete(old(Value())).token)
    {
      out' := out;
      if discard || OSC_52 <= pending || OSC_8 <= pending {
        omitted := omitted + 1;
      } else if pending != [] {
        out' := out + [pending];
      }
      pending := [];
      mode := Ground;
      discard := false;
    }

    /** The ground-state arm of the loop. */
    method GroundByte(b: Byte, text: seq<Byte>, out: seq<seq<Byte>>)
      returns (text': seq<Byte>, out': seq<seq<Byte>>)
      requires mode == Ground
      modifies this
      ensures Work(Value(), text', out') == Advance(Work(old(Value()), text, out), b)
    {
      text', out' := text, out;
      assert text + [] == text;
      if utf8 != [] {
        utf8 := utf8 + [b];
        var verdict := FromUtf8(utf8);
        if verdict == Ok {
          text' := text' + utf8;
          utf8 := [];
        } else if verdict == Malformed {
          text' := text' + REPLACEMENT;
          utf8 := [];
          if b < 0x80 {
            if b == ESC {
              if text' != [] {
                out', text' := out' + [text'], [];
              }
              pending := pending + [b];
              mode := Esc;
            } else {
              text' := text' + [b];
            }
          }
        }
      } else if b == ESC {
        if text' != [] {
          out', text' := out' + [text'], [];
        }
        pending := pending + [b];
        mode := Esc;
      } else if b >= 0xc2 {
        utf8 := utf8 + [b];
      } else if b >= 0x80 {
        text' := text' + REPLACEMENT;
      } else {
        text' := text' + [b];
      }
    }

    /** The arms of the loop inside a sequence. */
    method SequenceByte(b: Byte, ghost text: seq<Byte>, out: seq<seq<Byte>>) returns (out': seq<seq<Byte>>)
      requires mode != Ground
      modifies this
      ensures Work(Value(), text, out') == Advance(Work(old(Value()), text, out), b)
    {
      out' := out;
      assert text + [] == text;
      PushByte(b);
      match mode {
        case Esc =>
          if b == 0x5b {
            mode := Csi;
          } else if b == 0x5d {
            mode := Osc;
          } else if b == 0x50 || b == 0x5f || b == 0x5e || b == 0x58 {
            mode := Str;
            discard := true;
          } else if 0x20 <= b <= 0x2f {
          } else {
            out' := CompleteSequence(out);
          }
        case Csi =>
          if 0x40 <= b <= 0x7e {
            out' := CompleteSequence(out);
          } else if b == 0x18 || b == 0x1a {
            discard := true;
            out' := CompleteSequence(out);
          } else if |pending| > 1024 {
            discard := true;
          }
        case Osc =>
          if b == 7 {
            out' := CompleteSequence(out);
          } else if b == ESC {
            mode := OscEsc;
          }
        case OscEsc =>
          if b == 0x5c {
            out' := CompleteSequence(out);
          } else {
            mode := Osc;
          }
        case Str =>
          if b == ESC {
            mode := StrEsc;
          }
        case StrEsc =>
          if b == 0x5c {
            out' := CompleteSequence(out);
          } else {
            mode := Str;
          }
      }
    }

    method PushBytes(bytes: seq<Byte>) returns (out: seq<seq<Byte>>)
      modifies this
      ensures (Value(), out) == Release(old(Value()), bytes)
    {
      out := [];
      var text: seq<Byte> := [];
      for i := 0 to |bytes|
        invariant Work(Value(), text, out) == Fold(Advance, Work(old(Value()), [], []), bytes[..i])
      {
        FoldNext(Advance, Work(old(Value()), [], []), bytes, i);
        if mode == Ground {
          text, out := GroundByte(bytes[i], text, out);
        } else {
          out := SequenceByte(bytes[i], text, out);
        }
      }
      assert bytes[..|bytes|] == bytes;
      if text != [] {
        out := out + [text];
      }
    }

    method PendingLen() returns (n: nat)
      ensures n == Value().PendingLen()
    {
      n := |pending| + |utf8|;
    }
  }
}
