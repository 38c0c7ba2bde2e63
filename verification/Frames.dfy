/** crates/rc-core/src/frame.rs: the frame of the terminal stream, as a value. */
module Frames {
  import opened Bytes

  const HEADER_LEN := 40
  const MAX_PAYLOAD := 32 * 1024
  const MAX_MESSAGE := 256 * 1024

  const OUTPUT := 1
  const RESIZE := 2
  const SNAPSHOT_META := 3
  const SNAPSHOT_CHUNK := 4
  const SNAPSHOT_END := 5
  const EXIT := 6

  /** A frame; the session id is its sixteen bytes. */
  datatype Frame = Frame(kind: Byte, session: seq<Byte>, generation: nat, sequence: nat, payload: seq<Byte>)
  {
    /** The bytes the frame takes in a ring, in flight and on the wire. */
    function Size(): nat { |payload| + HEADER_LEN }
  }

  /** The total size of a list of frames. */
  function TotalSize(fs: seq<Frame>): nat {
    if fs == [] then 0 else fs[0].Size() + TotalSize(fs[1..])
  }

  lemma {:induction false} TotalSizeAppend(a: seq<Frame>, b: seq<Frame>)
    ensures TotalSize(a + b) == TotalSize(a) + TotalSize(b)
  {
    if a == [] {
      assert a + b == b;
    } else {
      assert (a + b)[1..] == a[1..] + b;
      TotalSizeAppend(a[1..], b);
    }
  }

  lemma TotalSizeOne(f: Frame)
    ensures TotalSize([f]) == f.Size()
  {
    assert [f][1..] == [];
  }

  /** Frame i of a log carries the sequence number i + 1. */
  predicate Numbered(log: seq<Frame>) { forall i :: 0 <= i < |log| ==> log[i].sequence == i + 1 }
}
