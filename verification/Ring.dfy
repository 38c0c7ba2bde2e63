/** crates/rc-core/src/ring.rs: the bounded replay ring. */
module Ring {
  import opened Bytes
  import opened Frames

  const MAX_EVENTS := 4096

  datatype Replay = Events(events: seq<Frame>) | ResyncRequired

  predicate Fits(events: seq<Frame>, limit: nat) {
    TotalSize(events) <= limit && |events| <= MAX_EVENTS
  }

  /** Drops the oldest events until the rest fits. */
  function Trim(events: seq<Frame>, limit: nat): (r: seq<Frame>) {
    if Fits(events, limit) then events
    else if events == [] then [] else Trim(events[1..], limit)
  }

  /** The ring's contents after the pushes of `log`, one by one. */
  function Contents(log: seq<Frame>, limit: nat): seq<Frame> {
    if log == [] then [] else Trim(Contents(log[..|log| - 1], limit) + [log[|log| - 1]], limit)
  }

  /** What `after(since)` answers from these contents. */
  function Answer(events: seq<Frame>, since: nat): Replay {
    if events != [] && since + 1 < events[0].sequence then ResyncRequired
    else Events(NewerThan(events, since))
  }

  function NewerThan(events: seq<Frame>, since: nat): seq<Frame> {
    if events == [] then []
    else NewerThan(events[..|events| - 1], since) +
         if events[|events| - 1].sequence > since then [events[|events| - 1]] else []
  }

  class EventRing {
    const limit: nat
    var bytes: nat
    var events: seq<Frame>

    ghost predicate Valid()
      reads this
    {
      bytes == TotalSize(events) && Fits(events, limit)
    }

    constructor (limit: nat)
      ensures Valid() && events == [] && this.limit == limit
    {
      this.limit, bytes, events := limit, 0, [];
    }

    method Push(event: Frame)
      requires Valid()
      modifies this
      ensures Valid() && events == Trim(old(events) + [event], limit)
    {
      bytes := bytes + event.Size();
      events := events + [event];
      TotalSizeAppend(old(events), [event]);
      TotalSizeOne(event);
      while bytes > limit || |events| > MAX_EVENTS
        invariant bytes == TotalSize(events)
        invariant Trim(events, limit) == Trim(old(events) + [event], limit)
        decreases |events|
      {
        if events != [] {
          bytes := bytes - events[0].Size();
          events := events[1..];
        } else {
          break;
        }
      }
    }

    method After(since: nat) returns (r: Replay)
      requires Valid()
      ensures r == Answer(events, since)
    {
      if events != [] && since + 1 < events[0].sequence {
        return ResyncRequired;
      }
      var newer: seq<Frame> := [];
      for i := 0 to |events|
        invariant newer == NewerThan(events[..i], since)
      {
        assert events[..i + 1][..i] == events[..i];
        if events[i].sequence > since {
          newer := newer + [events[i]];
        }
      }
      assert events[..|events|] == events;
      r := Events(newer);
    }
  }

  // ---- The ring is the longest suffix that fits ----

  lemma {:induction false} TrimIsLongest(events: seq<Frame>, limit: nat) returns (k: nat)
    ensures k <= |events| && Trim(events, limit) == events[k..] && Fits(events[k..], limit)
    ensures forall j :: 0 <= j < k ==> !Fits(events[j..], limit)
  {
    if Fits(events, limit) {
      k := 0;
      assert events[0..] == events;
    } else if events == [] {
      k := 0;
    } else {
      var n := TrimIsLongest(events[1..], limit);
      k := n + 1;
      assert events[1..][n..] == events[k..];
      forall j | 0 <= j < k ensures !Fits(events[j..], limit) {
        if j == 0 {
          assert events[0..] == events;
        } else {
          assert events[1..][j - 1..] == events[j..];
        }
      }
    }
  }

  /** A suffix that does not fit cannot fit again after one more event. */
  lemma OverflowStays(log: seq<Frame>, j: nat, e: Frame, limit: nat)
    requires j <= |log| && !Fits(log[j..], limit)
    ensures !Fits((log + [e])[j..], limit)
  {
    assert (log + [e])[j..] == log[j..] + [e];
    TotalSizeAppend(log[j..], [e]);
  }

  /** After any pushes the ring holds exactly the longest suffix of the log within both limits. */
  lemma {:induction false} LongestSuffix(log: seq<Frame>, limit: nat) returns (k: nat)
    ensures k <= |log| && Contents(log, limit) == log[k..] && Fits(log[k..], limit)
    ensures forall j :: 0 <= j < k ==> !Fits(log[j..], limit)
  {
    if log == [] {
      k := 0;
    } else {
      var front, e := log[..|log| - 1], log[|log| - 1];
      var n := LongestSuffix(front, limit);
      assert log == front + [e];
      var kept := front[n..] + [e];
      assert kept == log[n..];
      var m := TrimIsLongest(kept, limit);
      k := n + m;
      assert kept[m..] == log[k..];
      forall j | 0 <= j < k ensures !Fits(log[j..], limit) {
        if j < n {
          OverflowStays(front, j, e, limit);
        } else {
          assert kept[j - n..] == log[j..];
        }
      }
    }
  }

  // ---- What `after` returns ----

  lemma NewerThanOneMore(s: seq<Frame>, e: Frame, since: nat)
    ensures NewerThan(s + [e], since) == NewerThan(s, since) + if e.sequence > since then [e] else []
  {
    assert (s + [e])[..|s|] == s;
  }

  lemma SliceOneMore(log: seq<Frame>, k: nat, n: nat)
    requires k < n <= |log|
    ensures log[k..n] == log[k..n - 1] + [log[n - 1]]
  {
  }

  lemma {:induction false} NewerThanNumbered(log: seq<Frame>, k: nat, n: nat, since: nat)
    requires Numbered(log) && k <= n <= |log|
    ensures since < k ==> NewerThan(log[k..n], since) == log[k..n]
    ensures k <= since <= n ==> NewerThan(log[k..n], since) == log[since..n]
    ensures n <= since ==> NewerThan(log[k..n], since) == []
    decreases n - k
  {
    if k < n {
      NewerThanNumbered(log, k, n - 1, since);
      SliceOneMore(log, k, n);
      NewerThanOneMore(log[k..n - 1], log[n - 1], since);
      if since < n {
        SliceOneMore(log, since, n);
      }
    }
  }

  /** Whether the ring has nothing at all to show although events were logged: the last one alone was too big. */
  predicate LostAll(log: seq<Frame>, limit: nat) { log != [] && Contents(log, limit) == [] }

  lemma LostAllExactly(log: seq<Frame>, limit: nat)
    ensures LostAll(log, limit) <==> log != [] && log[|log| - 1].Size() > limit
  {
    var k := LongestSuffix(log, limit);
    if log != [] {
      var n := |log| - 1;
      assert log[n..] == [log[n]];
      TotalSizeOne(log[n]);
      assert k <= n || !Fits(log[n..], limit);
      if k <= n {
        assert log[k..] == log[k..n] + log[n..];
        TotalSizeAppend(log[k..n], log[n..]);
      }
    }
  }

  lemma AnswerOverSuffix(log: seq<Frame>, k: nat, since: nat)
    requires Numbered(log) && k <= |log| && since <= |log|
    ensures k == |log| ==> Answer(log[k..], since) == Events([])
    ensures k < |log| && k <= since ==> Answer(log[k..], since) == Events(log[since..])
    ensures since < k < |log| ==> Answer(log[k..], since) == ResyncRequired
  {
    var kept := log[k..];
    assert log[k..|log|] == kept && log[since..|log|] == log[since..];
    if k < |log| {
      assert kept[0] == log[k];
      if k <= since {
        NewerThanNumbered(log, k, |log|, since);
      }
    }
  }

  /** `after(since)` tells the truth exactly when the last event fits or nothing is missing; then it returns every
      later event, in order, if none of them was evicted, and asks for a resync otherwise. When the last event
      alone exceeds the limit it answers "nothing new" instead. */
  lemma AfterExactly(log: seq<Frame>, limit: nat, since: nat) returns (k: nat)
    requires Numbered(log) && since <= |log|
    ensures k <= |log| && Contents(log, limit) == log[k..]
    ensures !LostAll(log, limit) && k <= since ==> Answer(Contents(log, limit), since) == Events(log[since..])
    ensures !LostAll(log, limit) && since < k ==> Answer(Contents(log, limit), since) == ResyncRequired
    ensures LostAll(log, limit) ==> Answer(Contents(log, limit), since) == Events([])
    ensures Answer(Contents(log, limit), since) == Events(log[since..]) <==>
            k <= since || (LostAll(log, limit) && since == |log|)
  {
    k := LongestSuffix(log, limit);
    AnswerOverSuffix(log, k, since);
    if since < k {
      assert log[since..] != [];
    }
  }

  /** In every case a successful answer is a run of consecutive events starting right after `since`. */
  lemma AfterIsConsecutive(log: seq<Frame>, limit: nat, since: nat)
    requires Numbered(log) && since <= |log|
    ensures var r := Answer(Contents(log, limit), since);
            r.Events? ==> r.events == [] || r.events == log[since..]
  {
    var k := AfterExactly(log, limit, since);
  }

  /** A full frame takes 32808 bytes, and the smallest ring the configuration allows has 32768. */
  lemma SmallestRingLosesFullFrames(f: Frame)
    requires f.sequence == 1 && |f.payload| == MAX_PAYLOAD
    ensures Numbered([f]) && LostAll([f], 32768) && Answer(Contents([f], 32768), 0) == Events([])
  {
    LostAllExactly([f], 32768);
    var k := AfterExactly([f], 32768, 0);
  }
}
