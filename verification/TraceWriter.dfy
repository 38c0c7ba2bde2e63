/** crates/rc-agent/src/perf.rs: what the trace writer accumulates. */
module TraceWriting {
  import opened Protocol
  import opened Histogram

  /** A session identifier. */
  type Uuid = nat

  datatype Event = Event(sessionId: Uuid, elapsedUs: nat)

  const MAX_KEYS := 64
  const MAX_RAW := 49 * 1024 * 1024

  /** The sessions with a histogram of their own: the first 64 to appear. */
  function Keys(events: seq<Event>): (keys: set<Uuid>)
    ensures |keys| <= MAX_KEYS
  {
    if events == [] then {} else
    var keys := Keys(events[..|events| - 1]);
    var sid := events[|events| - 1].sessionId;
    if sid !in keys && |keys| >= MAX_KEYS then keys else keys + {sid}
  }

  function All(events: seq<Event>): (xs: seq<nat>)
    ensures |xs| == |events|
  {
    if events == [] then [] else All(events[..|events| - 1]) + [events[|events| - 1].elapsedUs]
  }

  /** The samples of one session. */
  function Of(events: seq<Event>, sid: Uuid): seq<nat> {
    if events == [] then []
    else Of(events[..|events| - 1], sid)
         + if events[|events| - 1].sessionId == sid then [events[|events| - 1].elapsedUs] else []
  }

  /** The samples of every session outside `keys`. */
  function Outside(events: seq<Event>, keys: set<Uuid>): seq<nat> {
    if events == [] then []
    else Outside(events[..|events| - 1], keys)
         + if events[|events| - 1].sessionId !in keys then [events[|events| - 1].elapsedUs] else []
  }

  /** How much of the raw trace is written: lines of JSON go out until the first that would pass the limit. */
  datatype Raw = Raw(bytes: nat, events: nat, truncated: bool)

  function RawAfter(limit: nat, lines: seq<nat>): Raw {
    if lines == [] then Raw(0, 0, false) else
    var r, line := RawAfter(limit, lines[..|lines| - 1]), lines[|lines| - 1];
    if r.truncated || r.bytes + line > limit then r.(truncated := true) else Raw(r.bytes + line, r.events + 1, false)
  }

  /** The rest of `observe`: the raw lines. */
  class RawTrace {
    const limit: nat
    var bytes: nat
    var events: nat
    var truncated: bool

    function Value(): Raw
      reads this
    {
      Raw(bytes, events, truncated)
    }

    constructor (limit: nat)
      ensures Value() == RawAfter(this.limit, []) && this.limit == Min(limit, MAX_RAW)
    {
      this.limit := Min(limit, 49 * 1024 * 1024);
      bytes, events, truncated := 0, 0, false;
    }

    method Write(line: nat, ghost lines: seq<nat>)
      requires Value() == RawAfter(limit, lines)
      modifies this
      ensures Value() == RawAfter(limit, lines + [line])
    {
      assert (lines + [line])[..|lines|] == lines;
      if truncated {
        return;
      }
      if bytes + line > limit {
        truncated := true;
        return;
      }
      bytes := bytes + line;
      events := events + 1;
    }
  }

  class TraceWriter {
    const global: Histogram
    const other: Histogram
    var sessions: map<Uuid, Histogram>

    /** The histograms. */
    ghost function Repr(): set<object>
      reads `sessions
    {
      {global, other} + set sid | sid in sessions :: sessions[sid]
    }

    /** No histogram serves twice. */
    ghost predicate Separate()
      reads `sessions
    {
      && global != other
      && (forall sid :: sid in sessions ==> sessions[sid] != global && sessions[sid] != other)
      && (forall a, b :: a in sessions && b in sessions && a != b ==> sessions[a] != sessions[b])
    }

    /** What the histograms hold: `all` samples, those of `counted` by session, and the rest of `counted`. */
    ghost predicate Holds(all: seq<nat>, counted: seq<Event>)
      reads `sessions, Repr()
    {
      && Separate()
      && global.Valid() && global.samples == all
      && other.Valid() && other.samples == Outside(counted, Keys(counted))
      && sessions.Keys == Keys(counted)
      && (forall sid :: sid in sessions ==> sessions[sid].Valid() && sessions[sid].samples == Of(counted, sid))
    }

    /** The global histogram holds every sample of `events`, a session's its own, and `other` those of later sessions. */
    ghost predicate Summarises(events: seq<Event>)
      reads `sessions, Repr()
    {
      Holds(All(events), events)
    }

    constructor ()
      ensures Summarises([]) && fresh(Repr())
    {
      global := new Histogram();
      other := new Histogram();
      sessions := map[];
    }

    /** The histograms' part of `observe`. */
    method Observe(event: Event, ghost events: seq<Event>)
      requires Summarises(events)
      modifies `sessions, Repr()
      ensures Summarises(events + [event]) && Grown(old(sessions))
    {
      RecordGlobal(event, events);
      CountEvent(event, events);
    }

    method CountEvent(event: Event, ghost before: seq<Event>)
      requires Holds(All(before + [event]), before)
      modifies `sessions, other, set k | k in sessions :: sessions[k]
      ensures Holds(All(before + [event]), before + [event]) && Grown(old(sessions))
    {
      var needsNew := event.sessionId !in sessions && |sessions| >= MAX_KEYS;
      assert |sessions| == |sessions.Keys|;
      if needsNew {
        CountOther(event, before);
      } else {
        CountOwn(event, before);
      }
    }

    /** Histograms are kept, and only new ones are added. */
    twostate predicate Grown(was: map<Uuid, Histogram>)
      reads `sessions
    {
      forall k :: k in sessions ==>
        if k in was then sessions[k] == was[k] else fresh(sessions[k])
    }

    method RecordGlobal(event: Event, ghost events: seq<Event>)
      requires Summarises(events)
      modifies global
      ensures Holds(All(events + [event]), events)
    {
      OneMore(events, event);
      global.Record(event.elapsedUs);
    }

    method CountOwn(event: Event, ghost before: seq<Event>)
      requires Holds(All(before + [event]), before) && (event.sessionId in sessions || |Keys(before)| < MAX_KEYS)
      modifies `sessions, set k | k in sessions :: sessions[k]
      ensures Holds(All(before + [event]), before + [event]) && Grown(old(sessions))
    {
      if event.sessionId !in sessions {
        AddSession(event, before);
      } else {
        assert Keys(before) + {event.sessionId} == Keys(before);
      }
      CountSession(event, before);
    }

    method CountOther(event: Event, ghost before: seq<Event>)
      requires Holds(All(before + [event]), before)
      requires event.sessionId !in sessions && |Keys(before)| >= MAX_KEYS
      modifies other
      ensures Holds(All(before + [event]), before + [event])
    {
      OneMore(before, event);
      other.Record(event.elapsedUs);
    }

    /** `or_insert_with`: the session gets an empty histogram. */
    method AddSession(event: Event, ghost before: seq<Event>)
      requires Holds(All(before + [event]), before)
      requires event.sessionId !in sessions && |Keys(before)| < MAX_KEYS
      modifies `sessions
      ensures HoldsEntry(event.sessionId, All(before + [event]), before)
      ensures Grown(old(sessions))
    {
      NewKey(before, event.sessionId);
      var h := new Histogram();
      Enter(event.sessionId, h, All(before + [event]), before);
    }

    method Enter(sid: Uuid, h: Histogram, ghost all: seq<nat>, ghost before: seq<Event>)
      requires Holds(all, before) && sid !in sessions && h.Valid() && h.samples == []
      requires h != global && h != other && forall k :: k in sessions ==> sessions[k] != h
      requires Of(before, sid) == [] && Outside(before, Keys(before) + {sid}) == Outside(before, Keys(before))
      modifies `sessions
      ensures HoldsEntry(sid, all, before) && sessions == old(sessions)[sid := h]
    {
      sessions := sessions[sid := h];
    }

    /** The session has an entry, new or not. */
    ghost predicate HoldsEntry(sid: Uuid, all: seq<nat>, counted: seq<Event>)
      reads `sessions, Repr()
    {
      && Separate()
      && global.Valid() && global.samples == all
      && other.Valid() && other.samples == Outside(counted, Keys(counted) + {sid})
      && sessions.Keys == Keys(counted) + {sid}
      && (forall k :: k in sessions ==> sessions[k].Valid() && sessions[k].samples == Of(counted, k))
    }

    method CountSession(event: Event, ghost before: seq<Event>)
      requires HoldsEntry(event.sessionId, All(before + [event]), before)
      requires event.sessionId in Keys(before) || |Keys(before)| < MAX_KEYS
      modifies sessions[event.sessionId]
      ensures Holds(All(before + [event]), before + [event])
    {
      OneMore(before, event);
      sessions[event.sessionId].Record(event.elapsedUs);
    }
  }

  /** The raw trace is the lines up to the first that does not fit any more, and nothing after it. */
  lemma {:induction false} RawIsPrefix(limit: nat, lines: seq<nat>)
    ensures var r := RawAfter(limit, lines);
            && r.events <= |lines| && r.bytes == Sum(lines[..r.events]) <= limit
            && (r.truncated <==> r.events < |lines|)
            && (r.truncated ==> Sum(lines[..r.events + 1]) > limit)
  {
    if lines != [] {
      var front := lines[..|lines| - 1];
      RawIsPrefix(limit, front);
      var r := RawAfter(limit, front);
      assert lines[..r.events] == front[..r.events];
      assert lines[..r.events + 1][..r.events] == lines[..r.events];
      if r.truncated {
        assert lines[..r.events + 1] == front[..r.events + 1];
      } else {
        assert front[..r.events] == front && lines[..|lines|] == lines;
      }
    }
  }

  lemma OneMore(events: seq<Event>, e: Event)
    ensures var more := events + [e]; var keys := Keys(events); var sid := e.sessionId;
            && All(more) == All(events) + [e.elapsedUs]
            && Keys(more) == (if sid !in keys && |keys| >= MAX_KEYS then keys else keys + {sid})
            && (forall k :: Of(more, k) == Of(events, k) + if k == sid then [e.elapsedUs] else [])
            && (forall ks :: Outside(more, ks) == Outside(events, ks) + if sid !in ks then [e.elapsedUs] else [])
  {
    assert (events + [e])[..|events|] == events;
  }

  /** A session that gets a histogram now has no earlier sample anywhere. */
  lemma NewKey(events: seq<Event>, sid: Uuid)
    requires sid !in Keys(events) && |Keys(events)| < MAX_KEYS
    ensures Of(events, sid) == [] && Outside(events, Keys(events) + {sid}) == Outside(events, Keys(events)) == []
  {
    AllKept(events, Keys(events));
    AllKept(events, Keys(events) + {sid});
  }

  /** While there is room, every session that appeared is a key. */
  lemma {:induction false} AllKept(events: seq<Event>, keys: set<Uuid>)
    requires |Keys(events)| < MAX_KEYS && Keys(events) <= keys
    ensures Outside(events, keys) == [] && forall sid :: sid !in Keys(events) ==> Of(events, sid) == []
  {
    if events != [] {
      var front, sid := events[..|events| - 1], events[|events| - 1].sessionId;
      assert sid in Keys(front) ==> Keys(front) + {sid} == Keys(front);
      assert Keys(front) <= Keys(events);
      AllKept(front, keys);
    }
  }

  /** The sessions that appeared. */
  function Seen(events: seq<Event>): set<Uuid> { set i | 0 <= i < |events| :: events[i].sessionId }

  lemma SeenMore(events: seq<Event>, e: Event)
    ensures Seen(events + [e]) == Seen(events) + {e.sessionId}
  {
    var more := events + [e];
    assert forall i :: 0 <= i < |events| ==> more[i] == events[i];
    assert more[|events|] == e;
  }

  /** Until 64 sessions appeared they all have a histogram, and then 64 have. */
  lemma {:induction false} KeysSeen(events: seq<Event>)
    ensures Keys(events) <= Seen(events)
    ensures if |Seen(events)| <= MAX_KEYS then Keys(events) == Seen(events) else |Keys(events)| == MAX_KEYS
  {
    if events != [] {
      var front, e := events[..|events| - 1], events[|events| - 1];
      assert front + [e] == events;
      KeysSeen(front);
      SeenMore(front, e);
      if e.sessionId in Seen(front) {
        assert Seen(events) == Seen(front);
      }
      if e.sessionId in Keys(front) {
        assert Keys(front) + {e.sessionId} == Keys(front);
      }
    }
  }

  /** The session first appears at place `i`, when fewer than 64 others had. */
  predicate Early(events: seq<Event>, sid: Uuid, i: nat) {
    i < |events| && events[i].sessionId == sid && sid !in Seen(events[..i]) && |Seen(events[..i])| < MAX_KEYS
  }

  lemma EarlyMore(events: seq<Event>, e: Event, sid: Uuid, i: nat)
    ensures Early(events + [e], sid, i) <==>
            Early(events, sid, i) || (i == |events| && e.sessionId == sid && sid !in Seen(events) && |Seen(events)| < MAX_KEYS)
  {
    var more := events + [e];
    if i <= |events| {
      assert more[..i] == events[..i];
      assert events[..|events|] == events;
    }
  }

  lemma KeyMore(events: seq<Event>, e: Event, sid: Uuid)
    ensures sid in Keys(events + [e]) <==>
            sid in Keys(events) || (e.sessionId == sid && sid !in Seen(events) && |Seen(events)| < MAX_KEYS)
  {
    KeysSeen(events);
    assert (events + [e])[..|events|] == events;
  }

  /** A session has a histogram of its own exactly if it first appeared when fewer than 64 others had. */
  lemma {:induction false} KeysExactly(events: seq<Event>, sid: Uuid)
    ensures sid in Keys(events) <==> exists i :: Early(events, sid, i)
  {
    if events != [] {
      var front, e := events[..|events| - 1], events[|events| - 1];
      assert front + [e] == events;
      KeysExactly(front, sid);
      KeyMore(front, e, sid);
      if i :| Early(events, sid, i) {
        EarlyMore(front, e, sid, i);
      }
      if i :| Early(front, sid, i) {
        EarlyMore(front, e, sid, i);
      }
      EarlyMore(front, e, sid, |front|);
    }
  }

  // ---- Conservation ----

  /** The counts of the sessions in `keys`, added up. */
  ghost function Added(events: seq<Event>, keys: set<Uuid>): nat {
    if keys == {} then 0 else
    var sid :| sid in keys; |Of(events, sid)| + Added(events, keys - {sid})
  }

  lemma {:induction false} OutsideLess(events: seq<Event>, keys: set<Uuid>, sid: Uuid)
    requires sid in keys
    ensures |Outside(events, keys - {sid})| == |Outside(events, keys)| + |Of(events, sid)|
  {
    if events != [] {
      OutsideLess(events[..|events| - 1], keys, sid);
    }
  }

  lemma {:induction false} OutsideNone(events: seq<Event>)
    ensures |Outside(events, {})| == |events|
  {
    if events != [] {
      OutsideNone(events[..|events| - 1]);
    }
  }

  lemma {:induction false} AddedPlusOutside(events: seq<Event>, keys: set<Uuid>)
    ensures Added(events, keys) + |Outside(events, keys)| == |events|
    decreases |keys|
  {
    if keys == {} {
      OutsideNone(events);
    } else {
      var sid :| sid in keys && Added(events, keys) == |Of(events, sid)| + Added(events, keys - {sid});
      AddedPlusOutside(events, keys - {sid});
      OutsideLess(events, keys, sid);
    }
  }

  function Sum(xs: seq<nat>): nat { if xs == [] then 0 else Sum(xs[..|xs| - 1]) + xs[|xs| - 1] }

  /** The buckets of a histogram of `xs`, from the first. */
  function Buckets(xs: seq<nat>, n: nat): seq<nat> { seq(n, i requires 0 <= i < n => Falling(xs, i, i + 1)) }

  lemma {:induction false} BucketsSum(xs: seq<nat>, n: nat)
    ensures Sum(Buckets(xs, n)) == Falling(xs, 0, n)
  {
    if n == 0 {
      FallingAll(xs);
    } else {
      BucketsSum(xs, n - 1);
      FallingSplit(xs, n - 1);
      BucketsMore(xs, n - 1);
    }
  }

  lemma BucketsMore(xs: seq<nat>, n: nat)
    ensures Sum(Buckets(xs, n + 1)) == Sum(Buckets(xs, n)) + Falling(xs, n, n + 1)
  {
    assert Buckets(xs, n + 1)[..n] == Buckets(xs, n);
  }

  /** For any events, the global count is the sum of the session counts and `other`, and the sum of the buckets. */
  lemma CountsAgree(events: seq<Event>)
    ensures |All(events)| == Added(events, Keys(events)) + |Outside(events, Keys(events))|
    ensures |All(events)| == Sum(Buckets(All(events), COUNT))
  {
    AddedPlusOutside(events, Keys(events));
    BucketsSum(All(events), COUNT);
    FallingAll(All(events));
  }
}
