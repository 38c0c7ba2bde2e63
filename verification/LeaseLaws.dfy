/** crates/rc-core/src/lease.rs: what every lease operation does, told only by who may write, and when. */
module LeaseLaws {
  import opened Protocol
  import opened Lease

  /** This connection of this client may write under epoch `e` at instant `t`. */
  predicate Writes(l: State, c: Id, k: Id, e: nat, t: nat) { Verified(l, c, k, e, t).Ok? }

  /** Exactly this connection may write, under epoch `e`, up to the instant `until`. */
  ghost predicate OnlyWriter(l: State, c: Id, k: Id, e: nat, until: nat) {
    forall c': Id, k': Id, e': nat, t: nat :: Writes(l, c', k', e', t) <==> c' == c && k' == k && e' == e && t < until
  }

  ghost predicate NoWriter(l: State) { forall c: Id, k: Id, e: nat, t: nat :: !Writes(l, c, k, e, t) }

  /** Somebody may write now, under the current epoch, and it is another connection. */
  ghost predicate Taken(l: State, c: Id, k: Id, now: nat) {
    exists c': Id, k': Id :: Writes(l, c', k', l.epoch, now) && (c' != c || k' != k)
  }

  /** A lease is refused as busy exactly if another connection may write and it is not to be taken over, and as an
      internal error exactly if a new epoch is due and there is none; then nothing changes. Otherwise the holder keeps
      its epoch and anybody else gets the next one, is the only writer for the full time, and is shown as such. */
  lemma AcquireExactly(l: State, c: Id, k: Id, takeover: bool, now: nat)
    ensures var (m, r) := Acquired(l, c, k, takeover, now); var mine := Writes(l, c, k, l.epoch, now);
            var e := if mine then l.epoch else l.epoch + 1;
            && (r == Err(LeaseBusy) <==> Taken(l, c, k, now) && !takeover)
            && (r == Err(Internal) <==> !mine && (Taken(l, c, k, now) ==> takeover) && l.epoch >= MAX_U64)
            && (r.Err? ==> m == l && r.error in {LeaseBusy, Internal})
            && (r.Ok? ==> m.epoch == e && OnlyWriter(m, c, k, e, now + LEASE_TTL) && r.value == View(c, k, e, LEASE_TTL))
  {
    if Held(l, now) {
      var o := l.owner.value;
      assert Writes(l, o.client, o.connection, l.epoch, now);
    }
  }

  /** Whoever could write and is not the one that acquired the lease can write no more. */
  lemma TakenOver(l: State, c: Id, k: Id, takeover: bool, now: nat, c': Id, k': Id, e: nat, t: nat)
    requires Writes(l, c', k', e, t) && (c' != c || k' != k) && Acquired(l, c, k, takeover, now).1.Ok?
    ensures !Writes(Acquired(l, c, k, takeover, now).0, c', k', e, t)
  {
    AcquireExactly(l, c, k, takeover, now);
  }

  /** Whoever may write renews for the full time under the same epoch; nobody else changes anything. */
  lemma RenewExactly(l: State, c: Id, k: Id, e: nat, now: nat)
    ensures var (m, r) := Renewed(l, c, k, e, now);
            if Writes(l, c, k, e, now)
            then r == Ok(View(c, k, e, LEASE_TTL)) && m.epoch == e && OnlyWriter(m, c, k, e, now + LEASE_TTL)
            else m == l && r == Err(if l.owner.None? then LeaseRequired else LeaseStale)
  {
    VerifiedExactly(l, c, k, e, now);
  }

  /** Whoever may write gives the lease up, and then nobody may; nobody else changes anything. */
  lemma ReleaseExactly(l: State, c: Id, k: Id, e: nat, now: nat)
    ensures var (m, r) := Released(l, c, k, e, now);
            if Writes(l, c, k, e, now) then r == Ok(()) && m.epoch == e && NoWriter(m)
            else m == l && r == Err(if l.owner.None? then LeaseRequired else LeaseStale)
  {
    VerifiedExactly(l, c, k, e, now);
  }

  /** A revocation takes the lease from the connections it names, and from no other; the epoch stays. */
  lemma RevokeExactly(l: State, id: Id, c: Id, k: Id, e: nat, t: nat)
    ensures Writes(ConnectionRevoked(l, id), c, k, e, t) <==> Writes(l, c, k, e, t) && k != id
    ensures Writes(ClientRevoked(l, id), c, k, e, t) <==> Writes(l, c, k, e, t) && c != id
    ensures NoWriter(AllRevoked(l))
    ensures ConnectionRevoked(l, id).epoch == ClientRevoked(l, id).epoch == AllRevoked(l).epoch == l.epoch
  {
    VerifiedExactly(l, c, k, e, t);
  }

  /** What is shown is who may write now, and for how long yet. */
  lemma ViewExactly(l: State, c: Id, k: Id, e: nat, n: nat, now: nat)
    ensures ViewOf(l, now) == Some(View(c, k, e, n)) <==>
            n > 0 && Writes(l, c, k, e, now) && Writes(l, c, k, e, now + n - 1) && !Writes(l, c, k, e, now + n)
  {
  }

  // ---- Over whole runs ----

  /** The operation gives `c`, `k` the lease under epoch `e` for the full time. */
  ghost predicate Gains(l: State, v: Event, c: Id, k: Id, e: nat) {
    match v.op
    case DoAcquire(c', k', takeover) =>
      && c' == c && k' == k
      && if Writes(l, c, k, l.epoch, v.at) then e == l.epoch
         else e == l.epoch + 1 <= MAX_U64 && (Taken(l, c, k, v.at) ==> takeover)
    case DoRenew(c', k', e') => c' == c && k' == k && e' == e && Writes(l, c, k, e, v.at)
    case _ => false
  }

  /** The operation takes the lease from `c`, `k` under epoch `e`. */
  ghost predicate Loses(l: State, v: Event, c: Id, k: Id, e: nat) {
    match v.op
    case DoAcquire(c', k', takeover) => exists e': nat :: e' != e && Gains(l, v, c', k', e')
    case DoRenew(_, _, _) => false
    case DoRelease(c', k', e') => c' == c && k' == k && e' == e && Writes(l, c, k, e, v.at)
    case DoRevokeConnection(id) => id == k
    case DoRevokeClient(id) => id == c
    case DoRevokeAll => true
  }

  lemma StepExactly(l: State, v: Event, c: Id, k: Id, e: nat, t: nat)
    ensures Writes(Apply(l, v.op, v.at), c, k, e, t) <==>
            if Gains(l, v, c, k, e) then t < v.at + LEASE_TTL else Writes(l, c, k, e, t) && !Loses(l, v, c, k, e)
  {
    match v.op {
      case DoAcquire(c', k', takeover) => AcquireStep(l, v, c', k', takeover, c, k, e, t);
      case DoRenew(c', k', e') =>
        RenewExactly(l, c', k', e', v.at);
        VerifiedExactly(l, c', k', e', v.at);
        VerifiedExactly(l, c, k, e, t);
      case DoRelease(c', k', e') =>
        ReleaseExactly(l, c', k', e', v.at);
        VerifiedExactly(l, c', k', e', v.at);
        VerifiedExactly(l, c, k, e, t);
      case DoRevokeConnection(id) => RevokeExactly(l, id, c, k, e, t);
      case DoRevokeClient(id) => RevokeExactly(l, id, c, k, e, t);
      case DoRevokeAll => RevokeExactly(l, c, c, k, e, t);
    }
  }

  lemma AcquireStep(l: State, v: Event, c': Id, k': Id, takeover: bool, c: Id, k: Id, e: nat, t: nat)
    requires v.op == DoAcquire(c', k', takeover)
    ensures Writes(Apply(l, v.op, v.at), c, k, e, t) <==>
            if Gains(l, v, c, k, e) then t < v.at + LEASE_TTL else Writes(l, c, k, e, t) && !Loses(l, v, c, k, e)
  {
    AcquireExactly(l, c', k', takeover, v.at);
    VerifiedExactly(l, c, k, e, t);
    var r := Acquired(l, c', k', takeover, v.at).1;
    if r.Ok? {
      assert Gains(l, v, c', k', r.value.epoch);
    }
  }

  lemma {:induction false} ExecuteLast(l: State, run: seq<Event>, v: Event)
    ensures Execute(l, run + [v]) == Apply(Execute(l, run), v.op, v.at)
    decreases |run|
  {
    if run == [] {
      assert run + [v] == [v] && [v][1..] == [];
    } else {
      assert (run + [v])[1..] == run[1..] + [v];
      ExecuteLast(Apply(l, run[0].op, run[0].at), run[1..], v);
    }
  }

  /** The operation at place `i` of the run gave the lease, and none since gave it anew or took it. */
  ghost predicate HasSince(l: State, run: seq<Event>, i: nat, c: Id, k: Id, e: nat)
    requires i < |run|
  {
    && Gains(Execute(l, run[..i]), run[i], c, k, e)
    && forall j :: i < j < |run| ==> Passes(Execute(l, run[..j]), run[j], c, k, e)
  }

  ghost predicate Passes(l: State, v: Event, c: Id, k: Id, e: nat) { !Gains(l, v, c, k, e) && !Loses(l, v, c, k, e) }

  lemma SinceOne(l: State, before: seq<Event>, v: Event, i: nat, c: Id, k: Id, e: nat)
    requires i < |before|
    ensures HasSince(l, before + [v], i, c, k, e) <==>
            HasSince(l, before, i, c, k, e) && Passes(Execute(l, before), v, c, k, e)
  {
    var run := before + [v];
    assert forall j :: 0 <= j <= |before| ==> run[..j] == before[..j];
    assert before[..|before|] == before;
    if HasSince(l, run, i, c, k, e) {
      forall j | i < j < |before| ensures Passes(Execute(l, before[..j]), before[j], c, k, e) {
        assert Passes(Execute(l, run[..j]), run[j], c, k, e);
      }
      assert Passes(Execute(l, run[..|before|]), run[|before|], c, k, e);
    }
    if HasSince(l, before, i, c, k, e) && Passes(Execute(l, before), v, c, k, e) {
      forall j | i < j < |run| ensures Passes(Execute(l, run[..j]), run[j], c, k, e) {
        if j < |before| {
          assert Passes(Execute(l, before[..j]), before[j], c, k, e);
        }
      }
    }
  }

  /** After any run, a connection may write exactly if some operation gave it the lease, less than its time ago, and
      none since took it. */
  lemma {:induction false} WriterExactly(run: seq<Event>, c: Id, k: Id, e: nat, t: nat)
    ensures Writes(Execute(FREE, run), c, k, e, t) <==>
            exists i :: 0 <= i < |run| && HasSince(FREE, run, i, c, k, e) && t < run[i].at + LEASE_TTL
    decreases |run|
  {
    if run != [] {
      var n := |run| - 1;
      var before, v := run[..n], run[n];
      assert run == before + [v];
      ExecuteLast(FREE, before, v);
      StepExactly(Execute(FREE, before), v, c, k, e, t);
      WriterExactly(before, c, k, e, t);
      forall i | 0 <= i < n
        ensures HasSince(FREE, run, i, c, k, e) <==>
                HasSince(FREE, before, i, c, k, e) && Passes(Execute(FREE, before), v, c, k, e)
      {
        SinceOne(FREE, before, v, i, c, k, e);
      }
      if Writes(Execute(FREE, run), c, k, e, t) {
        if Gains(Execute(FREE, before), v, c, k, e) {
          assert HasSince(FREE, run, n, c, k, e);
        } else {
          var i :| 0 <= i < n && HasSince(FREE, before, i, c, k, e) && t < before[i].at + LEASE_TTL;
          assert HasSince(FREE, run, i, c, k, e);
        }
      }
      if i :| 0 <= i < |run| && HasSince(FREE, run, i, c, k, e) && t < run[i].at + LEASE_TTL {
        if i < n {
          assert HasSince(FREE, before, i, c, k, e) && before[i] == run[i];
        }
      }
    }
  }
}
