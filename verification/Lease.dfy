/** crates/rc-core/src/lease.rs: the single-writer lease. Instants are milliseconds. */
module Lease {
  import opened Protocol

  const LEASE_TTL := 15_000

  datatype Owner = Owner(client: Id, connection: Id, until: nat)
  datatype State = State(epoch: nat, owner: Option<Owner>)
  datatype View = View(client: Id, connection: Id, epoch: nat, remaining: nat)

  const FREE := State(0, None)

  /** Somebody holds the lease. */
  predicate Held(l: State, now: nat) { l.owner.Some? && l.owner.value.until > now }

  /** The lease of epoch `e` can still authorise a write. */
  predicate LiveEpoch(l: State, e: nat, now: nat) { l.epoch == e && Held(l, now) }

  function ViewOf(l: State, now: nat): Option<View> {
    if !Held(l, now) then None
    else Some(View(l.owner.value.client, l.owner.value.connection, l.epoch, l.owner.value.until - now))
  }

  function Verified(l: State, client: Id, connection: Id, epoch: nat, now: nat): Result<()> {
    match l.owner
    case None => Err(LeaseRequired)
    case Some(o) =>
      if o.until <= now || o.client != client || o.connection != connection || l.epoch != epoch
      then Err(LeaseStale) else Ok(())
  }

  function Grant(l: State, client: Id, connection: Id, epoch: nat, now: nat): State {
    State(epoch, Some(Owner(client, connection, now + LEASE_TTL)))
  }

  function Acquired(l: State, client: Id, connection: Id, takeover: bool, now: nat): (State, Result<View>) {
    var mine := Held(l, now) && l.owner.value.client == client && l.owner.value.connection == connection;
    if Held(l, now) && !mine && !takeover then (l, Err(LeaseBusy))
    else if !mine && l.epoch >= MAX_U64 then (l, Err(Internal))
    else
      var g := Grant(l, client, connection, if mine then l.epoch else l.epoch + 1, now);
      (g, Ok(ViewOf(g, now).value))
  }

  function Renewed(l: State, client: Id, connection: Id, epoch: nat, now: nat): (State, Result<View>) {
    match Verified(l, client, connection, epoch, now)
    case Err(e) => (l, Err(e))
    case Ok(_) => var g := Grant(l, client, connection, l.epoch, now); (g, Ok(ViewOf(g, now).value))
  }

  function Released(l: State, client: Id, connection: Id, epoch: nat, now: nat): (State, Result<()>) {
    match Verified(l, client, connection, epoch, now)
    case Err(e) => (l, Err(e))
    case Ok(_) => (l.(owner := None), Ok(()))
  }

  function ConnectionRevoked(l: State, id: Id): State {
    if l.owner.Some? && l.owner.value.connection == id then l.(owner := None) else l
  }

  function ClientRevoked(l: State, id: Id): State {
    if l.owner.Some? && l.owner.value.client == id then l.(owner := None) else l
  }

  function AllRevoked(l: State): State { l.(owner := None) }

  class Lease {
    var epoch: nat
    var owner: Option<Owner>

    function Value(): State
      reads this
    {
      State(epoch, owner)
    }

    constructor ()
      ensures Value() == FREE
    {
      epoch, owner := 0, None;
    }

    method Acquire(client: Id, connection: Id, takeover: bool, now: nat) returns (r: Result<View>)
      modifies this
      ensures (Value(), r) == Acquired(old(Value()), client, connection, takeover, now)
    {
      if owner.Some? && owner.value.until > now {
        if owner.value.client == client && owner.value.connection == connection {
          owner := Some(owner.value.(until := now + LEASE_TTL));
          var v := CurrentView(now);
          return Ok(v.value);
        }
        if !takeover {
          return Err(LeaseBusy);
        }
      }
      if epoch >= MAX_U64 {
        return Err(Internal);
      }
      epoch := epoch + 1;
      owner := Some(Owner(client, connection, now + LEASE_TTL));
      var v := CurrentView(now);
      r := Ok(v.value);
    }

    method Verify(client: Id, connection: Id, e: nat, now: nat) returns (r: Result<()>)
      ensures r == Verified(Value(), client, connection, e, now)
    {
      if owner.None? {
        return Err(LeaseRequired);
      }
      var o := owner.value;
      if o.until <= now || o.client != client || o.connection != connection || epoch != e {
        return Err(LeaseStale);
      }
      r := Ok(());
    }

    method Renew(client: Id, connection: Id, e: nat, now: nat) returns (r: Result<View>)
      modifies this
      ensures (Value(), r) == Renewed(old(Value()), client, connection, e, now)
    {
      var ok := Verify(client, connection, e, now);
      if ok.Err? {
        return Err(ok.error);
      }
      owner := Some(owner.value.(until := now + LEASE_TTL));
      var v := CurrentView(now);
      r := Ok(v.value);
    }

    method Release(client: Id, connection: Id, e: nat, now: nat) returns (r: Result<()>)
      modifies this
      ensures (Value(), r) == Released(old(Value()), client, connection, e, now)
    {
      r := Verify(client, connection, e, now);
      if r.Ok? {
        owner := None;
      }
    }

    method RevokeConnection(id: Id)
      modifies this
      ensures Value() == ConnectionRevoked(old(Value()), id)
    {
      if owner.Some? && owner.value.connection == id {
        owner := None;
      }
    }

    method RevokeClient(id: Id)
      modifies this
      ensures Value() == ClientRevoked(old(Value()), id)
    {
      if owner.Some? && owner.value.client == id {
        owner := None;
      }
    }

    method RevokeAll()
      modifies this
      ensures Value() == AllRevoked(old(Value()))
    {
      owner := None;
    }

    method CurrentView(now: nat) returns (v: Option<View>)
      ensures v == ViewOf(Value(), now)
    {
      if owner.Some? && owner.value.until > now {
        return Some(View(owner.value.client, owner.value.connection, epoch, owner.value.until - now));
      }
      v := None;
    }
  }

  // ---- Runs ----

  datatype Op =
    | DoAcquire(client: Id, connection: Id, takeover: bool)
    | DoRenew(client: Id, connection: Id, epoch: nat)
    | DoRelease(client: Id, connection: Id, epoch: nat)
    | DoRevokeConnection(id: Id)
    | DoRevokeClient(id: Id)
    | DoRevokeAll

  function Apply(l: State, op: Op, now: nat): State {
    match op
    case DoAcquire(c, k, t) => Acquired(l, c, k, t, now).0
    case DoRenew(c, k, e) => Renewed(l, c, k, e, now).0
    case DoRelease(c, k, e) => Released(l, c, k, e, now).0
    case DoRevokeConnection(id) => ConnectionRevoked(l, id)
    case DoRevokeClient(id) => ClientRevoked(l, id)
    case DoRevokeAll => AllRevoked(l)
  }

  lemma EpochOwner(l: State, op: Op, now: nat)
    ensures var m := Apply(l, op, now);
            && m.epoch >= l.epoch
            && (m.epoch == l.epoch && m.owner.Some? ==>
                l.owner.Some? && m.owner.value.client == l.owner.value.client
                && m.owner.value.connection == l.owner.value.connection)
  {
  }

  lemma DeadStep(l: State, op: Op, e: nat, now: nat, later: nat)
    requires now <= later && e <= l.epoch && !LiveEpoch(l, e, now)
    ensures e <= Apply(l, op, now).epoch && !LiveEpoch(Apply(l, op, now), e, later)
  {
  }

  /** An operation and the instant it happens. */
  datatype Event = Event(op: Op, at: nat)

  /** The lease after a run of operations. */
  function Execute(l: State, run: seq<Event>): State
    decreases |run|
  {
    if run == [] then l else Execute(Apply(l, run[0].op, run[0].at), run[1..])
  }

  /** Time does not run backwards: from `now` through the run. */
  predicate Ordered(now: nat, run: seq<Event>)
    decreases |run|
  {
    run == [] || (now <= run[0].at && Ordered(run[0].at, run[1..]))
  }

  function EndOf(now: nat, run: seq<Event>): nat
    decreases |run|
  {
    if run == [] then now else EndOf(run[0].at, run[1..])
  }

  /** An epoch that has been passed, revoked or left to expire is never live again, whatever happens. */
  lemma {:induction false} DeadForever(l: State, e: nat, now: nat, run: seq<Event>, later: nat)
    requires e <= l.epoch && !LiveEpoch(l, e, now)
    requires Ordered(now, run) && EndOf(now, run) <= later
    ensures !LiveEpoch(Execute(l, run), e, later)
    decreases |run|
  {
    if run == [] {
    } else {
      var t := run[0].at;
      DeadStep(l, run[0].op, e, t, t);
      DeadForever(Apply(l, run[0].op, t), e, t, run[1..], later);
    }
  }

  lemma {:induction false} EpochOwnerRun(l: State, run: seq<Event>)
    ensures var m := Execute(l, run);
            && m.epoch >= l.epoch
            && (m.epoch == l.epoch && m.owner.Some? ==>
                l.owner.Some? && m.owner.value.client == l.owner.value.client
                && m.owner.value.connection == l.owner.value.connection)
    decreases |run|
  {
    if run != [] {
      EpochOwner(l, run[0].op, run[0].at);
      EpochOwnerRun(Apply(l, run[0].op, run[0].at), run[1..]);
    }
  }

  /** One writer per epoch: whoever is verified for an epoch, at any two points of a run, is the same connection
      of the same client. */
  lemma SingleWriter(l: State, run: seq<Event>, e: nat, c: Id, k: Id, t: nat, c': Id, k': Id, t': nat)
    requires Verified(l, c, k, e, t).Ok? && Verified(Execute(l, run), c', k', e, t').Ok?
    ensures c == c' && k == k'
  {
    EpochOwnerRun(l, run);
  }

  /** An expired lease is not renewed or released; taking it again moves the epoch on. */
  lemma ExpiredNeedsNewEpoch(l: State, c: Id, k: Id, e: nat, takeover: bool, now: nat)
    requires !Held(l, now) && l.epoch < MAX_U64
    ensures Renewed(l, c, k, e, now).1.Err? && Released(l, c, k, e, now).1.Err?
    ensures var (m, r) := Acquired(l, c, k, takeover, now);
            r.Ok? && r.value.epoch == m.epoch == l.epoch + 1 && Verified(m, c, k, m.epoch, now).Ok?
  {
  }

  /** Verification succeeds exactly for the holder of the live epoch. */
  lemma VerifiedExactly(l: State, client: Id, connection: Id, e: nat, now: nat)
    ensures Verified(l, client, connection, e, now).Ok? <==>
            LiveEpoch(l, e, now) && l.owner.value.client == client && l.owner.value.connection == connection
  {
  }
}
