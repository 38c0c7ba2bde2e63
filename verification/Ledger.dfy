/** crates/rc-core/src/input.rs: the per-session replay guard. */
module Ledger {
  import opened Protocol

  datatype Status = Accepted | Written | DeliveryUnknown | Rejected

  datatype State = State(highest: map<(Id, nat), nat>, ids: seq<Id>, outcomes: map<Id, Status>)

  const WINDOW := 1024
  const EMPTY := State(map[], [], map[])

  /** The id list and the outcome map describe the same, distinct, at most 1024 inputs. */
  ghost predicate Valid(l: State) {
    && |l.ids| <= WINDOW
    && (forall i, j :: 0 <= i < j < |l.ids| ==> l.ids[i] != l.ids[j])
    && (forall id :: id in l.outcomes <==> id in l.ids)
  }

  predicate WellSized(sequence: nat, bytes: nat, max: nat) {
    1 <= bytes <= max && 1 <= sequence <= MAX_JS_INTEGER
  }

  predicate Duplicate(l: State, connection: Id, epoch: nat, id: Id, sequence: nat) {
    id in l.outcomes || ((connection, epoch) in l.highest && sequence <= l.highest[(connection, epoch)])
  }

  /** Forgets the oldest ids beyond the window. */
  function Evict(ids: seq<Id>, outcomes: map<Id, Status>): (seq<Id>, map<Id, Status>)
    decreases |ids|
  {
    if |ids| <= WINDOW then (ids, outcomes) else Evict(ids[1..], outcomes - {ids[0]})
  }

  function AcceptedInput(l: State, connection: Id, epoch: nat, id: Id, sequence: nat, bytes: nat, max: nat): (State, Result<()>) {
    if !WellSized(sequence, bytes, max) then (l, Err(FrameTooLarge))
    else if Duplicate(l, connection, epoch, id, sequence) then (l, Err(DuplicateInput))
    else
      var (ids, outcomes) := Evict(l.ids + [id], l.outcomes[id := Accepted]);
      (State(map[(connection, epoch) := sequence], ids, outcomes), Ok(()))
  }

  function Finished(l: State, id: Id, status: Status): State {
    if id in l.outcomes then l.(outcomes := l.outcomes[id := status]) else l
  }

  class InputLedger {
    var highest: map<(Id, nat), nat>
    var ids: seq<Id>
    var outcomes: map<Id, Status>

    function Value(): State
      reads this
    {
      State(highest, ids, outcomes)
    }

    constructor ()
      ensures Value() == EMPTY
    {
      highest, ids, outcomes := map[], [], map[];
    }

    method Accept(connection: Id, epoch: nat, id: Id, sequence: nat, bytes: nat) returns (r: Result<()>)
      modifies this
      ensures (Value(), r) == AcceptedInput(old(Value()), connection, epoch, id, sequence, bytes, MAX_INPUT)
    {
      r := AcceptLimit(connection, epoch, id, sequence, bytes, MAX_INPUT);
    }

    method AcceptPaste(connection: Id, epoch: nat, id: Id, sequence: nat, bytes: nat) returns (r: Result<()>)
      modifies this
      ensures (Value(), r) == AcceptedInput(old(Value()), connection, epoch, id, sequence, bytes, MAX_PASTE)
    {
      r := AcceptLimit(connection, epoch, id, sequence, bytes, MAX_PASTE);
    }

    method AcceptLimit(connection: Id, epoch: nat, id: Id, sequence: nat, bytes: nat, max: nat) returns (r: Result<()>)
      modifies this
      ensures (Value(), r) == AcceptedInput(old(Value()), connection, epoch, id, sequence, bytes, max)
    {
      if bytes == 0 || bytes > max || sequence == 0 || sequence > MAX_JS_INTEGER {
        return Err(FrameTooLarge);
      }
      if id in outcomes || ((connection, epoch) in highest && sequence <= highest[(connection, epoch)]) {
        return Err(DuplicateInput);
      }
      highest := map k | k in highest && k.0 == connection && k.1 == epoch :: highest[k];
      highest := highest[(connection, epoch) := sequence];
      ids := ids + [id];
      outcomes := outcomes[id := Accepted];
      while |ids| > WINDOW
        invariant Evict(ids, outcomes) == Evict(old(ids) + [id], old(outcomes)[id := Accepted])
        invariant highest == map[(connection, epoch) := sequence]
        decreases |ids|
      {
        outcomes := outcomes - {ids[0]};
        ids := ids[1..];
      }
      r := Ok(());
    }

    method Finish(id: Id, status: Status)
      modifies this
      ensures Value() == Finished(old(Value()), id, status)
    {
      if id in outcomes {
        outcomes := outcomes[id := status];
      }
    }

    method Status(id: Id) returns (s: Option<Status>)
      ensures s == if id in outcomes then Some(outcomes[id]) else None
    {
      s := if id in outcomes then Some(outcomes[id]) else None;
    }
  }

  /** Accepting keeps the two records in step: the window slides by dropping the oldest id only. */
  lemma AcceptKeepsValid(l: State, connection: Id, epoch: nat, id: Id, sequence: nat, bytes: nat, max: nat)
    requires Valid(l)
    ensures Valid(AcceptedInput(l, connection, epoch, id, sequence, bytes, max).0)
    ensures AcceptedInput(l, connection, epoch, id, sequence, bytes, max).1.Ok? ==>
            var m := AcceptedInput(l, connection, epoch, id, sequence, bytes, max).0;
            m.ids == if |l.ids| < WINDOW then l.ids + [id] else l.ids[1..] + [id]
  {
    var r := AcceptedInput(l, connection, epoch, id, sequence, bytes, max);
    if r.1.Ok? {
      var ids, outcomes := l.ids + [id], l.outcomes[id := Accepted];
      assert id !in l.ids;
      if |ids| > WINDOW {
        assert ids[1..] == l.ids[1..] + [id];
        assert Evict(ids, outcomes) == (ids[1..], outcomes - {ids[0]});
        assert forall x :: x in l.ids <==> x == l.ids[0] || x in l.ids[1..];
      }
    }
  }
}
