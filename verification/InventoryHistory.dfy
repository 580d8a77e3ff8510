/** What the inventory's log and versions guarantee over every run of every user's operations, and what
    undo gives back. */
module InventoryHistory {
  import opened Units
  import opened InventoryLog

  /** The log agrees with the table: the newest event about an item has the current row as its new state,
      and the row is absent exactly when there is no event or the newest removed it. */
  lemma LogAgreesWithTable(ops: seq<Op>, id: ItemId)
    ensures var s := Execute(Start, ops); var newest := Newest(s.log, id);
            && (id in s.rows ==>
                  var row := s.rows[id];
                  && newest.Some?
                  && newest.value.current == Some(Snapshot(id, row.user, row.household, row.fields, row.version)))
            && (id !in s.rows <==> newest.None? || newest.value.current.None?)
  {
    ReachableInv(ops);
    var s := Execute(Start, ops);
    assert Agrees(s, id);
    NewestIsAbout(s.log, id);
  }

  /** At most one user's latest event on an item is a removal, and then the row is absent. */
  lemma OneRemover(ops: seq<Op>, id: ItemId, u: UserId, g: HouseholdId, v: UserId, h: HouseholdId)
    requires var mine := LatestBy(Execute(Start, ops).log, u, g, id); mine.Some? && mine.value.action == Removed
    ensures id !in Execute(Start, ops).rows
    ensures var other := LatestBy(Execute(Start, ops).log, v, h, id);
            other.Some? && other.value.action == Removed ==> u == v && g == h
  {
    ReachableInv(ops);
    var s := Execute(Start, ops);
    assert Agrees(s, id) && RemoverIsLast(s, u, g, id) && RemoverIsLast(s, v, h, id);
    LatestIsOwn(s.log, u, g, id);
    LatestIsOwn(s.log, v, h, id);
    assert Shaped(LatestBy(s.log, u, g, id).value);
  }

  /** So undo never inserts an id that is already there. */
  lemma UndoNeverCollides(ops: seq<Op>, user: UserId, h: HouseholdId, id: ItemId)
    ensures Undo(Execute(Start, ops), user, h, id) != Err(DuplicateKey)
  {
    var mine := LatestBy(Execute(Start, ops).log, user, h, id);
    if mine.Some? && mine.value.action == Removed {
      OneRemover(ops, id, user, h, user, h);
    }
  }

  /** Over the whole life of an id, through deletion and restoration, versions strictly increase. */
  lemma VersionsStrictlyIncrease(ops: seq<Op>, id: ItemId, j: nat, k: nat)
    requires var log := Execute(Start, ops).log;
             j < k < |log| && About(log[j], id) && About(log[k], id) && log[j].current.Some? && log[k].current.Some?
    ensures var log := Execute(Start, ops).log; log[j].current.value.version < log[k].current.value.version
    ensures id in Execute(Start, ops).rows ==>
              Execute(Start, ops).log[k].current.value.version <= Execute(Start, ops).rows[id].version
  {
    ReachableInv(ops);
    assert VersionsClimb(Execute(Start, ops).log, id) && Agrees(Execute(Start, ops), id);
  }

  /** An expected version is refused exactly when the row is there with another one, and a refused
      call changes neither rows nor log. */
  lemma StaleIsRefused(s: State, user: UserId, h: HouseholdId, id: ItemId, update: ItemUpdate, status: Status,
      expected: Option<int>)
    ensures Update(s, user, h, id, update) == Err(StaleData) <==>
              && id in s.rows && s.rows[id].household == h
              && update.version.Some? && update.version.value != s.rows[id].version
    ensures SetStatus(s, user, h, id, status, expected) == Err(StaleData) <==>
              && id in s.rows && s.rows[id].household == h
              && expected.Some? && expected.value != s.rows[id].version
    ensures Update(s, user, h, id, update).Err? ==> Step(s, DoUpdate(user, h, id, update)) == s
    ensures SetStatus(s, user, h, id, status, expected).Err? ==> Step(s, DoStatus(user, h, id, status, expected)) == s
  {
  }

  // ----- Undo -----

  /** The same event, whether or not its item reference has been cleared. */
  predicate SameRecord(a: Option<Event>, b: Option<Event>) {
    if a.None? || b.None? then a == b
    else
      && a.value.action == b.value.action && a.value.previous == b.value.previous && a.value.current == b.value.current
      && a.value.user == b.value.user && a.value.household == b.value.household
  }

  /** An operation that is not the user's own on this item. */
  predicate Elsewhere(op: Op, user: UserId, id: ItemId) {
    op.user != user || op.id != id
  }

  /** An operation other than a delete either changes nothing or appends one event of its own. */
  lemma StepAppends(s: State, op: Op) returns (e: Event)
    requires AllShaped(s.log) && Outcome(s, op).Ok? && Step(s, op) != s && !op.DoDelete?
    ensures Step(s, op).log == s.log + [e] && e.user == op.user && forall id :: About(e, id) ==> id == op.id
  {
    e := Step(s, op).log[|s.log|];
    if op.DoUndo? {
      LatestIsOwn(s.log, op.user, op.h, op.id);
      var mine := LatestBy(s.log, op.user, op.h, op.id).value;
      assert Shaped(mine);
    }
  }

  lemma StepKeepsLatest(s: State, op: Op, user: UserId, h: HouseholdId, id: ItemId)
    requires AllShaped(s.log) && Elsewhere(op, user, id)
    ensures SameRecord(LatestBy(Step(s, op).log, user, h, id), LatestBy(s.log, user, h, id))
  {
    if Outcome(s, op).Ok? && Step(s, op) != s {
      if op.DoDelete? {
        DeleteKeepsLatest(s, op, user, h, id);
      } else {
        var e := StepAppends(s, op);
        LatestAfter(s.log, e, user, h, id);
      }
    }
  }

  lemma DeleteKeepsLatest(s: State, op: Op, user: UserId, h: HouseholdId, id: ItemId)
    requires AllShaped(s.log) && Elsewhere(op, user, id) && op.DoDelete? && Outcome(s, op).Ok?
    ensures SameRecord(LatestBy(Step(s, op).log, user, h, id), LatestBy(s.log, user, h, id))
  {
    var e := Event(op.h, op.user, Some(op.id), Removed, Some(SnapshotOf(op.id, s.rows[op.id])), None);
    var log := s.log + [e];
    assert Shaped(e);
    assert forall k :: 0 <= k < |log| ==> log[k] == e || log[k] == s.log[k];
    LatestAfter(s.log, e, user, h, id);
    ClearingKeepsLookups(log, op.id, user, h, id);
  }

  lemma {:induction false} RunKeepsLatest(s: State, ops: seq<Op>, user: UserId, h: HouseholdId, id: ItemId)
    requires Inv(s) && forall op :: op in ops ==> Elsewhere(op, user, id)
    ensures SameRecord(LatestBy(Execute(s, ops).log, user, h, id), LatestBy(s.log, user, h, id))
  {
    if ops != [] {
      var front := ops[..|ops| - 1];
      RunKeepsLatest(s, front, user, h, id);
      RunKeepsInv(s, front);
      StepKeepsLatest(Execute(s, front), ops[|ops| - 1], user, h, id);
    }
  }

  /** What one undo of a change does, and the event it leaves for the next undo. */
  lemma UndoSwaps(s: State, user: UserId, h: HouseholdId, id: ItemId, e: Event)
    requires Inv(s) && Present(s, id, h)
    requires LatestBy(s.log, user, h, id) == Some(e) && e.action != Removed && e.previous.Some?
    ensures Undo(s, user, h, id).Ok?
    ensures var s' := Undo(s, user, h, id).value;
            && s'.rows == s.rows[id :=
               s.rows[id].(fields := e.previous.value.fields, version := s.rows[id].version + 1)]
            && Inv(s') && LatestBy(s'.log, user, h, id).Some?
            && LatestBy(s'.log, user, h, id).value.action == Undone
               && LatestBy(s'.log, user, h, id).value.previous == e.current
  {
    LatestIsOwn(s.log, user, h, id);
    assert Shaped(e);
    var s' := Undo(s, user, h, id).value;
    UndoKeepsInv(s, user, h, id);
    LatestAfter(s.log, s'.log[|s.log|], user, h, id);
  }

  /** After a user's change and any operations that are not theirs on the item, their latest event still holds
      the states before and after the change. */
  lemma ChangeRemembered(ops: seq<Op>, change: Op, others: seq<Op>) returns (e: Event)
    requires change.DoUpdate? || change.DoStatus?
    requires Outcome(Execute(Start, ops), change).Ok?
    requires forall op :: op in others ==> Elsewhere(op, change.user, change.id)
    ensures change.id in Execute(Start, ops).rows && change.id in Step(Execute(Start, ops), change).rows
    ensures var before := Execute(Start, ops); var changed := Step(before, change); var now := Execute(changed, others);
            && Inv(now) && LatestBy(now.log, change.user, change.h, change.id) == Some(e) && e.action != Removed
            && e.previous == Some(SnapshotOf(change.id, before.rows[change.id]))
            && e.current == Some(SnapshotOf(change.id, changed.rows[change.id]))
  {
    var before := Execute(Start, ops);
    var changed := Step(before, change);
    ReachableInv(ops);
    StepKeepsInv(before, change);
    RunKeepsInv(changed, others);
    RunKeepsLatest(changed, others, change.user, change.h, change.id);
    LatestAfter(before.log, changed.log[|before.log|], change.user, change.h, change.id);
    e := LatestBy(Execute(changed, others).log, change.user, change.h, change.id).value;
  }

  /** Undoing twice puts back the fields before the user's latest event, and then those after it. */
  lemma UndoTwice(s: State, user: UserId, h: HouseholdId, id: ItemId, e: Event)
    requires Inv(s) && Present(s, id, h)
    requires LatestBy(s.log, user, h, id) == Some(e) && e.action != Removed && e.previous.Some? && e.current.Some?
    ensures var once := Undo(s, user, h, id);
            && once.Ok?
            && once.value.rows == s.rows[id :=
               s.rows[id].(fields := e.previous.value.fields, version := s.rows[id].version + 1)]
            && var twice := Undo(once.value, user, h, id);
            && twice.Ok?
            && twice.value.rows == s.rows[id :=
               s.rows[id].(fields := e.current.value.fields, version := s.rows[id].version + 2)]
  {
    UndoSwaps(s, user, h, id, e);
    var once := Undo(s, user, h, id).value;
    UndoSwaps(once, user, h, id, LatestBy(once.log, user, h, id).value);
  }

  /** After a user's update or status change, and any operations that are not that user's on the item,
      one undo puts back every field as it was before the change -- but for the version, which goes up --
      and a second undo puts back the fields as the change left them. */
  lemma UndoRoundTrip(ops: seq<Op>, change: Op, others: seq<Op>)
    requires change.DoUpdate? || change.DoStatus?
    requires Outcome(Execute(Start, ops), change).Ok?
    requires forall op :: op in others ==> Elsewhere(op, change.user, change.id)
    requires Present(Execute(Step(Execute(Start, ops), change), others), change.id, change.h)
    ensures var id := change.id;
            var before := Execute(Start, ops); var changed := Step(before, change); var now := Execute(changed, others);
            var once := Undo(now, change.user, change.h, id);
            && once.Ok?
            && once.value.rows == now.rows[id :=
               now.rows[id].(fields := before.rows[id].fields, version := now.rows[id].version + 1)]
            && var twice := Undo(once.value, change.user, change.h, id);
            && twice.Ok?
            && twice.value.rows == now.rows[id :=
               now.rows[id].(fields := changed.rows[id].fields, version := now.rows[id].version + 2)]
  {
    var e := ChangeRemembered(ops, change, others);
    UndoTwice(Execute(Step(Execute(Start, ops), change), others), change.user, change.h, change.id, e);
  }

  /** After a user's delete, and any operations that are not that user's on the item, the row is still
      absent; undo re-creates it with every field, its household and the next version, owned by the
      caller, and a further undo changes nothing. */
  lemma UndoDelete(ops: seq<Op>, delete: Op, others: seq<Op>)
    requires delete.DoDelete? && Outcome(Execute(Start, ops), delete).Ok?
    requires forall op :: op in others ==> Elsewhere(op, delete.user, delete.id)
    ensures var id := delete.id;
            var before := Execute(Start, ops); var now := Execute(Step(before, delete), others);
            var once := Undo(now, delete.user, delete.h, id);
            && id !in now.rows && once.Ok?
            && once.value.rows == now.rows[id :=
               before.rows[id].(user := delete.user, version := once.value.rows[id].version)]
            && once.value.rows[id].version ==
               (if before.rows[id].version >= 0 then before.rows[id].version else 0) + 1
            && Undo(once.value, delete.user, delete.h, id) == Ok(once.value)
  {
    var user, h, id := delete.user, delete.h, delete.id;
    var before := Execute(Start, ops);
    ReachableInv(ops);
    StepKeepsInv(before, delete);
    var deleted := Step(before, delete);
    var e := Event(h, user, Some(id), Removed, Some(SnapshotOf(id, before.rows[id])), None);
    LatestAfter(before.log, e, user, h, id);
    ClearingKeepsLookups(before.log + [e], id, user, h, id);
    RunKeepsInv(deleted, others);
    RunKeepsLatest(deleted, others, user, h, id);
    var now := Execute(deleted, others);
    assert Agrees(now, id) && RemoverIsLast(now, user, h, id);
    var once := Undo(now, user, h, id).value;
    LatestAfter(now.log, once.log[|now.log|], user, h, id);
  }

  /** Undoing a creation does nothing. */
  lemma UndoCreateIsNoOp(ops: seq<Op>, create: Op)
    requires create.DoCreate? && Outcome(Execute(Start, ops), create).Ok?
    ensures var s := Step(Execute(Start, ops), create); Undo(s, create.user, create.h, create.id) == Ok(s)
  {
    var before := Execute(Start, ops);
    LatestAfter(before.log, Step(before, create).log[|before.log|], create.user, create.h, create.id);
  }
}
