/** Inventory rows and the event log as a state, the five operations on it, and what they keep.
    Each operation is one atomic step. Models the combined effect of inventory/service.py,
    inventory/repository.py and inventory/event_service.py. */
module InventoryLog {
  import opened Units
  import opened Rounding

  type ItemId = nat
  type UserId = nat
  type HouseholdId = nat
  type Text = nat
  type Date = int

  datatype Status = Active | Frozen | Used | Discarded
  datatype Source = Manual | Barcode | Photo

  /** The fields that undo restores. */
  datatype Fields = Fields(displayName: Text, quantity: real, unit: Unit, storage: Text, expiry: Date, confidence: real,
                           status: Status, source: Source, canonicalName: Text, canonicalId: Option<nat>)

  datatype Row = Row(user: UserId, household: HouseholdId, fields: Fields, version: int)

  datatype Snapshot = Snapshot(id: ItemId, user: UserId, household: HouseholdId, fields: Fields, version: int)

  function SnapshotOf(id: ItemId, r: Row): Snapshot {
    Snapshot(id, r.user, r.household, r.fields, r.version)
  }

  datatype Action = Added | Updated | StatusUpdated | Removed | Undone

  /** `previous` and `current` are the snapshots before and after; None is the empty object. */
  datatype Event = Event(household: HouseholdId, user: UserId, item: Option<ItemId>, action: Action,
                         previous: Option<Snapshot>, current: Option<Snapshot>)

  /** The log is in order of creation. */
  datatype State = State(rows: map<ItemId, Row>, log: seq<Event>)

  datatype Error = NotFound | StaleData | NullViolation | DuplicateKey

  datatype Result<+T> = Ok(value: T) | Err(error: Error)

  /** A field of a partial update: left out, explicitly null, or given. */
  datatype Patch<+T> = Unset | Null | Set(value: T)

  datatype ItemUpdate = ItemUpdate(displayName: Patch<Text>, quantity: Patch<real>, unit: Patch<Unit>,
                                   storage: Patch<Text>, canonicalName: Patch<Text>, canonicalId: Patch<nat>,
                                   expiry: Patch<Date>, version: Option<int>)

  // ----- Looking up the log -----

  predicate About(e: Event, id: ItemId) {
    || e.item == Some(id)
    || (e.previous.Some? && e.previous.value.id == id)
    || (e.current.Some? && e.current.value.id == id)
  }

  /** The newest event about an item, by anyone. */
  function Newest(log: seq<Event>, id: ItemId): Option<Event> {
    if log == [] then None
    else if About(log[|log| - 1], id) then Some(log[|log| - 1])
    else Newest(log[..|log| - 1], id)
  }

  /** The caller's own newest event about an item in a household. */
  function LatestBy(log: seq<Event>, user: UserId, h: HouseholdId, id: ItemId): Option<Event> {
    if log == [] then None
    else
      var e := log[|log| - 1];
      if e.user == user && e.household == h && About(e, id) then Some(e)
      else LatestBy(log[..|log| - 1], user, h, id)
  }

  /** The event found is about the item, and none after it is. */
  lemma {:induction false} NewestIs(log: seq<Event>, id: ItemId) returns (k: nat)
    ensures Newest(log, id).None? <==> forall j :: 0 <= j < |log| ==> !About(log[j], id)
    ensures Newest(log, id).Some? ==>
              && k < |log| && Newest(log, id) == Some(log[k]) && About(log[k], id)
              && forall j :: k < j < |log| ==> !About(log[j], id)
  {
    k := 0;
    if log != [] {
      var last := |log| - 1;
      if About(log[last], id) {
        k := last;
      } else {
        k := NewestIs(log[..last], id);
      }
    }
  }

  /** An event that counts as the user's own on the item: it names the item, or holds a snapshot of it. */
  predicate OwnEvent(e: Event, user: UserId, h: HouseholdId, id: ItemId) {
    && e.user == user && e.household == h
    && (|| e.item == Some(id)
        || (e.previous.Some? && e.previous.value.id == id)
        || (e.current.Some? && e.current.value.id == id))
  }

  /** The event found is the user's own in that household, and none after it is. */
  lemma {:induction false} LatestByIs(log: seq<Event>, user: UserId, h: HouseholdId, id: ItemId) returns (k: nat)
    ensures LatestBy(log, user, h, id).None? <==> forall j :: 0 <= j < |log| ==> !OwnEvent(log[j], user, h, id)
    ensures LatestBy(log, user, h, id).Some? ==>
              && k < |log| && LatestBy(log, user, h, id) == Some(log[k]) && OwnEvent(log[k], user, h, id)
              && forall j :: k < j < |log| ==> !OwnEvent(log[j], user, h, id)
  {
    k := 0;
    if log != [] {
      var last := |log| - 1;
      if OwnEvent(log[last], user, h, id) {
        k := last;
      } else {
        k := LatestByIs(log[..last], user, h, id);
      }
    }
  }

  // ----- Operations -----

  predicate Present(s: State, id: ItemId, h: HouseholdId) {
    id in s.rows && s.rows[id].household == h
  }

  predicate Unused(s: State, id: ItemId) {
    id !in s.rows && Newest(s.log, id).None?
  }

  function Logged(s: State, e: Event): State {
    s.(log := s.log + [e])
  }

  function Create(s: State, user: UserId, h: HouseholdId, id: ItemId, fields: Fields): State {
    var row := Row(user, h, fields, 1);
    Logged(s.(rows := s.rows[id := row]), Event(h, user, Some(id), Added, None, Some(SnapshotOf(id, row))))
  }

  function Patched<T>(before: T, p: Patch<T>): T {
    if p.Set? then p.value else before
  }

  /** Nulls are refused for every column but the canonical ingredient. */
  predicate WritesNull(u: ItemUpdate) {
    u.displayName.Null? || u.quantity.Null? || u.unit.Null? || u.storage.Null? || u.canonicalName.Null?
      || u.expiry.Null?
  }

  function Apply(f: Fields, u: ItemUpdate): Fields {
    f.(displayName := Patched(f.displayName, u.displayName), quantity := Patched(f.quantity, u.quantity),
       unit := Patched(f.unit, u.unit), storage := Patched(f.storage, u.storage),
       canonicalName := Patched(f.canonicalName, u.canonicalName), expiry := Patched(f.expiry, u.expiry),
       canonicalId := match u.canonicalId case Unset => f.canonicalId case Null => None case Set(c) => Some(c))
  }

  predicate Stale(r: Row, expected: Option<int>) {
    expected.Some? && r.version != expected.value
  }

  /** The row's fields become f, its version goes up by one, and the change is logged. */
  function Rewrite(s: State, user: UserId, h: HouseholdId, id: ItemId, action: Action, f: Fields): State
    requires id in s.rows
  {
    var row := s.rows[id].(fields := f, version := s.rows[id].version + 1);
    Logged(s.(rows := s.rows[id := row]),
           Event(h, user, Some(id), action, Some(SnapshotOf(id, s.rows[id])), Some(SnapshotOf(id, row))))
  }

  function Update(s: State, user: UserId, h: HouseholdId, id: ItemId, u: ItemUpdate): Result<State> {
    if !Present(s, id, h) then Err(NotFound)
    else if Stale(s.rows[id], u.version) then Err(StaleData)
    else if WritesNull(u) then Err(NullViolation)
    else Ok(Rewrite(s, user, h, id, Updated, Apply(s.rows[id].fields, u)))
  }

  function SetStatus(s: State, user: UserId, h: HouseholdId, id: ItemId, status: Status,
      expected: Option<int>): Result<State> {
    if !Present(s, id, h) then Err(NotFound)
    else if Stale(s.rows[id], expected) then Err(StaleData)
    else Ok(Rewrite(s, user, h, id, StatusUpdated, s.rows[id].fields.(status := status)))
  }

  /** Deleting a row clears the item reference of its events. */
  function Cleared(e: Event, id: ItemId): Event {
    if e.item == Some(id) then e.(item := None) else e
  }

  function ClearAll(log: seq<Event>, id: ItemId): (r: seq<Event>)
    ensures |r| == |log|
    ensures forall k :: 0 <= k < |log| ==> r[k] == Cleared(log[k], id)
  {
    seq(|log|, k requires 0 <= k < |log| => Cleared(log[k], id))
  }

  function Delete(s: State, user: UserId, h: HouseholdId, id: ItemId): Result<State> {
    if !Present(s, id, h) then Err(NotFound)
    else
      var e := Event(h, user, Some(id), Removed, Some(SnapshotOf(id, s.rows[id])), None);
      Ok(State(s.rows - {id}, ClearAll(s.log + [e], id)))
  }

  function Later(a: int, b: int): int { if a >= b then a else b }

  /** Re-creates a removed row under its old id, owned by the caller. */
  function Restored(e: Event, user: UserId): Row
    requires e.previous.Some?
  {
    var p := e.previous.value;
    Row(user, p.household, p.fields, Later(p.version, if e.current.Some? then e.current.value.version else 0) + 1)
  }

  function Undo(s: State, user: UserId, h: HouseholdId, id: ItemId): Result<State> {
    match LatestBy(s.log, user, h, id)
    case None => Err(NotFound)
    case Some(e) =>
      if e.action == Removed then
        if e.previous.None? then Err(NotFound)
        else if id in s.rows then Err(DuplicateKey)
        else
          var row := Restored(e, user);
          Ok(Logged(s.(rows := s.rows[id := row]),
            Event(h, user, Some(id), Undone, e.current, Some(SnapshotOf(id, row)))))
      else if !Present(s, id, h) then Err(NotFound)
      else if e.previous.None? then Ok(s)
      else
        var p := e.previous.value;
        var row := s.rows[id].(household := p.household, fields := p.fields, version := s.rows[id].version + 1);
        Ok(Logged(s.(rows := s.rows[id := row]),
          Event(h, user, Some(id), Undone, e.current, Some(SnapshotOf(id, row)))))
  }

  /** A column after an update: the given value, or what was there when it was left out. */
  predicate Takes<T(==)>(p: Patch<T>, before: T, after: T) {
    (p.Set? ==> after == p.value) && (p.Unset? ==> after == before)
  }

  /** The fields after an update, column by column: a given value is in the row, a column left out is as it was, and
      null clears the canonical id. Confidence, status and source stay. */
  predicate Patches(f: Fields, u: ItemUpdate, g: Fields) {
    && Takes(u.displayName, f.displayName, g.displayName) && Takes(u.quantity, f.quantity, g.quantity)
    && Takes(u.unit, f.unit, g.unit) && Takes(u.storage, f.storage, g.storage)
    && Takes(u.canonicalName, f.canonicalName, g.canonicalName) && Takes(u.expiry, f.expiry, g.expiry)
    && (u.canonicalId.Set? ==> g.canonicalId == Some(u.canonicalId.value))
    && (u.canonicalId.Null? ==> g.canonicalId == None)
    && (u.canonicalId.Unset? ==> g.canonicalId == f.canonicalId)
    && g.confidence == f.confidence && g.status == f.status && g.source == f.source
  }

  lemma ApplyPatches(f: Fields, u: ItemUpdate)
    ensures Patches(f, u, Apply(f, u))
  {
  }

  /** When an undo is refused: the user has no event on the item; or the event is a removal that holds no state, or
      whose item is back; or it is another one and the row is not in the household. */
  lemma UndoFails(s: State, user: UserId, h: HouseholdId, id: ItemId)
    ensures var e := LatestBy(s.log, user, h, id);
            && (Undo(s, user, h, id) == Err(NotFound) <==>
                  || e.None?
                  || (e.value.action == Removed && e.value.previous.None?)
                  || (e.value.action != Removed && (id !in s.rows || s.rows[id].household != h)))
            && (Undo(s, user, h, id) == Err(DuplicateKey) <==>
                  e.Some? && e.value.action == Removed && e.value.previous.Some? && id in s.rows)
            && (Undo(s, user, h, id).Err? ==> Undo(s, user, h, id).error in {NotFound, DuplicateKey})
  {
  }

  // ----- Runs -----

  datatype Op =
    | DoCreate(user: UserId, h: HouseholdId, id: ItemId, fields: Fields)
    | DoUpdate(user: UserId, h: HouseholdId, id: ItemId, update: ItemUpdate)
    | DoStatus(user: UserId, h: HouseholdId, id: ItemId, status: Status, expected: Option<int>)
    | DoDelete(user: UserId, h: HouseholdId, id: ItemId)
    | DoUndo(user: UserId, h: HouseholdId, id: ItemId)

  /** The outcome of an operation; new items get an id never seen before. */
  function Outcome(s: State, op: Op): Result<State> {
    match op
    case DoCreate(u, h, id, f) => if Unused(s, id) then Ok(Create(s, u, h, id, f)) else Err(DuplicateKey)
    case DoUpdate(u, h, id, update) => Update(s, u, h, id, update)
    case DoStatus(u, h, id, status, expected) => SetStatus(s, u, h, id, status, expected)
    case DoDelete(u, h, id) => Delete(s, u, h, id)
    case DoUndo(u, h, id) => Undo(s, u, h, id)
  }

  /** A failed operation changes nothing. */
  function Step(s: State, op: Op): State {
    match Outcome(s, op) case Ok(s') => s' case Err(_) => s
  }

  function Execute(s: State, ops: seq<Op>): State {
    if ops == [] then s else Step(Execute(s, ops[..|ops| - 1]), ops[|ops| - 1])
  }

  const Start: State := State(map[], [])

  // ----- Invariants -----

  /** Events carry the snapshots their action calls for, all of one item and of the event's household. */
  predicate Shaped(e: Event) {
    && (e.action == Removed ==> e.previous.Some? && e.current.None?)
    && (e.action != Removed ==> e.current.Some?)
    && (e.action == Updated || e.action == StatusUpdated ==> e.previous.Some?)
    && (e.previous.Some? ==> e.previous.value.household == e.household && e.previous.value.id == Subject(e))
    && (e.current.Some? ==> e.current.value.household == e.household)
    && (e.item.Some? ==> e.item.value == Subject(e))
  }

  function Subject(e: Event): ItemId {
    if e.current.Some? then e.current.value.id else if e.previous.Some? then e.previous.value.id else 0
  }

  ghost predicate AllShaped(log: seq<Event>) {
    forall k :: 0 <= k < |log| ==> Shaped(log[k])
  }

  /** The newest event's new state is the row, and a missing row is one whose newest event removed it. */
  ghost predicate Agrees(s: State, id: ItemId) {
    if id in s.rows then
      Newest(s.log, id).Some? && Newest(s.log, id).value.current == Some(SnapshotOf(id, s.rows[id]))
    else
      Newest(s.log, id).Some? ==> Newest(s.log, id).value.action == Removed
  }

  /** Whoever removed an item last is the only one whose latest event on it is a removal. */
  ghost predicate RemoverIsLast(s: State, user: UserId, h: HouseholdId, id: ItemId) {
    var mine := LatestBy(s.log, user, h, id);
    mine.Some? && mine.value.action == Removed ==> mine == Newest(s.log, id)
  }

  /** The version an item had when last seen. */
  function LastVersion(log: seq<Event>, id: ItemId): int {
    match Newest(log, id)
    case None => 0
    case Some(e) => if e.current.Some? then e.current.value.version
      else if e.previous.Some? then e.previous.value.version else 0
  }

  /** Versions of successive new states strictly increase, and none is above the last one seen. */
  ghost predicate VersionsClimb(log: seq<Event>, id: ItemId) {
    Increasing(log, id) && Capped(log, id, LastVersion(log, id))
  }

  /** An event that gives the item a new state. */
  predicate Sets(e: Event, id: ItemId) {
    About(e, id) && e.current.Some?
  }

  ghost predicate Increasing(log: seq<Event>, id: ItemId) {
    forall j, k :: 0 <= j < k < |log| && Sets(log[j], id) && Sets(log[k], id) ==>
                     log[j].current.value.version < log[k].current.value.version
  }

  ghost predicate Capped(log: seq<Event>, id: ItemId, cap: int) {
    forall k :: 0 <= k < |log| && Sets(log[k], id) ==> log[k].current.value.version <= cap
  }

  ghost predicate Inv(s: State) {
    && AllShaped(s.log)
    && (forall id: ItemId :: Agrees(s, id))
    && (forall user: UserId, h: HouseholdId, id: ItemId :: RemoverIsLast(s, user, h, id))
    && (forall id: ItemId :: VersionsClimb(s.log, id))
  }

  // ----- Logging one more event -----

  lemma NewestAfter(log: seq<Event>, e: Event, id: ItemId)
    ensures Newest(log + [e], id) == if About(e, id) then Some(e) else Newest(log, id)
  {
    assert (log + [e])[..|log|] == log;
  }

  lemma LatestAfter(log: seq<Event>, e: Event, user: UserId, h: HouseholdId, id: ItemId)
    ensures LatestBy(log + [e], user, h, id) ==
            if e.user == user && e.household == h && About(e, id) then Some(e) else LatestBy(log, user, h, id)
  {
    assert (log + [e])[..|log|] == log;
  }

  lemma {:induction false} NewestIsAbout(log: seq<Event>, id: ItemId)
    ensures Newest(log, id).Some? ==> Newest(log, id).value in log && About(Newest(log, id).value, id)
  {
    if log != [] {
      NewestIsAbout(log[..|log| - 1], id);
    }
  }

  lemma {:induction false} LatestIsOwn(log: seq<Event>, user: UserId, h: HouseholdId, id: ItemId)
    ensures var mine := LatestBy(log, user, h, id);
            mine.Some? ==>
              mine.value in log && About(mine.value, id) && mine.value.user == user && mine.value.household == h
  {
    if log != [] {
      LatestIsOwn(log[..|log| - 1], user, h, id);
    }
  }

  lemma {:induction false} NoNewestNoEvent(log: seq<Event>, id: ItemId)
    requires Newest(log, id).None?
    ensures forall k :: 0 <= k < |log| ==> !About(log[k], id)
  {
    if log != [] {
      NoNewestNoEvent(log[..|log| - 1], id);
    }
  }

  lemma VersionsAfter(log: seq<Event>, e: Event, id: ItemId)
    requires VersionsClimb(log, id) && Shaped(e)
    requires Subject(e) == id && e.current.Some? ==>
             e.current.value.version > LastVersion(log, id) || Newest(log, id).None?
    requires Subject(e) == id && e.action == Removed ==> e.previous.value.version >= LastVersion(log, id)
    ensures VersionsClimb(log + [e], id)
  {
    var last := LastVersion(log, id);
    NewestAfter(log, e, id);
    if Newest(log, id).None? {
      NoNewestNoEvent(log, id);
    }
    if Sets(e, id) {
      IncreasingAfter(log, e, id, e.current.value.version);
      CappedAfter(log, e, id, last, e.current.value.version);
    } else {
      IncreasingAfter(log, e, id, last);
      CappedAfter(log, e, id, last, LastVersion(log + [e], id));
    }
  }

  lemma IncreasingAfter(log: seq<Event>, e: Event, id: ItemId, version: int)
    requires Increasing(log, id)
    requires Sets(e, id) ==> e.current.value.version == version && Capped(log, id, version - 1)
    ensures Increasing(log + [e], id)
  {
    var log' := log + [e];
    forall k | 0 <= k < |log| ensures log'[k] == log[k] {
    }
  }

  lemma CappedAfter(log: seq<Event>, e: Event, id: ItemId, cap: int, higher: int)
    requires Capped(log, id, cap) && (Sets(e, id) ==> e.current.value.version <= higher)
    requires cap <= higher || forall k :: 0 <= k < |log| ==> !Sets(log[k], id)
    ensures Capped(log + [e], id, higher)
  {
    var log' := log + [e];
    forall k | 0 <= k < |log| ensures log'[k] == log[k] {
    }
  }

  /** One more event about item x, made by (user, h): what has to be known for the invariant to survive. */
  lemma LogKeepsInv(s: State, rows: map<ItemId, Row>, e: Event, x: ItemId)
    requires Inv(s) && Shaped(e) && Subject(e) == x && e.action != Removed
    requires x in rows && e.current == Some(SnapshotOf(x, rows[x])) && rows - {x} == s.rows - {x}
    requires rows[x].version > LastVersion(s.log, x) || Newest(s.log, x).None?
    requires x !in s.rows && Newest(s.log, x).Some? ==> LatestBy(s.log, e.user, e.household, x) == Newest(s.log, x)
    ensures Inv(State(rows, s.log + [e]))
  {
    var s' := State(rows, s.log + [e]);
    forall id: ItemId ensures Agrees(s', id) && VersionsClimb(s'.log, id) {
      NewestAfter(s.log, e, id);
      assert Agrees(s, id) && VersionsClimb(s.log, id);
      assert id != x ==> (id in rows <==> id in rows - {x}) && (id in s.rows <==> id in s.rows - {x});
      assert id != x && id in rows ==> rows[id] == (rows - {x})[id] && s.rows[id] == (s.rows - {x})[id];
      VersionsAfter(s.log, e, id);
    }
    forall user: UserId, h: HouseholdId, id: ItemId ensures RemoverIsLast(s', user, h, id) {
      NewestAfter(s.log, e, id);
      LatestAfter(s.log, e, user, h, id);
      assert RemoverIsLast(s, user, h, id);
      assert Agrees(s, id);
      LatestIsOwn(s.log, user, h, id);
      LatestIsOwn(s.log, e.user, e.household, id);
    }
  }

  // ----- Clearing item references -----

  lemma {:induction false} ClearingKeepsLookups(log: seq<Event>, x: ItemId, user: UserId, h: HouseholdId, id: ItemId)
    requires AllShaped(log)
    ensures Newest(ClearAll(log, x), id) == match Newest(log, id) case None => None case Some(e) => Some(Cleared(e, x))
    ensures LatestBy(ClearAll(log, x), user, h, id) ==
            match LatestBy(log, user, h, id) case None => None case Some(e) => Some(Cleared(e, x))
  {
    if log != [] {
      var front := log[..|log| - 1];
      assert ClearAll(log, x)[..|log| - 1] == ClearAll(front, x);
      assert Shaped(log[|log| - 1]);
      ClearingKeepsLookups(front, x, user, h, id);
    }
  }

  lemma ClearingKeepsVersions(log: seq<Event>, x: ItemId, id: ItemId)
    requires AllShaped(log) && VersionsClimb(log, id)
    ensures VersionsClimb(ClearAll(log, x), id)
  {
    ClearingKeepsLookups(log, x, 0, 0, id);
    var cleared := ClearAll(log, x);
    forall k | 0 <= k < |log| ensures (Sets(cleared[k], id) <==> Sets(log[k], id))
      && cleared[k].current == log[k].current {
      assert Shaped(log[k]);
    }
  }

  /** The event that a deletion logs. */
  function RemovalOf(s: State, user: UserId, h: HouseholdId, x: ItemId): Event
    requires x in s.rows
  {
    Event(h, user, Some(x), Removed, Some(SnapshotOf(x, s.rows[x])), None)
  }

  lemma DeleteKeepsAgreement(s: State, user: UserId, h: HouseholdId, x: ItemId, id: ItemId)
    requires Inv(s) && Present(s, x, h)
    ensures Agrees(Delete(s, user, h, x).value, id)
  {
    var e := RemovalOf(s, user, h, x);
    NewestAfter(s.log, e, id);
    assert AllShaped(s.log + [e]);
    ClearingKeepsLookups(s.log + [e], x, user, h, id);
    assert Agrees(s, id);
  }

  lemma DeleteKeepsVersions(s: State, user: UserId, h: HouseholdId, x: ItemId, id: ItemId)
    requires Inv(s) && Present(s, x, h)
    ensures VersionsClimb(Delete(s, user, h, x).value.log, id)
  {
    var e := RemovalOf(s, user, h, x);
    assert Agrees(s, x) && VersionsClimb(s.log, id);
    VersionsAfter(s.log, e, id);
    assert AllShaped(s.log + [e]);
    ClearingKeepsVersions(s.log + [e], x, id);
  }

  lemma DeleteKeepsRemover(s: State, user: UserId, h: HouseholdId, x: ItemId, u: UserId, g: HouseholdId, id: ItemId)
    requires Inv(s) && Present(s, x, h)
    ensures RemoverIsLast(Delete(s, user, h, x).value, u, g, id)
  {
    var e := RemovalOf(s, user, h, x);
    NewestAfter(s.log, e, id);
    LatestAfter(s.log, e, u, g, id);
    assert AllShaped(s.log + [e]);
    ClearingKeepsLookups(s.log + [e], x, u, g, id);
    NewestIsAbout(s.log, x);
    assert RemoverIsLast(s, u, g, id) && Agrees(s, id) && Agrees(s, x);
  }

  lemma DeleteKeepsInv(s: State, user: UserId, h: HouseholdId, x: ItemId)
    requires Inv(s) && Present(s, x, h)
    ensures Inv(Delete(s, user, h, x).value)
  {
    var s' := Delete(s, user, h, x).value;
    forall id: ItemId ensures Agrees(s', id) {
      DeleteKeepsAgreement(s, user, h, x, id);
    }
    forall id: ItemId ensures VersionsClimb(s'.log, id) {
      DeleteKeepsVersions(s, user, h, x, id);
    }
    forall u: UserId, g: HouseholdId, id: ItemId ensures RemoverIsLast(s', u, g, id) {
      DeleteKeepsRemover(s, user, h, x, u, g, id);
    }
  }

  lemma UndoKeepsInv(s: State, user: UserId, h: HouseholdId, x: ItemId)
    requires Inv(s) && Undo(s, user, h, x).Ok?
    ensures Inv(Undo(s, user, h, x).value)
  {
    LatestIsOwn(s.log, user, h, x);
    var e := LatestBy(s.log, user, h, x).value;
    assert Shaped(e);
    assert Agrees(s, x) && RemoverIsLast(s, user, h, x);
    var s' := Undo(s, user, h, x).value;
    if s' != s {
      LogKeepsInv(s, s'.rows, s'.log[|s.log|], x);
    }
  }

  lemma StepKeepsInv(s: State, op: Op)
    requires Inv(s)
    ensures Inv(Step(s, op))
  {
    if Outcome(s, op).Ok? {
      assert Agrees(s, op.id);
      var s' := Step(s, op);
      match op
      case DoDelete(u, h, id) => DeleteKeepsInv(s, u, h, id);
      case DoUndo(u, h, id) => UndoKeepsInv(s, u, h, id);
      case _ => LogKeepsInv(s, s'.rows, s'.log[|s.log|], op.id);
    }
  }

  lemma {:induction false} RunKeepsInv(s: State, ops: seq<Op>)
    requires Inv(s)
    ensures Inv(Execute(s, ops))
  {
    if ops != [] {
      RunKeepsInv(s, ops[..|ops| - 1]);
      StepKeepsInv(Execute(s, ops[..|ops| - 1]), ops[|ops| - 1]);
    }
  }

  /** The invariant holds after every run of operations by any number of users. */
  lemma ReachableInv(ops: seq<Op>)
    ensures Inv(Execute(Start, ops))
  {
    RunKeepsInv(Start, ops);
  }
}
