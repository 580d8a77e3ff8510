/** The inventory repository, event service and service, changing rows and log step by step.
    Models backend/app/modules/inventory/repository.py, event_service.py and service.py. */
module InventoryService {
  import opened Units
  import opened Rounding
  import opened InventoryLog

  datatype ItemCreate = ItemCreate(displayName: Text, quantity: real, unit: Unit, storage: Text, source: Source,
                                   canonicalName: Option<Text>, canonicalId: Option<nat>, expiry: Option<Date>,
                                   confidence: real)

  /** The catalog and the shelf-life rules: the canonical ingredient of a name, and the expiry date and
      confidence for an ingredient kept in a place. */
  datatype Lookups = Lookups(resolve: Text -> Option<(Text, nat)>, shelfLife: (Text, Text) -> (Date, real))

  function Tidy(quantity: real): real {
    var r := Round3(quantity);
    if r > 0.0 then r else 0.0
  }

  /** The fields a new item gets. */
  function NewFields(data: ItemCreate, env: Lookups): Fields {
    var query := if data.canonicalName.Some? then data.canonicalName.value else data.displayName;
    var found := env.resolve(query);
    var name := if found.Some? then found.value.0 else query;
    var (expiry, confidence) :=
      if data.expiry.Some? then (data.expiry.value, data.confidence)
      else
        var (date, trust) := env.shelfLife(name, data.storage);
        (date, if data.source == Barcode || data.source == Photo then data.confidence else trust);
    Fields(data.displayName, Tidy(data.quantity), data.unit, data.storage, expiry, confidence, Status.Active,
      data.source,
           name, if found.Some? then Some(found.value.1) else data.canonicalId)
  }

  /** The update that reaches the repository: a new display name brings its canonical ingredient along,
      quantities are rounded, and a move or rename without a date gets a new expiry date. */
  function Effective(data: ItemUpdate, f: Fields, env: Lookups): ItemUpdate {
    WithExpiry(WithQuantity(WithIngredient(data, env)), f, env)
  }

  function WithIngredient(data: ItemUpdate, env: Lookups): ItemUpdate {
    if !data.displayName.Set? then data
    else
      var query := if data.canonicalName.Set? then data.canonicalName.value else data.displayName.value;
      match env.resolve(query)
      case Some((name, id)) => data.(canonicalName := Set(name), canonicalId := Set(id))
      case None => data.(canonicalName := Set(query), canonicalId := Null)
  }

  function WithQuantity(data: ItemUpdate): ItemUpdate {
    if data.quantity.Set? then data.(quantity := Set(Tidy(data.quantity.value))) else data
  }

  function WithExpiry(data: ItemUpdate, f: Fields, env: Lookups): ItemUpdate {
    var moved := (data.displayName.Set? && data.displayName.value != f.displayName)
                 || (data.storage.Set? && data.storage.value != f.storage);
    if data.expiry.Set? || !moved then data
    else
      data.(expiry := Set(env.shelfLife(Patched(f.canonicalName, data.canonicalName),
        Patched(f.storage, data.storage)).0))
  }

  /** A rename never leaves the old ingredient behind: the row's canonical name and id are those the
      catalog gives for the new name, or the name itself and no id. The version check is untouched. */
  lemma RenameReplacesIngredient(data: ItemUpdate, f: Fields, env: Lookups)
    requires data.displayName.Set?
    ensures var query := Patched(data.displayName.value, data.canonicalName);
            var g := Apply(f, Effective(data, f, env));
            && g.displayName == data.displayName.value
            && (env.resolve(query).None? ==> g.canonicalName == query && g.canonicalId == None)
            && (env.resolve(query).Some? ==>
               g.canonicalName == env.resolve(query).value.0 && g.canonicalId == Some(env.resolve(query).value.1))
    ensures Effective(data, f, env).version == data.version
  {
  }

  /** A rounded quantity that is never negative. */
  lemma TidyIs(quantity: real)
    ensures Tidy(quantity) == if Round3(quantity) > 0.0 then Round3(quantity) else 0.0
    ensures quantity >= 0.0 ==> -0.0005 <= Tidy(quantity) - quantity <= 0.0005
  {
    RoundIsClose(quantity);
  }

  /** The name and id that the catalog gives, or the query itself and the fall-back id. */
  predicate Named(env: Lookups, query: Text, fallback: Option<nat>, name: Text, id: Option<nat>) {
    if env.resolve(query).Some?
    then name == env.resolve(query).value.0 && id == Some(env.resolve(query).value.1)
    else name == query && id == fallback
  }

  /** What a new item gets, column by column: what was given, with the quantity rounded; the catalog's name for the
      given canonical name, else for the display name; and without a given date the shelf life of that name in its
      place, trusted as the rules say unless the item was scanned. */
  lemma NewFieldsAre(data: ItemCreate, env: Lookups)
    ensures var g := NewFields(data, env);
            && g.displayName == data.displayName && g.unit == data.unit && g.storage == data.storage
            && g.source == data.source && g.status == Status.Active
            && g.quantity == (if Round3(data.quantity) > 0.0 then Round3(data.quantity) else 0.0)
            && Named(env, if data.canonicalName.Some? then data.canonicalName.value else data.displayName,
                     data.canonicalId, g.canonicalName, g.canonicalId)
            && (data.expiry.Some? ==> g.expiry == data.expiry.value && g.confidence == data.confidence)
            && (data.expiry.None? ==>
                  && g.expiry == env.shelfLife(g.canonicalName, data.storage).0
                  && g.confidence == if data.source == Barcode || data.source == Photo then data.confidence
                                     else env.shelfLife(g.canonicalName, data.storage).1)
  {
  }

  /** The row after an update of an item, column by column: what was given, with the quantity rounded, and what was
      left out as it was; a new display name brings the catalog's name and id; a given date is kept, and without one
      a move or a rename brings the shelf life of the new name in the new place. */
  ghost predicate ItemUpdated(data: ItemUpdate, f: Fields, env: Lookups, g: Fields) {
    && Takes(data.displayName, f.displayName, g.displayName)
    && Takes(data.unit, f.unit, g.unit) && Takes(data.storage, f.storage, g.storage)
    && (data.quantity.Set? ==>
          g.quantity == if Round3(data.quantity.value) > 0.0 then Round3(data.quantity.value) else 0.0)
    && (data.quantity.Unset? ==> g.quantity == f.quantity)
    && (data.displayName.Set? ==>
          Named(env, if data.canonicalName.Set? then data.canonicalName.value else data.displayName.value, None,
                g.canonicalName, g.canonicalId))
    && (!data.displayName.Set? ==>
          && Takes(data.canonicalName, f.canonicalName, g.canonicalName)
          && (data.canonicalId.Set? ==> g.canonicalId == Some(data.canonicalId.value))
          && (data.canonicalId.Null? ==> g.canonicalId == None)
          && (data.canonicalId.Unset? ==> g.canonicalId == f.canonicalId))
    && (data.expiry.Set? ==> g.expiry == data.expiry.value)
    && (data.expiry.Unset? ==>
          g.expiry == if g.displayName != f.displayName || g.storage != f.storage
                      then env.shelfLife(g.canonicalName, g.storage).0 else f.expiry)
    && g.confidence == f.confidence && g.status == f.status && g.source == f.source
  }

  lemma EffectiveUpdates(data: ItemUpdate, f: Fields, env: Lookups)
    ensures ItemUpdated(data, f, env, Apply(f, Effective(data, f, env)))
  {
  }

  /** The two tables. */
  class Store {
    var rows: map<ItemId, Row>
    var log: seq<Event>

    constructor ()
      ensures State() == Start
    {
      rows, log := map[], [];
    }

    ghost function State(): InventoryLog.State
      reads this
    {
      InventoryLog.State(rows, log)
    }
  }

  class Repository {
    const store: Store

    constructor (store: Store)
      ensures this.store == store
    {
      this.store := store;
    }

    method Create(id: ItemId, user: UserId, h: HouseholdId, fields: Fields) returns (row: Row)
      modifies store
      ensures row == Row(user, h, fields, 1) && store.rows == old(store.rows)[id := row] && store.log == old(store.log)
    {
      row := Row(user, h, fields, 1);
      store.rows := store.rows[id := row];
    }

    method GetById(id: ItemId, h: HouseholdId) returns (row: Option<Row>)
      ensures row == if id in store.rows && store.rows[id].household == h then Some(store.rows[id]) else None
    {
      row := if id in store.rows && store.rows[id].household == h then Some(store.rows[id]) else None;
    }

    /** Sets the given fields one after the other; a refused null rolls all of them back. */
    method Update(id: ItemId, h: HouseholdId, data: ItemUpdate) returns (result: Result<Row>)
      modifies store
      ensures store.log == old(store.log)
      ensures result == if !Present(old(store.State()), id, h) then Err(NotFound)
                        else if Stale(old(store.rows[id]), data.version) then Err(StaleData)
                        else if WritesNull(data) then Err(NullViolation)
                        else Ok(old(store.rows[id]).(fields := Apply(old(store.rows[id].fields), data),
                          version := old(store.rows[id].version) + 1))
      ensures store.rows == if result.Ok? then old(store.rows)[id := result.value] else old(store.rows)
      ensures result == Err(NotFound) <==> id !in old(store.rows) || old(store.rows)[id].household != h
      ensures result == Err(StaleData) <==>
              && id in old(store.rows) && old(store.rows)[id].household == h
              && data.version.Some? && data.version.value != old(store.rows)[id].version
      ensures result.Ok? || result == Err(NullViolation) ==>
                (result == Err(NullViolation) <==>
                   || data.displayName.Null? || data.quantity.Null? || data.unit.Null? || data.storage.Null?
                   || data.canonicalName.Null? || data.expiry.Null?)
      ensures result.Ok? ==>
                var before, row := old(store.rows)[id], result.value;
                && Patches(before.fields, data, row.fields)
                && row.user == before.user && row.household == before.household && row.version == before.version + 1
    {
      var found := GetById(id, h);
      if found.None? {
        return Err(NotFound);
      }
      var row := found.value;
      if data.version.Some? && row.version != data.version.value {
        return Err(StaleData);
      }
      if WritesNull(data) {
        return Err(NullViolation);
      }
      var fields := SetFields(row.fields, data);
      row := row.(fields := fields, version := row.version + 1);
      store.rows := store.rows[id := row];
      result := Ok(row);
    }

    static method SetFields(before: Fields, data: ItemUpdate) returns (f: Fields)
      ensures f == Apply(before, data) && Patches(before, data, f)
    {
      f := before;
      if data.displayName.Set? { f := f.(displayName := data.displayName.value); }
      if data.quantity.Set? { f := f.(quantity := data.quantity.value); }
      if data.unit.Set? { f := f.(unit := data.unit.value); }
      if data.storage.Set? { f := f.(storage := data.storage.value); }
      if data.canonicalName.Set? { f := f.(canonicalName := data.canonicalName.value); }
      if data.canonicalId.Set? { f := f.(canonicalId := Some(data.canonicalId.value)); }
      if data.canonicalId.Null? { f := f.(canonicalId := None); }
      if data.expiry.Set? { f := f.(expiry := data.expiry.value); }
      ApplyPatches(before, data);
    }

    method UpdateStatus(id: ItemId, h: HouseholdId, status: Status, expected: Option<int>) returns (result: Result<Row>)
      modifies store
      ensures store.log == old(store.log)
      ensures result == if id !in old(store.rows) || old(store.rows)[id].household != h then Err(NotFound)
                        else if expected.Some? && expected.value != old(store.rows)[id].version then Err(StaleData)
                        else Ok(old(store.rows[id]).(fields := old(store.rows[id].fields).(status := status),
                          version := old(store.rows[id].version) + 1))
      ensures store.rows == if result.Ok? then old(store.rows)[id := result.value] else old(store.rows)
    {
      var found := GetById(id, h);
      if found.None? {
        return Err(NotFound);
      }
      var row := found.value;
      if expected.Some? && row.version != expected.value {
        return Err(StaleData);
      }
      row := row.(fields := row.fields.(status := status), version := row.version + 1);
      store.rows := store.rows[id := row];
      result := Ok(row);
    }

    /** Clears the item reference of the item's events, then deletes the row. */
    method Delete(id: ItemId, h: HouseholdId) returns (deleted: Option<Row>)
      modifies store
      ensures deleted == if id in old(store.rows) && old(store.rows)[id].household == h then Some(old(store.rows)[id])
                         else None
      ensures store.rows == if deleted.Some? then old(store.rows) - {id} else old(store.rows)
      ensures store.log == if deleted.Some? then ClearAll(old(store.log), id) else old(store.log)
      ensures deleted.Some? ==> |store.log| == |old(store.log)|
      ensures deleted.Some? ==> forall k :: 0 <= k < |store.log| ==>
                store.log[k] == old(store.log)[k].(item := if old(store.log)[k].item == Some(id) then None
                                                           else old(store.log)[k].item)
    {
      deleted := GetById(id, h);
      if deleted.None? {
        return;
      }
      var log: seq<Event> := [];
      for k := 0 to |store.log|
        invariant |log| == k && forall j :: 0 <= j < k ==> log[j] == Cleared(store.log[j], id)
      {
        log := log + [Cleared(store.log[k], id)];
      }
      store.log := log;
      store.rows := store.rows - {id};
    }
  }

  class EventService {
    const store: Store

    constructor (store: Store)
      ensures this.store == store
    {
      this.store := store;
    }

    method LogEvent(h: HouseholdId, user: UserId, item: Option<ItemId>, action: Action, previous: Option<Snapshot>,
        current: Option<Snapshot>)
      modifies store`log
      ensures store.log == old(store.log) + [Event(h, user, item, action, previous, current)]
    {
      store.log := store.log + [Event(h, user, item, action, previous, current)];
    }

    /** Scans the caller's events, newest first. */
    method FindLatest(user: UserId, h: HouseholdId, id: ItemId) returns (found: Option<Event>)
      ensures found == LatestBy(store.log, user, h, id)
    {
      var k := |store.log|;
      assert store.log[..k] == store.log;
      while k > 0
        invariant 0 <= k <= |store.log|
        invariant LatestBy(store.log, user, h, id) == LatestBy(store.log[..k], user, h, id)
      {
        var e := store.log[k - 1];
        assert store.log[..k][..k - 1] == store.log[..k - 1];
        if e.user == user && e.household == h && About(e, id) {
          return Some(e);
        }
        k := k - 1;
      }
      found := None;
    }

    /** Undoes the caller's latest event on the item. None is the source's "nothing to return". */
    method UndoLast(id: ItemId, user: UserId, h: HouseholdId) returns (result: Result<Row>)
      modifies store
      ensures match Undo(old(store.State()), user, h, id)
              case Ok(s) => store.State() == s && id in s.rows && result == Ok(s.rows[id])
              case Err(e) => store.State() == old(store.State()) && result == Err(e)
      ensures result.Ok? ==> LatestBy(old(store.log), user, h, id).Some?
      ensures result.Ok? && store.State() != old(store.State()) ==>
                && store.rows == old(store.rows)[id := result.value]
                && store.log == old(store.log) +
                     [Event(h, user, Some(id), Undone, LatestBy(old(store.log), user, h, id).value.current,
                            Some(Snapshot(id, result.value.user, result.value.household, result.value.fields,
                                          result.value.version)))]
    {
      var found := FindLatest(user, h, id);
      if found.None? {
        return Err(NotFound);
      }
      var event := found.value;
      if event.action == Removed {
        if event.previous.None? {
          return Err(NotFound);
        }
        var p := event.previous.value;
        var currentVersion := if event.current.Some? then event.current.value.version else 0;
        var version := Later(p.version, currentVersion) + 1;
        if id in store.rows {
          return Err(DuplicateKey);
        }
        var restored := Row(user, p.household, p.fields, version);
        store.rows := store.rows[id := restored];
        LogEvent(h, user, Some(id), Undone, event.current, Some(SnapshotOf(id, restored)));
        return Ok(restored);
      }
      if id !in store.rows || store.rows[id].household != h {
        return Err(NotFound);
      }
      var row := store.rows[id];
      if event.previous.None? {
        return Ok(row);
      }
      row := row.(household := event.previous.value.household, fields := event.previous.value.fields,
        version := row.version + 1);
      store.rows := store.rows[id := row];
      LogEvent(h, user, Some(id), Undone, event.current, Some(SnapshotOf(id, row)));
      result := Ok(row);
    }
  }

  class Service {
    const store: Store
    const repository: Repository
    const events: EventService
    const env: Lookups

    constructor (env: Lookups)
      ensures Wired() && store.State() == Start && this.env == env
    {
      var s := new Store();
      var r := new Repository(s);
      var e := new EventService(s);
      store, repository, events := s, r, e;
      this.env := env;
    }

    predicate Wired() {
      repository.store == store && events.store == store
    }

    /** The id is one never used before. */
    method CreateItem(user: UserId, h: HouseholdId, data: ItemCreate, id: ItemId) returns (row: Row)
      requires Wired() && Unused(store.State(), id)
      modifies store
      ensures store.State() == Step(old(store.State()), DoCreate(user, h, id, NewFields(data, env)))
      ensures row == Row(user, h, NewFields(data, env), 1) && store.rows == old(store.rows)[id := row]
      ensures store.log == old(store.log) + [Event(h, user, Some(id), Added, None,
                                                   Some(Snapshot(id, user, h, row.fields, 1)))]
    {
      row := repository.Create(id, user, h, NewFields(data, env));
      events.LogEvent(h, user, Some(id), Added, None, Some(SnapshotOf(id, row)));
    }

    method UpdateItem(id: ItemId, user: UserId, h: HouseholdId, data: ItemUpdate) returns (result: Result<Row>)
      requires Wired()
      modifies store
      ensures if Present(old(store.State()), id, h) then
                var op := DoUpdate(user, h, id, Effective(data, old(store.rows[id].fields), env));
                && store.State() == Step(old(store.State()), op)
                && (result.Ok? <==> Outcome(old(store.State()), op).Ok?)
              else result == Err(NotFound) && store.State() == old(store.State())
      ensures result.Err? ==> store.State() == old(store.State())
      ensures result == Err(NotFound) <==> id !in old(store.rows) || old(store.rows)[id].household != h
      ensures result == Err(StaleData) <==>
              && id in old(store.rows) && old(store.rows)[id].household == h
              && data.version.Some? && data.version.value != old(store.rows)[id].version
      ensures result.Ok? ==>
                var before, row := old(store.rows)[id], result.value;
                && store.rows == old(store.rows)[id := row]
                && ItemUpdated(data, before.fields, env, row.fields)
                && row.user == before.user && row.household == before.household && row.version == before.version + 1
                && store.log == old(store.log) +
                     [Event(h, user, Some(id), Updated,
                            Some(Snapshot(id, before.user, before.household, before.fields, before.version)),
                            Some(Snapshot(id, row.user, row.household, row.fields, row.version)))]
    {
      var existing := repository.GetById(id, h);
      if existing.None? {
        return Err(NotFound);
      }
      var previous := SnapshotOf(id, existing.value);
      EffectiveUpdates(data, existing.value.fields, env);
      result := repository.Update(id, h, Effective(data, existing.value.fields, env));
      if result.Err? {
        return;
      }
      events.LogEvent(h, user, Some(id), Updated, Some(previous), Some(SnapshotOf(id, result.value)));
    }

    method UpdateStatus(id: ItemId, user: UserId, h: HouseholdId, status: Status, version: Option<int>)
        returns (result: Result<Row>)
      requires Wired()
      modifies store
      ensures store.State() == Step(old(store.State()), DoStatus(user, h, id, status, version))
      ensures result.Ok? <==> Outcome(old(store.State()), DoStatus(user, h, id, status, version)).Ok?
      ensures result.Err? ==> store.State() == old(store.State())
      ensures result == Err(NotFound) <==> id !in old(store.rows) || old(store.rows)[id].household != h
      ensures result == Err(StaleData) <==>
              && id in old(store.rows) && old(store.rows)[id].household == h
              && version.Some? && version.value != old(store.rows)[id].version
      ensures result.Ok? ==>
                var before, row := old(store.rows)[id], result.value;
                && store.rows == old(store.rows)[id := row]
                && row == Row(before.user, before.household, before.fields.(status := status), before.version + 1)
                && store.log == old(store.log) +
                     [Event(h, user, Some(id), StatusUpdated,
                            Some(Snapshot(id, before.user, before.household, before.fields, before.version)),
                            Some(Snapshot(id, row.user, row.household, row.fields, row.version)))]
    {
      var existing := repository.GetById(id, h);
      if existing.None? {
        return Err(NotFound);
      }
      var previous := SnapshotOf(id, existing.value);
      result := repository.UpdateStatus(id, h, status, version);
      if result.Err? {
        return;
      }
      events.LogEvent(h, user, Some(id), StatusUpdated, Some(previous), Some(SnapshotOf(id, result.value)));
    }

    /** Logs the removal first, then deletes the row and clears the references, the new event's included. */
    method DeleteItem(id: ItemId, user: UserId, h: HouseholdId) returns (result: Result<()>)
      requires Wired()
      modifies store
      ensures store.State() == Step(old(store.State()), DoDelete(user, h, id))
      ensures result.Ok? <==> Outcome(old(store.State()), DoDelete(user, h, id)).Ok?
      ensures result.Err? ==>
                && result == Err(NotFound) && store.State() == old(store.State())
                && (id !in old(store.rows) || old(store.rows)[id].household != h)
      ensures result.Ok? ==>
                var before := old(store.rows)[id];
                && before.household == h && store.rows == old(store.rows) - {id}
                && |store.log| == |old(store.log)| + 1
                && store.log[|old(store.log)|] ==
                   Event(h, user, None, Removed,
                         Some(Snapshot(id, before.user, before.household, before.fields, before.version)), None)
      ensures result.Ok? ==> forall k :: 0 <= k < |old(store.log)| ==>
                store.log[k] == old(store.log)[k].(item := if old(store.log)[k].item == Some(id) then None
                                                           else old(store.log)[k].item)
    {
      var existing := repository.GetById(id, h);
      if existing.None? {
        return Err(NotFound);
      }
      events.LogEvent(h, user, Some(id), Removed, Some(SnapshotOf(id, existing.value)), None);
      var deleted := repository.Delete(id, h);
      if deleted.None? {
        return Err(NotFound);
      }
      result := Ok(());
    }

    method UndoLastEvent(id: ItemId, user: UserId, h: HouseholdId) returns (result: Result<Row>)
      requires Wired()
      modifies store
      ensures store.State() == Step(old(store.State()), DoUndo(user, h, id))
      ensures result.Ok? <==> Outcome(old(store.State()), DoUndo(user, h, id)).Ok?
      ensures result.Ok? && store.State() != old(store.State()) ==>
                && store.rows == old(store.rows)[id := result.value]
                && store.log == old(store.log) +
                     [Event(h, user, Some(id), Undone, LatestBy(old(store.log), user, h, id).value.current,
                            Some(Snapshot(id, result.value.user, result.value.household, result.value.fields,
                                          result.value.version)))]
    {
      result := events.UndoLast(id, user, h);
    }
  }
}
