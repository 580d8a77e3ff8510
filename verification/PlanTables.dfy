/** The planning tables and the session that writes them. Models the parts of SQLAlchemy's session
    that plan creation and deletion rely on: flushed rows, cascade on delete, commit and rollback. */
module PlanTables {
  import opened Units
  import opened Stock
  import opened Ledgers

  /** A plan has one day per date, so a day is known by its plan and its date. */
  datatype MealPlanDay = MealPlanDay(date: Date, recipe: RecipeId, servings: int)

  datatype MealPlan = MealPlan(id: PlanId, user: UserId, household: HouseholdId, start: Date, end: Date,
      days: seq<MealPlanDay>)

  /** Plans are in order of creation. */
  datatype Tables = Tables(plans: seq<MealPlan>, reservations: seq<Reservation>)

  function Without(plans: seq<MealPlan>, id: PlanId): seq<MealPlan> {
    if plans == [] then []
    else Without(plans[..|plans| - 1], id) + (if plans[|plans| - 1].id != id then [plans[|plans| - 1]] else [])
  }

  function Created(t: Tables, plan: MealPlan, rows: seq<Reservation>): Tables {
    Tables(t.plans + [plan], t.reservations + rows)
  }

  /** Deleting a plan takes its days and its reservation rows along. */
  function Deleted(t: Tables, id: PlanId): Tables {
    Tables(Without(t.plans, id), Others(t.reservations, id))
  }

  lemma {:induction false} WithoutAbsent(plans: seq<MealPlan>, id: PlanId)
    requires forall k :: 0 <= k < |plans| ==> plans[k].id != id
    ensures Without(plans, id) == plans
  {
    if plans != [] {
      var front, last := plans[..|plans| - 1], plans[|plans| - 1];
      WithoutAbsent(front, id);
      assert Without(plans, id) == front + [last];
    }
  }

  lemma {:induction false} WithoutMembers(plans: seq<MealPlan>, id: PlanId)
    ensures forall p :: p in Without(plans, id) <==> p in plans && p.id != id
  {
    if plans != [] {
      WithoutMembers(plans[..|plans| - 1], id);
      assert plans == plans[..|plans| - 1] + [plans[|plans| - 1]];
    }
  }

  /** The plan id has not been used before. */
  ghost predicate Fresh(t: Tables, id: PlanId) {
    (forall p :: p in t.plans ==> p.id != id) && (forall r :: r in t.reservations ==> r.plan != id)
  }

  /** Deleting a plan right after creating it restores every table, row for row. */
  lemma DeleteUndoesCreate(t: Tables, plan: MealPlan, rows: seq<Reservation>)
    requires Fresh(t, plan.id) && forall r :: r in rows ==> r.plan == plan.id
    ensures Deleted(Created(t, plan, rows), plan.id) == t
  {
    OthersAppend(t.reservations, rows, plan.id);
    OthersAll(t.reservations, plan.id);
    OthersAll(rows, plan.id);
    assert t.reservations + [] == t.reservations;
    WithoutAbsent(t.plans, plan.id);
    assert (t.plans + [plan])[..|t.plans|] == t.plans;
    assert t.plans + [] == t.plans;
  }

  /** The row belongs to a live plan and to one of its days. */
  ghost predicate Anchored(t: Tables, r: Reservation) {
    exists p, d :: p in t.plans && p.id == r.plan && d in p.days && d.date == r.day
  }

  ghost predicate UniqueIds(plans: seq<MealPlan>) {
    forall i, j :: 0 <= i < j < |plans| ==> plans[i].id != plans[j].id
  }

  /** What every committed state keeps: plan ids are unique, every row is anchored and positive, and no
      inventory item is reserved beyond its base quantity. */
  ghost predicate Consistent(t: Tables, table: seq<Item>) {
    && UniqueIds(t.plans)
    && (forall r :: r in t.reservations ==> Anchored(t, r) && r.quantity > 0.0)
    && (forall k :: 0 <= k < |table| ==> Taken(t.reservations, {table[k].id}) <= table[k].BaseQuantity())
  }

  lemma {:induction false} WithoutKeepsUnique(plans: seq<MealPlan>, id: PlanId)
    requires UniqueIds(plans)
    ensures UniqueIds(Without(plans, id))
  {
    if plans != [] {
      var front, last := plans[..|plans| - 1], plans[|plans| - 1];
      WithoutKeepsUnique(front, id);
      WithoutMembers(front, id);
      var r := Without(front, id);
      forall i | 0 <= i < |r| ensures r[i].id != last.id {
        assert r[i] in r;
        var j :| 0 <= j < |front| && front[j] == r[i];
        assert plans[j].id != plans[|plans| - 1].id;
      }
      assert UniqueIds(r + [last]);
    }
  }

  lemma CreatedUnique(t: Tables, plan: MealPlan, rows: seq<Reservation>)
    requires UniqueIds(t.plans) && Fresh(t, plan.id)
    ensures UniqueIds(Created(t, plan, rows).plans)
  {
    forall i | 0 <= i < |t.plans| ensures t.plans[i].id != plan.id {
      assert t.plans[i] in t.plans;
    }
  }

  lemma DeleteKeepsConsistent(t: Tables, table: seq<Item>, id: PlanId)
    requires Consistent(t, table)
    ensures Consistent(Deleted(t, id), table)
  {
    var t' := Deleted(t, id);
    WithoutKeepsUnique(t.plans, id);
    WithoutMembers(t.plans, id);
    OthersMembers(t.reservations, id);
    forall r | r in t'.reservations ensures Anchored(t', r) && r.quantity > 0.0 {
      assert Anchored(t, r);
      var p, d :| p in t.plans && p.id == r.plan && d in p.days && d.date == r.day;
      assert p in t'.plans;
    }
    forall k | 0 <= k < |table| ensures Taken(t'.reservations, {table[k].id}) <= table[k].BaseQuantity() {
      OthersTakeNoMore(t.reservations, id, {table[k].id});
    }
  }

  class Session {
    var committed: Tables
    /** The committed tables plus what the open transaction has flushed. */
    var working: Tables

    constructor ()
      ensures committed == working == Tables([], [])
    {
      committed := Tables([], []);
      working := Tables([], []);
    }

    method AddPlan(plan: MealPlan)
      modifies this`working
      ensures working == old(working).(plans := old(working).plans + [plan])
    {
      working := working.(plans := working.plans + [plan]);
    }

    method AddReservation(row: Reservation)
      modifies this`working
      ensures working == old(working).(reservations := old(working).reservations + [row])
    {
      working := working.(reservations := working.reservations + [row]);
    }

    /** In the open transaction the plan is gone with its days and its rows; every other plan stays, and so do
        its rows, in order. */
    method DeletePlan(id: PlanId)
      modifies this`working
      ensures forall p :: p in working.plans <==> p in old(working).plans && p.id != id
      ensures Own(working.reservations, id) == []
      ensures forall plan: PlanId :: plan != id ==>
              Own(working.reservations, plan) == Own(old(working).reservations, plan)
      ensures working == Deleted(old(working), id)
    {
      working := Tables(Without(working.plans, id), Others(working.reservations, id));
      WithoutMembers(old(working).plans, id);
      OthersMembers(old(working).reservations, id);
      OwnNone(working.reservations, id);
      forall plan: PlanId | plan != id ensures Own(working.reservations, plan) == Own(old(working).reservations, plan) {
        OwnOfOthers(old(working).reservations, id, plan);
      }
    }

    method Commit()
      modifies this
      ensures committed == working == old(working)
    {
      committed := working;
    }

    method Rollback()
      modifies this
      ensures committed == working == old(committed)
    {
      working := committed;
    }
  }
}
