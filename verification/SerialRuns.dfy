/** What each step of the transactions does to the tables, and the run of one transaction alone: it exists,
    and ends in the tables that the service commits. */
module SerialRuns {
  import opened Units
  import opened Stock
  import opened Ledgers
  import opened ReservationRun
  import opened PlanTables
  import opened Transactions
  import opened Interleavings
  import Simulation
  import P = Planner
  import PlanningService

  // ----- What one step does to the tables -----

  /** The state after one more action. */
  lemma OneMoreAction(stock: seq<Item>, actions: seq<Action>, a: Action)
    requires Execute(stock, actions).Some? && Enabled(stock, Execute(stock, actions).value, a)
    ensures Execute(stock, actions + [a]) == Some(Step(stock, Execute(stock, actions).value, a))
  {
    assert (actions + [a])[..|actions|] == actions;
  }

  lemma LastAction(stock: seq<Item>, actions: seq<Action>, a: Action)
    requires Execute(stock, actions + [a]).Some?
    ensures Execute(stock, actions).Some? && Enabled(stock, Execute(stock, actions).value, a)
    ensures Execute(stock, actions + [a]) == Some(Step(stock, Execute(stock, actions).value, a))
  {
    assert (actions + [a])[..|actions|] == actions;
  }

  /** Transaction t holds no lock in s', and the others hold theirs. */
  ghost predicate LocksReleased(s: State, s': State, t: TxnId) {
    && (forall id :: id in s'.locks ==> s'.locks[id] != t)
    && (forall id :: id in s.locks && s.locks[id] != t ==> id in s'.locks && s'.locks[id] == s.locks[id])
  }

  /** In every interleaving, the commit of a creation appends its plan and stores its rows, which are those of the
      reservation run over all its lines; every other plan's rows stay as they were, and its locks are released. */
  lemma CommitStores(stock: seq<Item>, actions: seq<Action>, t: TxnId)
    requires Distinct(stock) && Execute(stock, actions + [Commit(t)]).Some?
    requires Execute(stock, actions).Some? && Execute(stock, actions).value.At(t).Reserving?
    ensures var s, s' := Execute(stock, actions).value, Execute(stock, actions + [Commit(t)]).value;
            var d := s.At(t).draft;
            && s'.tables.plans == s.tables.plans + [d.plan]
            && Own(s'.tables.reservations, d.plan.id) == d.run.rows
            && (forall id: PlanId :: id != d.plan.id ==>
                  Own(s'.tables.reservations, id) == Own(s.tables.reservations, id))
            && s'.At(t) == Answering(d) && LocksReleased(s, s', t)
    ensures var s := Execute(stock, actions).value; var d := s.At(t).draft;
            && s.At(t).todo == []
            && ReserveLines(ActiveInventory(stock, d.plan.household), LedgerOf(d.before), d.plan.id, d.done) ==
               Ok(d.run)
  {
    LastAction(stock, actions, Commit(t));
    RunKeepsInv(stock, actions);
    var s := Execute(stock, actions).value;
    var s' := Step(stock, s, Commit(t));
    var d := s.At(t).draft;
    assert PhaseOk(stock, s, t);
    DraftRows(stock, d);
    forall id: PlanId
      ensures Own(s'.tables.reservations, id) ==
              Own(s.tables.reservations, id) + (if id == d.plan.id then d.run.rows else [])
    {
      OwnAppend(s.tables.reservations, d.run.rows, id);
      if id == d.plan.id {
        OwnAll(d.run.rows, id);
      } else {
        OwnNone(d.run.rows, id);
      }
    }
    OwnNone(s.tables.reservations, d.plan.id);
  }

  /** What a transaction has to reserve is what it read: each action leaves its plan, the rows it read, and the lines
      done and to do taken together. */
  lemma DemandStays(stock: seq<Item>, actions: seq<Action>, a: Action, t: TxnId)
    requires Execute(stock, actions + [a]).Some?
    requires Execute(stock, actions).Some? && Execute(stock, actions).value.At(t).Reserving?
    requires Execute(stock, actions + [a]).value.At(t).Reserving?
    ensures var p, p' := Execute(stock, actions).value.At(t), Execute(stock, actions + [a]).value.At(t);
            && p'.draft.plan == p.draft.plan && p'.draft.before == p.draft.before
            && p'.draft.done + p'.todo == p.draft.done + p.todo
  {
    LastAction(stock, actions, a);
    var p := Execute(stock, actions).value.At(t);
    if a == Insert(t) {
      assert (p.draft.done + [p.todo[0]]) + p.todo[1..] == p.draft.done + p.todo;
    }
  }

  /** A read starts from the lines given, over the other plans' rows as they are committed. */
  lemma ReadStarts(stock: seq<Item>, actions: seq<Action>, t: TxnId, plan: MealPlan, lines: seq<Line>)
    requires Execute(stock, actions + [Read(t, plan, lines)]).Some?
    ensures Execute(stock, actions).Some?
    ensures var s, s' := Execute(stock, actions).value, Execute(stock, actions + [Read(t, plan, lines)]).value;
            && s'.At(t).Reserving? && s'.At(t).draft.plan == plan && s'.At(t).draft.before == s.tables.reservations
            && s'.At(t).draft.done == [] && s'.At(t).todo == lines
  {
    LastAction(stock, actions, Read(t, plan, lines));
    OthersAll(Execute(stock, actions).value.tables.reservations, plan.id);
  }

  /** In every interleaving, the commit of a deletion removes exactly the plan with its rows. */
  lemma CommitRemoves(stock: seq<Item>, actions: seq<Action>, t: TxnId)
    requires Execute(stock, actions + [Commit(t)]).Some?
    requires Execute(stock, actions).Some? && Execute(stock, actions).value.At(t).Deleting?
    ensures var s, s' := Execute(stock, actions).value, Execute(stock, actions + [Commit(t)]).value;
            var doomed := s.At(t).doomed;
            && (forall p :: p in s'.tables.plans <==> p in s.tables.plans && p.id != doomed)
            && Own(s'.tables.reservations, doomed) == []
            && (forall id: PlanId :: id != doomed ==> Own(s'.tables.reservations, id) == Own(s.tables.reservations, id))
            && s'.At(t).Idle? && LocksReleased(s, s', t)
  {
    LastAction(stock, actions, Commit(t));
    var s := Execute(stock, actions).value;
    var s' := Step(stock, s, Commit(t));
    var doomed := s.At(t).doomed;
    WithoutMembers(s.tables.plans, doomed);
    OthersMembers(s.tables.reservations, doomed);
    OwnNone(s'.tables.reservations, doomed);
    forall id: PlanId | id != doomed ensures Own(s'.tables.reservations, id) == Own(s.tables.reservations, id) {
      OwnOfOthers(s.tables.reservations, doomed, id);
    }
  }

  /** Nothing but a commit changes a table. */
  lemma OnlyCommitsWrite(stock: seq<Item>, actions: seq<Action>, a: Action)
    requires Execute(stock, actions + [a]).Some? && !a.Commit?
    ensures Execute(stock, actions).Some?
    ensures Execute(stock, actions + [a]).value.tables == Execute(stock, actions).value.tables
  {
    LastAction(stock, actions, a);
  }

  /** A transaction that has begun can always be rolled back, which writes nothing and releases its locks. */
  lemma CanRollBack(stock: seq<Item>, actions: seq<Action>, t: TxnId)
    requires Execute(stock, actions).Some? && !Execute(stock, actions).value.At(t).Idle?
    ensures Execute(stock, actions + [Rollback(t)]).Some?
    ensures var s, s' := Execute(stock, actions).value, Execute(stock, actions + [Rollback(t)]).value;
            s'.tables == s.tables && s'.At(t).Idle? && LocksReleased(s, s', t)
  {
    OneMoreAction(stock, actions, Rollback(t));
  }

  /** A transaction that has committed its plan can always answer, which writes nothing and ends it. */
  lemma CanAnswer(stock: seq<Item>, actions: seq<Action>, t: TxnId)
    requires Execute(stock, actions).Some? && Execute(stock, actions).value.At(t).Answering?
    ensures Execute(stock, actions + [Answer(t)]).Some?
    ensures var s, s' := Execute(stock, actions).value, Execute(stock, actions + [Answer(t)]).value;
            s'.tables == s.tables && s'.locks == s.locks && s'.At(t).Idle?
  {
    OneMoreAction(stock, actions, Answer(t));
  }

  // ----- One transaction alone -----

  /** Where t may begin: it is idle, holds nothing, and nobody has locked an item. */
  ghost predicate Quiet(s: State, t: TxnId) {
    s.At(t).Idle? && s.locks == map[]
  }

  /** t has locked the first k of the items. */
  ghost predicate LockedUpTo(s: State, t: TxnId, h: HouseholdId, mine: seq<Item>, k: nat) {
    && k <= |mine| && s.At(t) == Locking(h, Ids(mine[..k]))
    && s.locks.Keys == Ids(mine[..k]) && forall id :: id in s.locks ==> s.locks[id] == t
  }

  lemma IdsNext(mine: seq<Item>, k: nat)
    requires k < |mine|
    ensures Ids(mine[..k + 1]) == Ids(mine[..k]) + {mine[k].id}
  {
    assert mine[..k + 1] == mine[..k] + [mine[k]];
  }

  lemma IdsApart(mine: seq<Item>, k: nat)
    requires Distinct(mine) && k < |mine|
    ensures mine[k].id !in Ids(mine[..k])
  {
    forall x | x in mine[..k] ensures x.id != mine[k].id {
      var j :| 0 <= j < k && mine[..k][j] == x;
    }
  }

  /** The actions lead to state s. */
  ghost predicate LeadTo(stock: seq<Item>, actions: seq<Action>, s: State) {
    Execute(stock, actions) == Some(s)
  }

  lemma OneMore(stock: seq<Item>, actions: seq<Action>, s: State, a: Action)
    requires LeadTo(stock, actions, s) && Enabled(stock, s, a)
    ensures LeadTo(stock, actions + [a], Step(stock, s, a))
  {
    OneMoreAction(stock, actions, a);
  }

  lemma OneLater(stock: seq<Item>, actions: seq<Action>, more: seq<Action>, s: State, a: Action)
    requires LeadTo(stock, actions + more, s) && Enabled(stock, s, a)
    ensures LeadTo(stock, actions + (more + [a]), Step(stock, s, a))
  {
    assert actions + (more + [a]) == (actions + more) + [a];
    OneMore(stock, actions + more, s, a);
  }

  lemma LockOne(stock: seq<Item>, s: State, t: TxnId, h: HouseholdId, k: nat) returns (s': State)
    requires Distinct(stock) && k < |ActiveInventory(stock, h)| && LockedUpTo(s, t, h, ActiveInventory(stock, h), k)
    ensures var a := Lock(t, ActiveInventory(stock, h)[k].id); Enabled(stock, s, a) && s' == Step(stock, s, a)
    ensures LockedUpTo(s', t, h, ActiveInventory(stock, h), k + 1) && s'.tables == s.tables
    ensures forall u: TxnId :: u != t ==> s'.At(u) == s.At(u)
  {
    var mine := ActiveInventory(stock, h);
    IdsNext(mine, k);
    IdsApart(mine, k);
    assert mine[k] in mine;
    s' := Step(stock, s, Lock(t, mine[k].id));
  }

  /** All rows can be locked one by one. */
  lemma {:induction false} LockAll(stock: seq<Item>, actions: seq<Action>, s: State, t: TxnId, h: HouseholdId, k: nat)
    returns (more: seq<Action>, s': State)
    requires Distinct(stock) && LeadTo(stock, actions, s) && Quiet(s, t)
    requires k <= |ActiveInventory(stock, h)|
    ensures LeadTo(stock, actions + more, s') && s'.tables == s.tables
    ensures LockedUpTo(s', t, h, ActiveInventory(stock, h), k) && forall u: TxnId :: u != t ==> s'.At(u) == s.At(u)
  {
    var mine := ActiveInventory(stock, h);
    if k == 0 {
      more, s' := [BeginGenerate(t, h)], Step(stock, s, BeginGenerate(t, h));
      OneMore(stock, actions, s, BeginGenerate(t, h));
      assert mine[..0] == [];
    } else {
      var earlier, before := LockAll(stock, actions, s, t, h, k - 1);
      s' := LockOne(stock, before, t, h, k - 1);
      OneLater(stock, actions, earlier, before, Lock(t, mine[k - 1].id));
      more := earlier + [Lock(t, mine[k - 1].id)];
    }
  }

  /** t has reserved the lines done, over the rows it read, with those to do left. */
  ghost predicate InMaking(s: State, t: TxnId, plan: MealPlan, before: seq<Reservation>, done: seq<Line>, run: Run,
                           todo: seq<Line>) {
    s.At(t) == Reserving(Draft(plan, before, done, run), todo)
  }

  /** The run over the rows read, as a result. */
  function RunOf(stock: seq<Item>, plan: MealPlan, before: seq<Reservation>, lines: seq<Line>): Result<Run> {
    ReserveLines(ActiveInventory(stock, plan.household), LedgerOf(before), plan.id, lines)
  }

  /** One line more, if the whole run succeeds. */
  lemma InsertOne(stock: seq<Item>, s: State, t: TxnId, plan: MealPlan, before: seq<Reservation>, done: seq<Line>,
                  run: Run, todo: seq<Line>) returns (next: Run, s': State)
    requires InMaking(s, t, plan, before, done, run, todo) && todo != []
    requires RunOf(stock, plan, before, done) == Ok(run) && RunOf(stock, plan, before, done + todo).Ok?
    ensures RunOf(stock, plan, before, done + [todo[0]]) == Ok(next)
    ensures Enabled(stock, s, Insert(t)) && s' == Step(stock, s, Insert(t))
    ensures InMaking(s', t, plan, before, done + [todo[0]], next, todo[1..])
    ensures (done + [todo[0]]) + todo[1..] == done + todo
    ensures s'.tables == s.tables && s'.locks == s.locks
  {
    var mine, external := ActiveInventory(stock, plan.household), LedgerOf(before);
    assert done + todo == (done + [todo[0]]) + todo[1..];
    if RunOf(stock, plan, before, done + [todo[0]]).Insufficient? {
      FailureExtends(mine, external, plan.id, done + [todo[0]], todo[1..]);
    }
    OneMoreLine(mine, external, plan.id, done, todo[0]);
    next := RunOf(stock, plan, before, done + [todo[0]]).value;
    s' := Step(stock, s, Insert(t));
  }

  /** If the whole run succeeds, the lines to do can be inserted one by one. */
  lemma {:induction false} InsertAll(stock: seq<Item>, actions: seq<Action>, s: State, t: TxnId, plan: MealPlan,
                                     before: seq<Reservation>, done: seq<Line>, run: Run, todo: seq<Line>)
    returns (more: seq<Action>, s': State, last: Run)
    requires LeadTo(stock, actions, s) && InMaking(s, t, plan, before, done, run, todo)
    requires RunOf(stock, plan, before, done) == Ok(run) && RunOf(stock, plan, before, done + todo).Ok?
    ensures RunOf(stock, plan, before, done + todo) == Ok(last)
    ensures LeadTo(stock, actions + more, s') && InMaking(s', t, plan, before, done + todo, last, [])
    ensures s'.tables == s.tables && s'.locks == s.locks
    decreases |todo|
  {
    if todo == [] {
      more, s', last := [], s, run;
      assert actions + [] == actions && done + todo == done;
    } else {
      var next, after := InsertOne(stock, s, t, plan, before, done, run, todo);
      OneMore(stock, actions, s, Insert(t));
      var later;
      later, s', last := InsertAll(stock, actions + [Insert(t)], after, t, plan, before, done + [todo[0]], next,
                                   todo[1..]);
      more := [Insert(t)] + later;
      Chains(stock, actions, Insert(t), later, s');
    }
  }

  lemma Chains(stock: seq<Item>, actions: seq<Action>, a: Action, later: seq<Action>, s: State)
    requires LeadTo(stock, (actions + [a]) + later, s)
    ensures LeadTo(stock, actions + ([a] + later), s)
  {
    assert actions + ([a] + later) == (actions + [a]) + later;
  }

  /** Every lock is t's. */
  ghost predicate OnlyLocksOf(s: State, t: TxnId) {
    forall id :: id in s.locks ==> s.locks[id] == t
  }

  /** A quiet transaction can lock all its rows and read the table. */
  lemma LockAndRead(stock: seq<Item>, actions: seq<Action>, s: State, t: TxnId, plan: MealPlan, lines: seq<Line>)
    returns (more: seq<Action>, s': State)
    requires Distinct(stock) && LeadTo(stock, actions, s) && Quiet(s, t)
    requires NeverDrawn(s, plan.id) && DaysIn(lines, plan)
    ensures LeadTo(stock, actions + more, s') && s'.tables == s.tables && OnlyLocksOf(s', t)
    ensures InMaking(s', t, plan, s.tables.reservations, [], Run(LedgerOf(s.tables.reservations), []), lines)
  {
    var mine := ActiveInventory(stock, plan.household);
    var locking, locked := LockAll(stock, actions, s, t, plan.household, |mine|);
    assert mine[..|mine|] == mine;
    assert forall u: TxnId :: locked.At(u).HasDraft() ==> u != t && locked.At(u) == s.At(u);
    var read := Read(t, plan, lines);
    OthersAll(s.tables.reservations, plan.id);
    more, s' := locking + [read], Step(stock, locked, read);
    OneLater(stock, actions, locking, locked, read);
  }

  /** A transaction that has inserted all its rows can commit them. */
  lemma CommitAll(stock: seq<Item>, s: State, t: TxnId, plan: MealPlan, before: seq<Reservation>, lines: seq<Line>,
                  run: Run) returns (s': State)
    requires InMaking(s, t, plan, before, lines, run, []) && OnlyLocksOf(s, t)
    ensures Enabled(stock, s, Commit(t)) && s' == Step(stock, s, Commit(t))
    ensures s'.tables == Tables(s.tables.plans + [plan], s.tables.reservations + run.rows)
    ensures s'.At(t).Answering? && s'.locks == map[]
  {
    s' := Step(stock, s, Commit(t));
  }

  /** With nobody else holding a lock, a plan whose lines can be reserved is created by some run, which ends in
      the tables with the plan and the run's rows appended and no lock held. */
  lemma SerialCreation(stock: seq<Item>, actions: seq<Action>, s: State, t: TxnId, plan: MealPlan, lines: seq<Line>,
                       run: Run) returns (more: seq<Action>, s': State)
    requires Distinct(stock) && Execute(stock, actions) == Some(s) && Quiet(s, t)
    requires NeverDrawn(s, plan.id) && DaysIn(lines, plan)
    requires ReserveLines(ActiveInventory(stock, plan.household), LedgerOf(s.tables.reservations), plan.id, lines) ==
             Ok(run)
    ensures Execute(stock, actions + more) == Some(s')
    ensures s'.tables == Tables(s.tables.plans + [plan], s.tables.reservations + run.rows)
    ensures s'.At(t).Answering? && s'.locks == map[]
  {
    var before := s.tables.reservations;
    var reading, read := LockAndRead(stock, actions, s, t, plan, lines);
    assert [] + lines == lines;
    var inserting, inserted, last := InsertAll(stock, actions + reading, read, t, plan, before, [],
                                               Run(LedgerOf(before), []), lines);
    assert (actions + reading) + inserting == actions + (reading + inserting);
    s' := CommitAll(stock, inserted, t, plan, before, lines, run);
    OneLater(stock, actions, reading + inserting, inserted, Commit(t));
    more := (reading + inserting) + [Commit(t)];
  }

  /** And a deletion alone takes the plan and its rows away again. */
  lemma SerialDeletion(stock: seq<Item>, actions: seq<Action>, t: TxnId, id: PlanId)
    requires Execute(stock, actions).Some? && Execute(stock, actions).value.At(t).Idle?
    ensures var run := actions + [BeginDelete(t, id), Commit(t)];
            && Execute(stock, run).Some?
            && var s, s' := Execute(stock, actions).value, Execute(stock, run).value;
               && (forall p :: p in s'.tables.plans <==> p in s.tables.plans && p.id != id)
               && (forall r :: r in s'.tables.reservations <==> r in s.tables.reservations && r.plan != id)
  {
    OneMoreAction(stock, actions, BeginDelete(t, id));
    OneMoreAction(stock, actions + [BeginDelete(t, id)], Commit(t));
    assert (actions + [BeginDelete(t, id)]) + [Commit(t)] == actions + [BeginDelete(t, id), Commit(t)];
    var s := Execute(stock, actions).value;
    WithoutMembers(s.tables.plans, id);
    OthersMembers(s.tables.reservations, id);
  }

  /** A successful creation by the service is such a run: from the tables it starts with, some run of one
      transaction leads to the tables that it commits. */
  lemma CreationIsSerialRun(service: PlanningService.Service, actions: seq<Action>, s: State, t: TxnId, user: UserId,
                            h: HouseholdId, q: PlanningService.Request, today: Date, id: PlanId,
                            days: seq<P.PlannedDay>, run: Run)
    returns (more: seq<Action>, s': State)
    requires service.Valid() && Execute(service.inventory, actions) == Some(s) && Quiet(s, t) && NeverDrawn(s, id)
    requires s.tables == service.session.committed
    requires P.Plan(ActiveInventory(service.inventory, h), q.days, q.servings, q.tags, q.maxPrep,
                    PlanningService.PlannerRecipes(service.recipes), today) == P.Ok(days)
    requires ReserveLines(ActiveInventory(service.inventory, h), LedgerOf(s.tables.reservations), id,
                          Simulation.PlanLines(days)) == Ok(run)
    ensures Execute(service.inventory, actions + more) == Some(s')
    ensures var plan := MealPlan(id, user, h, today, today + q.days - 1, PlanningService.SavedDays(days));
            s'.tables == Tables(s.tables.plans + [plan], s.tables.reservations + run.rows)
    ensures s'.At(t).Answering? && s'.locks == map[]
  {
    var plan := MealPlan(id, user, h, today, today + q.days - 1, PlanningService.SavedDays(days));
    PlanningService.PlanIsFromStore(ActiveInventory(service.inventory, h), q, service.recipes, today);
    PlanningService.LinesHaveDays(days);
    more, s' := SerialCreation(service.inventory, actions, s, t, plan, Simulation.PlanLines(days), run);
  }
}
