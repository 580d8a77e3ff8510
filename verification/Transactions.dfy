/** Concurrent plan creation and plan deletion as a state machine over the database steps: lock
    inventory rows one by one, read the reservation table, insert rows, commit or roll back, and
    after the commit read the other plans' rows again for the shopping list. Rows written by an
    open transaction are invisible to the others (read committed), and a row lock is held until
    the transaction ends. */
module Transactions {
  import opened Units
  import opened Stock
  import opened ReservationRun
  import opened Ledgers
  import opened PlanTables

  type TxnId = nat

  /** A plan in the making: the other plans' rows as they were read, the lines reserved so far, and the run
      over them. */
  datatype Draft = Draft(plan: MealPlan, before: seq<Reservation>, done: seq<Line>, run: Run)

  datatype Phase =
    | Idle
    | Locking(household: HouseholdId, held: set<ItemId>)
    | Reserving(draft: Draft, todo: seq<Line>)
    | Answering(draft: Draft)
    | Deleting(doomed: PlanId)
  {
    predicate HasDraft() {
      Reserving? || Answering?
    }
  }

  /** The committed tables, the owner of each row lock, and where every transaction is. */
  datatype State = State(tables: Tables, locks: map<ItemId, TxnId>, phases: map<TxnId, Phase>)
  {
    function At(t: TxnId): Phase {
      if t in phases then phases[t] else Idle
    }

    function Moved(t: TxnId, p: Phase): State {
      this.(phases := phases[t := p])
    }

    /** Transaction t ends: its locks are released. */
    function Ended(t: TxnId, p: Phase): State {
      this.(locks := map id | id in locks && locks[id] != t :: locks[id], phases := phases[t := p])
    }
  }

  datatype Action =
    | BeginGenerate(t: TxnId, household: HouseholdId)
    | Lock(t: TxnId, item: ItemId)
    | Read(t: TxnId, plan: MealPlan, lines: seq<Line>)
    | Insert(t: TxnId)
    | Commit(t: TxnId)
    | Answer(t: TxnId)
    | Rollback(t: TxnId)
    | BeginDelete(t: TxnId, doomed: PlanId)

  function MineOf(stock: seq<Item>, d: Draft): seq<Item> {
    ActiveInventory(stock, d.plan.household)
  }

  function NextRun(stock: seq<Item>, d: Draft, line: Line): Result<Run> {
    ReserveLine(MineOf(stock, d), LedgerOf(d.before), d.plan.id, d.run, line)
  }

  /** Every line lies on a day of the plan. */
  ghost predicate DaysIn(lines: seq<Line>, plan: MealPlan) {
    forall l :: l in lines ==> exists d :: d in plan.days && d.date == l.day
  }

  /** The id is in no table and in no open transaction. */
  ghost predicate NeverDrawn(s: State, id: PlanId) {
    Fresh(s.tables, id) && forall u: TxnId :: s.At(u).HasDraft() ==> s.At(u).draft.plan.id != id
  }

  /** Whether an action can happen. Rolling back is always possible: that covers every exception. */
  ghost predicate Enabled(stock: seq<Item>, s: State, a: Action) {
    match a
    case BeginGenerate(t, _) => s.At(t).Idle?
    case Lock(t, id) => s.At(t).Locking? && id !in s.locks && id in Ids(ActiveInventory(stock, s.At(t).household))
    case Read(t, plan, lines) =>
      // All rows are locked; the plan's id has just been drawn.
      && s.At(t).Locking? && plan.household == s.At(t).household
      && Ids(ActiveInventory(stock, plan.household)) <= s.At(t).held
      && NeverDrawn(s, plan.id) && DaysIn(lines, plan)
    case Insert(t) => s.At(t).Reserving? && s.At(t).todo != [] && NextRun(stock, s.At(t).draft, s.At(t).todo[0]).Ok?
    case Commit(t) => s.At(t).Deleting? || (s.At(t).Reserving? && s.At(t).todo == [])
    case Answer(t) => s.At(t).Answering?
    case Rollback(t) => !s.At(t).Idle?
    case BeginDelete(t, _) => s.At(t).Idle?
  }

  ghost function Step(stock: seq<Item>, s: State, a: Action): State
    requires Enabled(stock, s, a)
  {
    match a
    case BeginGenerate(t, h) => s.Moved(t, Locking(h, {}))
    case Lock(t, id) => s.(locks := s.locks[id := t]).Moved(t, s.At(t).(held := s.At(t).held + {id}))
    case Read(t, plan, lines) =>
      var before := Others(s.tables.reservations, plan.id);
      s.Moved(t, Reserving(Draft(plan, before, [], Run(LedgerOf(before), [])), lines))
    case Insert(t) =>
      var d, line := s.At(t).draft, s.At(t).todo[0];
      s.Moved(t, Reserving(d.(done := d.done + [line], run := NextRun(stock, d, line).value), s.At(t).todo[1..]))
    case Commit(t) =>
      if s.At(t).Deleting? then s.Ended(t, Idle).(tables := Deleted(s.tables, s.At(t).doomed))
      else
        var d := s.At(t).draft;
        s.Ended(t, Answering(d)).(tables := Created(s.tables, d.plan, d.run.rows))
    case Answer(t) => s.Moved(t, Idle)
    case Rollback(t) => s.Ended(t, Idle)
    case BeginDelete(t, doomed) => s.Moved(t, Deleting(doomed))
  }

  const Start: State := State(Tables([], []), map[], map[])

  /** The state a sequence of actions leads to, if each is enabled when its turn comes. */
  ghost function Execute(stock: seq<Item>, actions: seq<Action>): Option<State> {
    if actions == [] then Some(Start)
    else
      match Execute(stock, actions[..|actions| - 1])
      case None => None
      case Some(s) =>
        if Enabled(stock, s, actions[|actions| - 1]) then Some(Step(stock, s, actions[|actions| - 1])) else None
  }

  // ----- The invariant -----

  ghost predicate OwnsLocks(s: State, t: TxnId, ids: set<ItemId>) {
    forall id :: id in ids ==> id in s.locks && s.locks[id] == t
  }

  /** Every row is on an item that counts. */
  ghost predicate OnCounted(stock: seq<Item>, rows: seq<Reservation>) {
    forall r :: r in rows ==> exists x :: x in stock && x.Counts() && x.id == r.item
  }

  /** What is known of a draft from its own making: the run is that of its lines on what was read. */
  ghost predicate DraftOk(stock: seq<Item>, d: Draft) {
    && Within(MineOf(stock, d), LedgerOf(d.before)) && OnCounted(stock, d.before) && DaysIn(d.done, d.plan)
    && ReserveLines(MineOf(stock, d), LedgerOf(d.before), d.plan.id, d.done) == Ok(d.run)
  }

  /** While its household's rows are locked, nothing is added to what was read of them. */
  ghost predicate OnlyReleased(s: State, d: Draft, ids: set<ItemId>) {
    forall id :: id in ids ==> Taken(s.tables.reservations, {id}) <= Taken(d.before, {id})
  }

  ghost predicate Live(s: State, id: PlanId) {
    exists p :: p in s.tables.plans && p.id == id
  }

  ghost predicate PhaseOk(stock: seq<Item>, s: State, t: TxnId) {
    match s.At(t)
    case Locking(_, held) => OwnsLocks(s, t, held)
    case Reserving(d, todo) =>
      && DraftOk(stock, d) && DaysIn(todo, d.plan) && Fresh(s.tables, d.plan.id)
      && OwnsLocks(s, t, Ids(MineOf(stock, d))) && OnlyReleased(s, d, Ids(MineOf(stock, d)))
    case Answering(d) => DraftOk(stock, d)
      && (Live(s, d.plan.id) ==> Own(s.tables.reservations, d.plan.id) == d.run.rows)
    case _ => true
  }

  ghost predicate DraftsDiffer(s: State, t: TxnId, u: TxnId) {
    t != u && s.At(t).HasDraft() && s.At(u).HasDraft() ==> s.At(t).draft.plan.id != s.At(u).draft.plan.id
  }

  ghost predicate Inv(stock: seq<Item>, s: State) {
    && Consistent(s.tables, stock) && OnCounted(stock, s.tables.reservations)
    && (forall t: TxnId :: PhaseOk(stock, s, t))
    && (forall t: TxnId, u: TxnId :: DraftsDiffer(s, t, u))
  }

  // ----- Steps that commit nothing -----

  /** Such a step of t leaves the others alone. */
  lemma OthersKeep(stock: seq<Item>, s: State, after: State, t: TxnId)
    requires after.tables == s.tables && Inv(stock, s) && PhaseOk(stock, after, t)
    requires forall u: TxnId :: u != t ==> after.At(u) == s.At(u)
    requires forall id :: id in s.locks && s.locks[id] != t ==> id in after.locks && after.locks[id] == s.locks[id]
    requires forall u: TxnId :: u != t ==> DraftsDiffer(after, t, u)
    ensures Inv(stock, after)
  {
    forall u: TxnId ensures PhaseOk(stock, after, u) {
      assert PhaseOk(stock, s, u);
    }
    forall u: TxnId, v: TxnId ensures DraftsDiffer(after, u, v) {
      assert DraftsDiffer(s, u, v);
      assert u != t ==> DraftsDiffer(after, t, u);
      assert v != t ==> DraftsDiffer(after, t, v);
    }
  }

  lemma LedgerFits(stock: seq<Item>, t: Tables, h: HouseholdId)
    requires Consistent(t, stock)
    ensures Within(ActiveInventory(stock, h), LedgerOf(t.reservations))
  {
    var mine := ActiveInventory(stock, h);
    forall k | 0 <= k < |mine| ensures Lookup(LedgerOf(t.reservations), mine[k].id) <= mine[k].BaseQuantity() {
      assert mine[k] in mine;
      var j :| 0 <= j < |stock| && stock[j] == mine[k];
      LedgerSums(t.reservations, mine[k].id);
    }
  }

  lemma ReadPhaseOk(stock: seq<Item>, s: State, t: TxnId, plan: MealPlan, lines: seq<Line>)
    requires Consistent(s.tables, stock) && OnCounted(stock, s.tables.reservations)
    requires PhaseOk(stock, s, t) && Enabled(stock, s, Read(t, plan, lines))
    ensures PhaseOk(stock, Step(stock, s, Read(t, plan, lines)), t)
  {
    OthersAll(s.tables.reservations, plan.id);
    LedgerFits(stock, s.tables, plan.household);
  }

  lemma ReadKeepsInv(stock: seq<Item>, s: State, t: TxnId, plan: MealPlan, lines: seq<Line>)
    requires Inv(stock, s) && Enabled(stock, s, Read(t, plan, lines))
    ensures Inv(stock, Step(stock, s, Read(t, plan, lines)))
  {
    var s' := Step(stock, s, Read(t, plan, lines));
    ReadPhaseOk(stock, s, t, plan, lines);
    forall u: TxnId | u != t ensures DraftsDiffer(s', t, u) {
      assert s'.At(u) == s.At(u);
    }
    OthersKeep(stock, s, s', t);
  }

  lemma DraftGrows(stock: seq<Item>, d: Draft, line: Line)
    requires DraftOk(stock, d) && NextRun(stock, d, line).Ok? && DaysIn([line], d.plan)
    ensures DraftOk(stock, d.(done := d.done + [line], run := NextRun(stock, d, line).value))
  {
    OneMoreLine(MineOf(stock, d), LedgerOf(d.before), d.plan.id, d.done, line);
    assert line in [line];
  }

  lemma InsertPhaseOk(stock: seq<Item>, s: State, t: TxnId)
    requires PhaseOk(stock, s, t) && Enabled(stock, s, Insert(t))
    ensures PhaseOk(stock, Step(stock, s, Insert(t)), t)
  {
    var d, line := s.At(t).draft, s.At(t).todo[0];
    assert line in s.At(t).todo;
    DraftGrows(stock, d, line);
  }

  lemma InsertKeepsInv(stock: seq<Item>, s: State, t: TxnId)
    requires Inv(stock, s) && Enabled(stock, s, Insert(t))
    ensures Inv(stock, Step(stock, s, Insert(t)))
  {
    assert PhaseOk(stock, s, t);
    InsertPhaseOk(stock, s, t);
    forall u: TxnId | u != t ensures DraftsDiffer(Step(stock, s, Insert(t)), t, u) {
      assert DraftsDiffer(s, t, u);
    }
    OthersKeep(stock, s, Step(stock, s, Insert(t)), t);
  }

  // ----- Commits -----

  /** The rows of a draft are positive, its own, on days of its plan and on its household's counted items; and
      with what was read they stay within every item. */
  lemma DraftRows(stock: seq<Item>, d: Draft)
    requires Distinct(stock) && DraftOk(stock, d)
    ensures forall r :: r in d.run.rows ==>
              && r.quantity > 0.0 && r.plan == d.plan.id && r.item in Ids(MineOf(stock, d))
              && exists day :: day in d.plan.days && day.date == r.day
    ensures forall x :: x in MineOf(stock, d) ==>
            Taken(d.before, {x.id}) + Taken(d.run.rows, {x.id}) <= x.BaseQuantity()
  {
    var mine, external := MineOf(stock, d), LedgerOf(d.before);
    RowsBelong(mine, external, d.plan.id, d.done);
    forall r | r in d.run.rows
      ensures r.item in Ids(mine) && exists day :: day in d.plan.days && day.date == r.day
    {
      var l, x :| l in d.done && x in mine && r.day == l.day && r.unit == l.BaseUnit() == x.BaseUnit()
                  && x.Counts() && x.id == r.item && x.name == l.name;
    }
    RunStaysWithin(mine, external, d.plan.id, d.done);
    forall x | x in mine ensures Taken(d.before, {x.id}) + Taken(d.run.rows, {x.id}) <= x.BaseQuantity() {
      RunBooksItsRows(mine, external, d.plan.id, d.done, x.id);
      LedgerSums(d.before, x.id);
      var k :| 0 <= k < |mine| && mine[k] == x;
    }
  }

  lemma CommittedFits(stock: seq<Item>, s: State, d: Draft)
    requires Distinct(stock) && Consistent(s.tables, stock) && DraftOk(stock, d)
    requires OnlyReleased(s, d, Ids(MineOf(stock, d)))
    ensures forall k :: 0 <= k < |stock| ==>
              Taken(s.tables.reservations + d.run.rows, {stock[k].id}) <= stock[k].BaseQuantity()
  {
    DraftRows(stock, d);
    forall k | 0 <= k < |stock|
      ensures Taken(s.tables.reservations + d.run.rows, {stock[k].id}) <= stock[k].BaseQuantity() {
      var x := stock[k];
      TakenAppend(s.tables.reservations, d.run.rows, {x.id});
      if x.id in Ids(MineOf(stock, d)) {
        var y :| y in MineOf(stock, d) && y.id == x.id;
        SameIdSameItem(stock, x, y);
      } else {
        TakenNone(d.run.rows, {x.id});
      }
    }
  }

  lemma CommittedConsistent(stock: seq<Item>, s: State, d: Draft)
    requires Distinct(stock) && Consistent(s.tables, stock) && DraftOk(stock, d) && Fresh(s.tables, d.plan.id)
    requires OnlyReleased(s, d, Ids(MineOf(stock, d)))
    ensures Consistent(Created(s.tables, d.plan, d.run.rows), stock)
  {
    var t' := Created(s.tables, d.plan, d.run.rows);
    DraftRows(stock, d);
    CommittedFits(stock, s, d);
    CreatedUnique(s.tables, d.plan, d.run.rows);
    forall r | r in t'.reservations ensures Anchored(t', r) && r.quantity > 0.0 {
      if r in d.run.rows {
        assert d.plan in t'.plans;
      } else {
        assert Anchored(s.tables, r);
        var p, day :| p in s.tables.plans && p.id == r.plan && day in p.days && day.date == r.day;
        assert p in t'.plans;
      }
    }
  }

  /** A commit of another plan's rows leaves an open transaction as it was: the rows lie on items it has not
      locked and carry another id. */
  lemma CommitSpares(stock: seq<Item>, s: State, t: TxnId, u: TxnId)
    requires Distinct(stock) && Inv(stock, s) && Enabled(stock, s, Commit(t)) && s.At(t).Reserving? && u != t
    ensures PhaseOk(stock, Step(stock, s, Commit(t)), u)
  {
    var s' := Step(stock, s, Commit(t));
    var d := s.At(t).draft;
    assert PhaseOk(stock, s, t) && PhaseOk(stock, s, u) && DraftsDiffer(s, t, u);
    DraftRows(stock, d);
    if s.At(u).Reserving? {
      var e := s.At(u).draft;
      forall id | id in Ids(MineOf(stock, e)) ensures Taken(s'.tables.reservations, {id}) <= Taken(e.before, {id}) {
        assert id !in Ids(MineOf(stock, d));
        TakenAppend(s.tables.reservations, d.run.rows, {id});
        TakenNone(d.run.rows, {id});
      }
    } else if s.At(u).Answering? {
      var id := s.At(u).draft.plan.id;
      OwnAppend(s.tables.reservations, d.run.rows, id);
      OwnNone(d.run.rows, id);
      assert Own(s'.tables.reservations, id) == Own(s.tables.reservations, id) + [];
      assert Live(s', id) ==> Live(s, id);
    }
  }

  /** After its own commit a transaction finds its rows in the table. */
  lemma CommitAnswers(stock: seq<Item>, s: State, t: TxnId)
    requires Distinct(stock) && Inv(stock, s) && Enabled(stock, s, Commit(t)) && s.At(t).Reserving?
    ensures PhaseOk(stock, Step(stock, s, Commit(t)), t)
  {
    var d := s.At(t).draft;
    assert PhaseOk(stock, s, t);
    DraftRows(stock, d);
    OwnAppend(s.tables.reservations, d.run.rows, d.plan.id);
    OwnNone(s.tables.reservations, d.plan.id);
    OwnAll(d.run.rows, d.plan.id);
  }

  /** Committing a draft keeps every item within its base quantity, every row on a live plan and one of its
      days, and disturbs no one. */
  lemma CommitRowsOk(stock: seq<Item>, s: State, t: TxnId)
    requires Distinct(stock) && Inv(stock, s) && Enabled(stock, s, Commit(t)) && s.At(t).Reserving?
    ensures Inv(stock, Step(stock, s, Commit(t)))
  {
    var s' := Step(stock, s, Commit(t));
    var d := s.At(t).draft;
    assert PhaseOk(stock, s, t);
    CommittedConsistent(stock, s, d);
    DraftRows(stock, d);
    forall r | r in s'.tables.reservations ensures exists x :: x in stock && x.Counts() && x.id == r.item {
      if r in d.run.rows {
        var x :| x in MineOf(stock, d) && x.id == r.item;
        assert x in stock && x.Counts();
      }
    }
    forall u: TxnId ensures PhaseOk(stock, s', u) {
      if u == t { CommitAnswers(stock, s, t); } else { CommitSpares(stock, s, t, u); }
    }
    forall u: TxnId, v: TxnId ensures DraftsDiffer(s', u, v) {
      assert DraftsDiffer(s, u, v);
    }
  }

  lemma DeleteSpares(stock: seq<Item>, s: State, t: TxnId, u: TxnId)
    requires Inv(stock, s) && Enabled(stock, s, Commit(t)) && s.At(t).Deleting? && u != t
    ensures PhaseOk(stock, Step(stock, s, Commit(t)), u)
  {
    var s' := Step(stock, s, Commit(t));
    var doomed := s.At(t).doomed;
    assert PhaseOk(stock, s, u);
    OthersMembers(s.tables.reservations, doomed);
    WithoutMembers(s.tables.plans, doomed);
    if s.At(u).Reserving? {
      var e := s.At(u).draft;
      forall id | id in Ids(MineOf(stock, e)) ensures Taken(s'.tables.reservations, {id}) <= Taken(e.before, {id}) {
        assert forall r :: r in s.tables.reservations ==> r.quantity >= 0.0;
        OthersTakeNoMore(s.tables.reservations, doomed, {id});
      }
    } else if s.At(u).Answering? && Live(s', s.At(u).draft.plan.id) {
      OwnOfOthers(s.tables.reservations, doomed, s.At(u).draft.plan.id);
    }
  }

  lemma CommitDeleteOk(stock: seq<Item>, s: State, t: TxnId)
    requires Inv(stock, s) && Enabled(stock, s, Commit(t)) && s.At(t).Deleting?
    ensures Inv(stock, Step(stock, s, Commit(t)))
  {
    var s' := Step(stock, s, Commit(t));
    DeleteKeepsConsistent(s.tables, stock, s.At(t).doomed);
    OthersMembers(s.tables.reservations, s.At(t).doomed);
    forall u: TxnId ensures PhaseOk(stock, s', u) {
      if u != t { DeleteSpares(stock, s, t, u); }
    }
    forall u: TxnId, v: TxnId ensures DraftsDiffer(s', u, v) {
      assert DraftsDiffer(s, u, v);
    }
  }

  lemma StepKeepsInv(stock: seq<Item>, s: State, a: Action)
    requires Distinct(stock) && Inv(stock, s) && Enabled(stock, s, a)
    ensures Inv(stock, Step(stock, s, a))
  {
    var s' := Step(stock, s, a);
    assert PhaseOk(stock, s, a.t);
    match a
    case Commit(t) =>
      if s.At(t).Deleting? { CommitDeleteOk(stock, s, t); } else { CommitRowsOk(stock, s, t); }
    case Read(t, plan, lines) => ReadKeepsInv(stock, s, t, plan, lines);
    case Insert(t) => InsertKeepsInv(stock, s, t);
    case _ =>
      assert !s'.At(a.t).HasDraft();
      OthersKeep(stock, s, s', a.t);
  }
}
