/** What every interleaving of plan creations and deletions keeps, and what the shopping list shows when
    the other plans' rows are read again after the commit. */
module Interleavings {
  import opened Units
  import opened Stock
  import opened Allocation
  import opened ReservationRun
  import opened Ledgers
  import opened ShoppingList
  import opened UnitSums
  import opened Conservation
  import opened PlanTables
  import opened Transactions

  lemma {:induction false} RunKeepsInv(stock: seq<Item>, actions: seq<Action>)
    requires Distinct(stock) && Execute(stock, actions).Some?
    ensures Inv(stock, Execute(stock, actions).value)
  {
    if actions == [] {
      assert forall k :: 0 <= k < |stock| ==> Taken([], {stock[k].id}) == 0.0;
    } else {
      RunKeepsInv(stock, actions[..|actions| - 1]);
      StepKeepsInv(stock, Execute(stock, actions[..|actions| - 1]).value, actions[|actions| - 1]);
    }
  }

  /** In every interleaving of any number of transactions, the committed rows never exceed any
      item's base quantity. */
  lemma NeverOverReserved(stock: seq<Item>, actions: seq<Action>, x: Item)
    requires Distinct(stock) && Execute(stock, actions).Some? && x in stock
    ensures Taken(Execute(stock, actions).value.tables.reservations, {x.id}) <= x.BaseQuantity()
  {
    RunKeepsInv(stock, actions);
    var k :| 0 <= k < |stock| && stock[k] == x;
  }

  /** In every interleaving plan ids are unique, and every committed row is positive and lies on a live plan
      and one of its days. */
  lemma RowsStayAnchored(stock: seq<Item>, actions: seq<Action>, r: Reservation)
    requires Distinct(stock) && Execute(stock, actions).Some? && r in Execute(stock, actions).value.tables.reservations
    ensures var tables := Execute(stock, actions).value.tables;
            UniqueIds(tables.plans) && Anchored(tables, r) && r.quantity > 0.0
  {
    RunKeepsInv(stock, actions);
  }

  lemma SomeItemSomeId(items: seq<Item>)
    ensures items != [] ==> exists id :: id in Ids(items)
  {
    if items != [] {
      assert items[0] in items;
      assert items[0].id in Ids(items);
    }
  }

  /** Two transactions are never both between read and commit for a household that has stock. */
  lemma ReadersExclude(stock: seq<Item>, actions: seq<Action>, t: TxnId, u: TxnId)
    requires Distinct(stock) && Execute(stock, actions).Some? && t != u
    requires var s := Execute(stock, actions).value;
             && s.At(t).Reserving? && s.At(u).Reserving?
             && s.At(t).draft.plan.household == s.At(u).draft.plan.household
    ensures MineOf(stock, Execute(stock, actions).value.At(t).draft) == []
  {
    RunKeepsInv(stock, actions);
    var s := Execute(stock, actions).value;
    SomeItemSomeId(MineOf(stock, s.At(t).draft));
    assert PhaseOk(stock, s, t) && PhaseOk(stock, s, u);
  }

  // ----- The shopping list, read after the commit -----

  lemma NothingRetiredHeld(stock: seq<Item>, h: HouseholdId, rows: seq<Reservation>, n: Name)
    requires Distinct(stock) && OnCounted(stock, rows)
    ensures forall r :: r in rows ==> r.item !in Retired(stock, h, n)
  {
    forall r | r in rows ensures r.item !in Retired(stock, h, n) {
      var x :| x in stock && x.Counts() && x.id == r.item;
      if r.item in Retired(stock, h, n) {
        var y :| y in stock && y.household == h && y.name == n && !y.Counts() && y.id == r.item;
        SameIdSameItem(stock, x, y);
      }
    }
  }

  /** What the list sees of an ingredient is its stock less the rows on it. */
  lemma SeenIsRest(stock: seq<Item>, h: HouseholdId, rows: seq<Reservation>, n: Name)
    requires Distinct(stock) && OnCounted(stock, rows) && Within(ActiveInventory(stock, h), LedgerOf(rows))
    ensures Available(ActiveInventory(stock, h), NameLedger(rows, stock, h), n) ==
            BaseTotal(Candidates(ActiveInventory(stock, h), n)) - Taken(rows, IdsNamed(stock, h, n))
  {
    NothingRetiredHeld(stock, h, rows, n);
    NoneRetiredAllSeen(stock, h, rows, n);
    CandidatesHeldWithin(ActiveInventory(stock, h), rows, n);
    HeldSplits(stock, h, rows, n);
    NameLedgerSums(rows, stock, h, n);
    TakenNone(rows, Retired(stock, h, n));
  }

  /** The rows of one plan and those of the others share the stock. */
  lemma OwnFitsBeside(stock: seq<Item>, t: Tables, h: HouseholdId, id: PlanId, n: Name)
    requires Distinct(stock) && Consistent(t, stock) && OnCounted(stock, t.reservations)
    ensures var now := Others(t.reservations, id);
            && Within(ActiveInventory(stock, h), LedgerOf(now)) && OnCounted(stock, now)
            && Taken(Own(t.reservations, id), IdsNamed(stock, h, n)) + Taken(now, IdsNamed(stock, h, n))
               <= BaseTotal(Candidates(ActiveInventory(stock, h), n))
  {
    DeleteKeepsConsistent(t, stock, id);
    LedgerFits(stock, Deleted(t, id), h);
    LedgerFits(stock, t, h);
    OthersMembers(t.reservations, id);
    OwnAndOthers(t.reservations, id, IdsNamed(stock, h, n));
    CandidatesHeldWithin(ActiveInventory(stock, h), t.reservations, n);
    HeldSplits(stock, h, t.reservations, n);
    NameLedgerSums(t.reservations, stock, h, n);
    NothingRetiredHeld(stock, h, t.reservations, n);
    TakenNone(t.reservations, Retired(stock, h, n));
  }

  /** How much of an ingredient the other plans hold less than when it was read. */
  function Released(stock: seq<Item>, s: State, d: Draft, n: Name): real {
    var ids := IdsNamed(stock, d.plan.household, n);
    Max(0.0, Taken(d.before, ids) - Taken(Others(s.tables.reservations, d.plan.id), ids))
  }

  /** The gap that the list shows when the other plans' rows are read in state s. */
  function GapNow(stock: seq<Item>, s: State, d: Draft, n: Name): real {
    Gap(d.done, MineOf(stock, d), NameLedger(Others(s.tables.reservations, d.plan.id), stock, d.plan.household), n)
  }

  lemma AnswerArithmetic(required: real, covered: real, own: real, seen: real, seenNow: real, released: real,
      slack: real)
    requires covered - slack <= own <= covered <= required && own <= seenNow <= seen + released && released >= 0.0
    ensures 0.0 <= required - (own + Max(0.0, required - seenNow)) <= Min(required, seen) - covered + released + slack
  {
  }

  /** In every interleaving, as long as the plan has not been deleted: whatever other plans did between the
      read, the commit and the second read, the plan's rows plus the gap then shown never exceed the demand,
      and fall short of it by no more than the mismatch at the first read, what others have released since,
      and EPS a line. */
  lemma AnswerCoversDemand(stock: seq<Item>, actions: seq<Action>, t: TxnId, n: Name)
    requires Distinct(stock) && Execute(stock, actions).Some?
    requires var s := Execute(stock, actions).value; s.At(t).Answering? && Live(s, s.At(t).draft.plan.id)
    ensures var s := Execute(stock, actions).value; var d := s.At(t).draft; var h := d.plan.household;
            var own := Taken(Own(s.tables.reservations, d.plan.id), IdsNamed(stock, h, n));
            var mismatch := Mismatch(stock, h, d.before, d.done, n);
            0.0 <= Required(d.done, n) - (own + GapNow(stock, s, d, n))
                <= mismatch + Released(stock, s, d, n) + LinesFor(d.done, n) as real * EPS
  {
    RunKeepsInv(stock, actions);
    var s := Execute(stock, actions).value;
    var d := s.At(t).draft;
    var h, now := d.plan.household, Others(s.tables.reservations, d.plan.id);
    assert PhaseOk(stock, s, t);
    OwnFitsBeside(stock, s.tables, h, d.plan.id, n);
    SeenIsRest(stock, h, now, n);
    SeenIsRest(stock, h, d.before, n);
    OwnRowsCover(stock, h, LedgerOf(d.before), d.plan.id, d.done, n);
    CoveredExtremes(MineOf(stock, d), d.done, n, LedgerOf(d.before));
    AnswerArithmetic(Required(d.done, n), Covered(MineOf(stock, d), d.done, n, LedgerOf(d.before)),
                     Taken(d.run.rows, IdsNamed(stock, h, n)),
                     Available(MineOf(stock, d), NameLedger(d.before, stock, h), n),
                     Available(MineOf(stock, d), NameLedger(now, stock, h), n),
                     Released(stock, s, d, n), LinesFor(d.done, n) as real * EPS);
  }

  /** The plain form: with one base unit, the demand is met but for what others released and EPS a line. */
  lemma AnswerMeetsDemand(stock: seq<Item>, actions: seq<Action>, t: TxnId, n: Name, u: Unit)
    requires Distinct(stock) && Execute(stock, actions).Some?
    requires var s := Execute(stock, actions).value;
             && s.At(t).Answering? && Live(s, s.At(t).draft.plan.id)
             && OneUnit(stock, s.At(t).draft.plan.household, s.At(t).draft.done, n, u)
    ensures var s := Execute(stock, actions).value; var d := s.At(t).draft;
            var own := Taken(Own(s.tables.reservations, d.plan.id), IdsNamed(stock, d.plan.household, n));
            Required(d.done, n) - Released(stock, s, d, n) - LinesFor(d.done, n) as real * EPS
              <= own + GapNow(stock, s, d, n) <= Required(d.done, n)
  {
    AnswerCoversDemand(stock, actions, t, n);
    RunKeepsInv(stock, actions);
    var s := Execute(stock, actions).value;
    var d := s.At(t).draft;
    assert PhaseOk(stock, s, t);
    NothingRetiredHeld(stock, d.plan.household, d.before, n);
    OneUnitNothingLost(stock, d.plan.household, d.before, d.done, n, u);
  }
}
