/** What a plan reserves and what it puts on the shopping list add up to what it needs. */
module Conservation {
  import opened Units
  import opened Stock
  import opened Allocation
  import opened Ledgers
  import opened ReservationRun
  import opened ShoppingList
  import opened UnitSums

  // ----- What the shopping list sees -----

  lemma {:induction false} StockTotalCons(x: Item, s: seq<Item>, n: Name)
    ensures StockTotal([x] + s, n) == StockTotal([x], n) + StockTotal(s, n)
  {
    if s == [] {
      assert [x] + s == [x];
    } else {
      StockTotalCons(x, s[..|s| - 1], n);
      assert ([x] + s)[..|s|] == [x] + s[..|s| - 1];
    }
  }

  lemma {:induction false} StockTotalInsert(x: Item, s: seq<Item>, n: Name)
    ensures StockTotal(InsertByExpiry(x, s), n) == StockTotal([x], n) + StockTotal(s, n)
  {
    if s == [] || x.expiry <= s[0].expiry {
      StockTotalCons(x, s, n);
    } else {
      StockTotalInsert(x, s[1..], n);
      StockTotalCons(s[0], InsertByExpiry(x, s[1..]), n);
      StockTotalCons(s[0], s[1..], n);
      assert s == [s[0]] + s[1..];
    }
  }

  lemma {:induction false} StockTotalSort(items: seq<Item>, n: Name)
    ensures StockTotal(SortByExpiry(items), n) == StockTotal(items, n)
  {
    if items != [] {
      StockTotalSort(items[1..], n);
      StockTotalInsert(items[0], SortByExpiry(items[1..]), n);
      StockTotalCons(items[0], items[1..], n);
      assert items == [items[0]] + items[1..];
    }
  }

  /** Base quantity of a list of items. */
  function BaseTotal(items: seq<Item>): real {
    if items == [] then 0.0 else items[0].BaseQuantity() + BaseTotal(items[1..])
  }

  lemma {:induction false} StockTotalOfNamed(items: seq<Item>, n: Name)
    ensures StockTotal(items, n) == BaseTotal(Named(items, n))
  {
    if items != [] {
      StockTotalOfNamed(items[1..], n);
      StockTotalCons(items[0], items[1..], n);
      assert items == [items[0]] + items[1..];
      assert [items[0]][..0] == [];
      if items[0].Counts() && items[0].name == n {
        assert Named(items, n)[1..] == Named(items[1..], n);
      }
    }
  }

  /** Where nothing is over-reserved, stock less what rows hold is what is free. */
  lemma {:induction false} FreeIsRest(items: seq<Item>, rows: seq<Reservation>)
    requires Distinct(items)
    requires forall x :: x in items ==> Lookup(LedgerOf(rows), x.id) <= x.BaseQuantity()
    ensures BaseTotal(items) - Taken(rows, Ids(items)) == FreeAll(items, LedgerOf(rows))
  {
    if items == [] {
      TakenNone(rows, Ids(items));
    } else {
      var x, rest := items[0], items[1..];
      assert x in items;
      FreeIsRest(rest, rows);
      LedgerSums(rows, x.id);
      assert items == [x] + rest;
      assert Ids(items) == {x.id} + Ids(rest);
      TakenSplit(rows, {x.id}, Ids(rest));
    }
  }

  /** Items of the ingredient that no longer count but may still be reserved. */
  function Retired(table: seq<Item>, h: HouseholdId, n: Name): set<ItemId> {
    set x | x in table && x.household == h && x.name == n && !x.Counts() :: x.id
  }

  lemma NamedIdsSplit(table: seq<Item>, h: HouseholdId, n: Name)
    requires Distinct(table)
    ensures var mine := Candidates(ActiveInventory(table, h), n);
            IdsNamed(table, h, n) == Ids(mine) + Retired(table, h, n) && Ids(mine) !! Retired(table, h, n)
  {
    var mine := Candidates(ActiveInventory(table, h), n);
    CandidatesMembers(ActiveInventory(table, h), n);
    forall id | id in IdsNamed(table, h, n) ensures id in Ids(mine) + Retired(table, h, n) {
      var x :| x in table && x.household == h && x.name == n && x.id == id;
      assert x.Counts() ==> x in mine;
    }
    forall id | id in Ids(mine) ensures id !in Retired(table, h, n) {
      if id in Retired(table, h, n) {
        var x :| x in mine && x.id == id;
        var y :| y in table && y.household == h && y.name == n && !y.Counts() && y.id == id;
        SameIdSameItem(table, x, y);
      }
    }
  }

  lemma StockIsCandidates(stock: seq<Item>, n: Name)
    requires Distinct(stock)
    ensures StockTotal(stock, n) == BaseTotal(Candidates(stock, n))
    ensures Has(stock, n) <==> Candidates(stock, n) != []
  {
    var mine := Candidates(stock, n);
    CandidatesMembers(stock, n);
    StockTotalOfNamed(SortByExpiry(stock), n);
    StockTotalSort(stock, n);
    if Has(stock, n) {
      var k :| 0 <= k < |stock| && stock[k].Counts() && stock[k].name == n;
      assert stock[k] in mine;
    }
    assert mine != [] ==> mine[0] in mine;
  }

  /** What rows hold of an ingredient, they hold on its candidates or on retired items. */
  lemma HeldSplits(table: seq<Item>, h: HouseholdId, others: seq<Reservation>, n: Name)
    requires Distinct(table)
    ensures var mine := Candidates(ActiveInventory(table, h), n);
            Lookup(NameLedger(others, table, h), n) == Taken(others, Ids(mine)) + Taken(others, Retired(table, h, n))
  {
    NameLedgerSums(others, table, h, n);
    NamedIdsSplit(table, h, n);
    TakenSplit(others, Ids(Candidates(ActiveInventory(table, h), n)), Retired(table, h, n));
  }

  lemma CandidatesHeldWithin(stock: seq<Item>, others: seq<Reservation>, n: Name)
    requires Distinct(stock) && Within(stock, LedgerOf(others))
    ensures var mine := Candidates(stock, n);
            BaseTotal(mine) - Taken(others, Ids(mine)) == FreeAll(mine, LedgerOf(others))
  {
    var mine := Candidates(stock, n);
    CandidatesMembers(stock, n);
    forall x | x in mine ensures Lookup(LedgerOf(others), x.id) <= x.BaseQuantity() {
      var k :| 0 <= k < |stock| && stock[k] == x;
    }
    FreeIsRest(mine, others);
  }

  /** Free stock in any unit, less what is reserved on retired items; nothing if no item counts. */
  function SeenFree(mine: seq<Item>, reserved: Ledger, retired: real): real {
    if mine == [] then 0.0 else Max(0.0, FreeAll(mine, reserved) - retired)
  }

  lemma AvailableFrom(items: seq<Item>, held: Ledger, n: Name, mine: seq<Item>, ledger: Ledger, taken: real,
      retired: real)
    requires (Has(items, n) <==> mine != []) && StockTotal(items, n) == BaseTotal(mine)
    requires Lookup(held, n) == taken + retired && BaseTotal(mine) - taken == FreeAll(mine, ledger)
    ensures Available(items, held, n) == SeenFree(mine, ledger, retired)
  {
    assert Available(items, held, n) == if Has(items, n) then Max(0.0, StockTotal(items, n) - Lookup(held, n)) else 0.0;
  }

  /** What the shopping list takes to be available: the free stock of the ingredient in any unit,
      less what other plans hold of its used and discarded items. */
  lemma AvailableIsFree(table: seq<Item>, h: HouseholdId, others: seq<Reservation>, n: Name)
    requires Distinct(table) && Within(ActiveInventory(table, h), LedgerOf(others))
    ensures var mine := Candidates(ActiveInventory(table, h), n);
            Available(ActiveInventory(table, h), NameLedger(others, table, h), n) ==
            SeenFree(mine, LedgerOf(others), Taken(others, Retired(table, h, n)))
  {
    var stock := ActiveInventory(table, h);
    StockIsCandidates(stock, n);
    HeldSplits(table, h, others, n);
    CandidatesHeldWithin(stock, others, n);
    var mine := Candidates(stock, n);
    AvailableFrom(stock, NameLedger(others, table, h), n, mine, LedgerOf(others), Taken(others, Ids(mine)),
      Taken(others, Retired(table, h, n)));
  }

  // ----- The plan's own rows -----

  lemma {:induction false} TakenSame(rows: seq<Reservation>, a: set<ItemId>, b: set<ItemId>)
    requires forall r :: r in rows ==> (r.item in a <==> r.item in b)
    ensures Taken(rows, a) == Taken(rows, b)
  {
    if rows != [] {
      assert rows[|rows| - 1] in rows;
      TakenSame(rows[..|rows| - 1], a, b);
    }
  }

  /** A run's rows on the ingredient are its rows on the candidates, whatever units cover them. */
  lemma OwnRowsArePooled(table: seq<Item>, h: HouseholdId, external: Ledger, plan: PlanId, lines: seq<Line>, n: Name,
      us: seq<Unit>)
    requires Distinct(table) && forall x :: x in Candidates(ActiveInventory(table, h), n) ==> x.BaseUnit() in us
    requires ReserveLines(ActiveInventory(table, h), external, plan, lines).Ok?
    ensures var rows := ReserveLines(ActiveInventory(table, h), external, plan, lines).value.rows;
            Taken(rows, IdsNamed(table, h, n)) == Taken(rows, PoolIn(us, ActiveInventory(table, h), n))
  {
    var stock := ActiveInventory(table, h);
    var rows := ReserveLines(stock, external, plan, lines).value.rows;
    RowsBelong(stock, external, plan, lines);
    CandidatesMembers(stock, n);
    PoolInMembers(us, stock, n);
    forall r | r in rows ensures r.item in IdsNamed(table, h, n) <==> r.item in PoolIn(us, stock, n) {
      var l, x :| l in lines && x in stock && r.day == l.day && r.unit == l.BaseUnit() == x.BaseUnit()
                  && x.Counts() && x.id == r.item && x.name == l.name;
      if r.item in IdsNamed(table, h, n) {
        var y :| y in table && y.household == h && y.name == n && y.id == r.item;
        SameIdSameItem(table, x, y);
        assert x in Candidates(stock, n);
      }
    }
    TakenSame(rows, IdsNamed(table, h, n), PoolIn(us, stock, n));
  }

  // ----- The theorem -----

  /** The demand for the ingredient that free stock kept in the demanded units can cover. */
  function Covered(stock: seq<Item>, lines: seq<Line>, n: Name, reserved: Ledger): real {
    var mine := Candidates(stock, n);
    CoveredIn(Concerned(lines, mine, n), lines, mine, n, reserved)
  }

  /** How far the shopping list's view of the ingredient departs from the allocator's: the demand it
      thinks stock covers, less the demand that free stock in the demanded units can cover. */
  function Mismatch(table: seq<Item>, h: HouseholdId, others: seq<Reservation>, lines: seq<Line>, n: Name): real {
    var stock := ActiveInventory(table, h);
    Min(Required(lines, n), Available(stock, NameLedger(others, table, h), n)) -
      Covered(stock, lines, n, LedgerOf(others))
  }

  /** A plan's rows on the ingredient are the covered demand, short by at most EPS a line. */
  lemma OwnRowsCover(table: seq<Item>, h: HouseholdId, external: Ledger, plan: PlanId, lines: seq<Line>, n: Name)
    requires Distinct(table) && ReserveLines(ActiveInventory(table, h), external, plan, lines).Ok?
    ensures var stock := ActiveInventory(table, h);
            var own := Taken(ReserveLines(stock, external, plan, lines).value.rows, IdsNamed(table, h, n));
            var covered := Covered(stock, lines, n, external);
            covered - LinesFor(lines, n) as real * EPS <= own <= covered
  {
    var stock := ActiveInventory(table, h);
    var us := Concerned(lines, Candidates(stock, n), n);
    ConcernedCovers(lines, Candidates(stock, n), n);
    OwnRowsArePooled(table, h, external, plan, lines, n, us);
    RunTakesCovered(stock, external, plan, lines, n, us);
    DemandAddsUp(us, lines, n);
  }

  /** When a plan is reserved, its own rows for an ingredient plus the (unrounded) gap fall short of
      the demand by the mismatch, and by at most EPS more for each line that asked. The lines may ask in
      any units, and other plans may hold any part of the stock. */
  lemma RowsAndGapMeetDemand(table: seq<Item>, h: HouseholdId, others: seq<Reservation>, plan: PlanId, lines: seq<Line>,
      n: Name)
    requires Distinct(table) && Within(ActiveInventory(table, h), LedgerOf(others))
    requires ReserveLines(ActiveInventory(table, h), LedgerOf(others), plan, lines).Ok?
    ensures var stock := ActiveInventory(table, h);
            var own := Taken(ReserveLines(stock, LedgerOf(others), plan, lines).value.rows, IdsNamed(table, h, n));
            var gap := Gap(lines, stock, NameLedger(others, table, h), n);
            var mismatch := Mismatch(table, h, others, lines, n);
            mismatch <= Required(lines, n) - (own + gap) <= mismatch + LinesFor(lines, n) as real * EPS
  {
    OwnRowsCover(table, h, LedgerOf(others), plan, lines, n);
  }

  /** Covered demand is all the demand exactly when no unit is short, and all free stock exactly when no
      unit has any to spare. */
  lemma CoveredExtremes(stock: seq<Item>, lines: seq<Line>, n: Name, reserved: Ledger)
    ensures var mine := Candidates(stock, n); var covered := Covered(stock, lines, n, reserved);
            var us := Concerned(lines, mine, n);
            && covered <= Required(lines, n) && covered <= FreeAll(mine, reserved)
            && (covered == Required(lines, n) <==> NoneShort(us, lines, mine, n, reserved))
            && (covered == FreeAll(mine, reserved) <==> NoneToSpare(us, lines, mine, n, reserved))
  {
    var mine := Candidates(stock, n);
    var us := Concerned(lines, mine, n);
    ConcernedCovers(lines, mine, n);
    CoveredIsAll(us, lines, mine, n, reserved);
    DemandAddsUp(us, lines, n);
    FreeAddsUp(us, mine, reserved);
  }

  lemma MinIsLower(required: real, seen: real, covered: real)
    requires covered <= required
    ensures Min(required, seen) - covered == 0.0 <==> (covered == required && required <= seen) || seen == covered
  {
  }

  /** There is no mismatch exactly when no unit is short and the list sees at least the demand, or when the
      list sees exactly the stock that the demand can use. */
  lemma NoMismatchIff(table: seq<Item>, h: HouseholdId, others: seq<Reservation>, lines: seq<Line>, n: Name)
    requires Distinct(table) && Within(ActiveInventory(table, h), LedgerOf(others))
    ensures var stock := ActiveInventory(table, h); var mine := Candidates(stock, n);
            var seen := SeenFree(mine, LedgerOf(others), Taken(others, Retired(table, h, n)));
            Mismatch(table, h, others, lines, n) == 0.0 <==>
              || (NoneShort(Concerned(lines, mine, n), lines, mine, n, LedgerOf(others)) && Required(lines, n) <= seen)
              || seen == Covered(stock, lines, n, LedgerOf(others))
  {
    var stock := ActiveInventory(table, h);
    AvailableIsFree(table, h, others, n);
    CoveredExtremes(stock, lines, n, LedgerOf(others));
    MinIsLower(Required(lines, n),
      SeenFree(Candidates(stock, n), LedgerOf(others), Taken(others, Retired(table, h, n))),
               Covered(stock, lines, n, LedgerOf(others)));
  }

  lemma NoneRetiredAllSeen(table: seq<Item>, h: HouseholdId, others: seq<Reservation>, n: Name)
    requires Distinct(table) && Within(ActiveInventory(table, h), LedgerOf(others))
    requires forall r :: r in others ==> r.item !in Retired(table, h, n)
    ensures Available(ActiveInventory(table, h), NameLedger(others, table, h), n) ==
            FreeAll(Candidates(ActiveInventory(table, h), n), LedgerOf(others))
  {
    AvailableIsFree(table, h, others, n);
    TakenNone(others, Retired(table, h, n));
  }

  /** With nothing held on retired items, demand is lost -- neither reserved nor listed -- exactly when the
      ingredient is short in one unit while another unit has stock to spare. */
  lemma LostIffShortAndSpare(table: seq<Item>, h: HouseholdId, others: seq<Reservation>, lines: seq<Line>, n: Name)
    requires Distinct(table) && Within(ActiveInventory(table, h), LedgerOf(others))
    requires forall r :: r in others ==> r.item !in Retired(table, h, n)
    ensures var stock := ActiveInventory(table, h); var held := LedgerOf(others);
            && Mismatch(table, h, others, lines, n) >= 0.0
            && (Mismatch(table, h, others, lines, n) > 0.0 <==>
                  && (exists u: Unit :: Demand(lines, n, u) > FreeOf(stock, n, u, held))
                  && (exists v: Unit :: FreeOf(stock, n, v, held) > Demand(lines, n, v)))
  {
    var stock, held := ActiveInventory(table, h), LedgerOf(others);
    var mine := Candidates(stock, n);
    var us := Concerned(lines, mine, n);
    NoneRetiredAllSeen(table, h, others, n);
    CoveredExtremes(stock, lines, n, held);
    ConcernedCovers(lines, mine, n);
    forall u: Unit | u !in us ensures Demand(lines, n, u) == 0.0 && FreeOf(stock, n, u, held) == 0.0 {
      OtherUnitsIdle(us, lines, mine, n, u, held);
    }
    assert NoneShort(us, lines, mine, n, held) <==> !exists u: Unit :: Demand(lines, n, u) > FreeOf(stock, n, u, held);
    assert NoneToSpare(us, lines, mine, n, held) <==>
      !exists v: Unit :: FreeOf(stock, n, v, held) > Demand(lines, n, v);
  }

  /** The ingredient is kept, and asked for, in base unit u only. */
  ghost predicate OneUnit(table: seq<Item>, h: HouseholdId, lines: seq<Line>, n: Name, u: Unit) {
    && (forall x :: x in table && x.household == h && x.name == n && x.Counts() ==> x.BaseUnit() == u)
    && (forall l :: l in lines && l.name == n ==> l.BaseUnit() == u)
  }

  lemma OneUnitNothingLost(table: seq<Item>, h: HouseholdId, others: seq<Reservation>, lines: seq<Line>, n: Name,
      u: Unit)
    requires Distinct(table) && Within(ActiveInventory(table, h), LedgerOf(others)) && OneUnit(table, h, lines, n, u)
    requires forall r :: r in others ==> r.item !in Retired(table, h, n)
    ensures Mismatch(table, h, others, lines, n) == 0.0
  {
    var stock, held := ActiveInventory(table, h), LedgerOf(others);
    LostIffShortAndSpare(table, h, others, lines, n);
    CandidatesMembers(stock, n);
    forall v: Unit | v != u ensures Demand(lines, n, v) == 0.0 && FreeOf(stock, n, v, held) == 0.0 {
      UnaskedNoDemand(lines, n, v);
      UnkeptNoneFree(Candidates(stock, n), v, held);
    }
  }

  /** The plain form: an ingredient kept and asked for in one base unit, none of it held on retired items.
      Rows and gap add up to the demand, never above it, and short by at most EPS a line. */
  lemma DemandIsCovered(table: seq<Item>, h: HouseholdId, others: seq<Reservation>, plan: PlanId, lines: seq<Line>,
      n: Name, u: Unit)
    requires Distinct(table) && Within(ActiveInventory(table, h), LedgerOf(others)) && OneUnit(table, h, lines, n, u)
    requires forall r :: r in others ==> r.item !in Retired(table, h, n)
    requires ReserveLines(ActiveInventory(table, h), LedgerOf(others), plan, lines).Ok?
    ensures var stock := ActiveInventory(table, h);
            var own := Taken(ReserveLines(stock, LedgerOf(others), plan, lines).value.rows, IdsNamed(table, h, n));
            var gap := Gap(lines, stock, NameLedger(others, table, h), n);
            Required(lines, n) - LinesFor(lines, n) as real * EPS <= own + gap <= Required(lines, n)
  {
    RowsAndGapMeetDemand(table, h, others, plan, lines, n);
    OneUnitNothingLost(table, h, others, lines, n, u);
  }

  // ----- Two plans that lose demand -----

  lemma OneItemInventory(x: Item)
    requires x.Counts()
    ensures ActiveInventory([x], x.household) == [x] && Candidates([x], x.name) == [x]
    ensures StockTotal([x], x.name) == x.BaseQuantity() && Has([x], x.name)
  {
    assert [x][1..] == [] && [x][..0] == [];
    assert Selected([x][1..], x.household) == [];
    assert Selected([x], x.household) == [x];
    assert SortByExpiry([x][1..]) == [] && Named([x][1..], x.name) == [];
    assert SortByExpiry([x]) == [x] && Named([x], x.name) == [x];
    assert [x][0].Counts() && [x][0].name == x.name;
  }

  lemma OneLine(a: Line, n: Name)
    ensures Required([a], n) == if a.name == n then a.BaseQuantity() else 0.0
    ensures AskedUnits([a], n) == if a.name == n then [a.BaseUnit()] else []
  {
    assert [a][..0] == [];
    assert AskedUnits([a][..0], n) == [] && Required([a][..0], n) == 0.0;
  }

  lemma OneLineDemand(a: Line, n: Name, u: Unit)
    ensures Demand([a], n, u) == if Asks(a, n, u) then a.BaseQuantity() else 0.0
  {
    assert [a][..0] == [];
    assert Demand([a][..0], n, u) == 0.0;
  }

  lemma TwoLinesDemand(a: Line, b: Line, n: Name, u: Unit)
    ensures Demand([a, b], n, u) ==
              (if Asks(a, n, u) then a.BaseQuantity() else 0.0) + (if Asks(b, n, u) then b.BaseQuantity() else 0.0)
  {
    assert [a, b][..1] == [a];
    OneLineDemand(a, n, u);
  }

  lemma TwoLines(a: Line, b: Line)
    requires a.name == b.name && a.BaseUnit() != b.BaseUnit()
    ensures Required([a, b], a.name) == a.BaseQuantity() + b.BaseQuantity()
    ensures AskedUnits([a, b], a.name) == [a.BaseUnit(), b.BaseUnit()]
  {
    assert [a, b][..1] == [a];
    OneLine(a, a.name);
  }

  /** An item covers at most what is asked for in its own unit. */
  lemma CoveredInOwnUnit(x: Item, a: Line, b: Line)
    requires x.Counts() && a.name == b.name == x.name && a.BaseUnit() == x.BaseUnit() != b.BaseUnit()
    ensures Covered([x], [a, b], x.name, map[]) <= a.BaseQuantity()
  {
    var u, v := a.BaseUnit(), b.BaseUnit();
    OneItemInventory(x);
    TwoLines(a, b);
    TwoLinesDemand(a, b, x.name, u);
    assert [u, v][0] == u && With([u, v], u) == [u, v];
    assert AndKept([x][1..], [u, v]) == [u, v];
    assert Concerned([a, b], [x], x.name) == [u, v];
    UnkeptNoneFree([x], v, map[]);
    assert [u, v][..1] == [u] && [u][..0] == [];
    assert CoveredIn([u][..0], [a, b], [x], x.name, map[]) == 0.0;
    assert CoveredIn([u], [a, b], [x], x.name, map[]) <= a.BaseQuantity();
  }

  /** Demand for one ingredient in two units, of which the stock is kept in the first and is enough for both:
      the list shows no gap, and the plan's rows cover no more than the first. */
  lemma SecondUnitIsLost(x: Item, a: Line, b: Line, plan: PlanId)
    requires x.Counts() && a.name == b.name == x.name && a.BaseUnit() == x.BaseUnit() != b.BaseUnit()
    requires a.BaseQuantity() + b.BaseQuantity() <= x.BaseQuantity()
    ensures var stock := ActiveInventory([x], x.household); var lines := [a, b];
            && ReserveLines(stock, LedgerOf([]), plan, lines).Ok?
            && Required(lines, x.name) == a.BaseQuantity() + b.BaseQuantity()
            && Gap(lines, stock, NameLedger([], [x], x.household), x.name) == 0.0
            && Taken(ReserveLines(stock, LedgerOf([]), plan, lines).value.rows, IdsNamed([x], x.household, x.name)) <=
               a.BaseQuantity()
  {
    assert LedgerOf([]) == map[] && NameLedger([], [x], x.household) == map[];
    OneItemInventory(x);
    TwoLines(a, b);
    NothingHeldNothingRefused([x], map[], plan, [a, b]);
    CoveredInOwnUnit(x, a, b);
    OwnRowsCover([x], x.household, map[], plan, [a, b], x.name);
  }

  /** Two hundred grams and three hundred millilitres of one ingredient, of which a kilogram is in stock: the
      millilitres are neither reserved nor listed. */
  lemma MixedDemandLosesDemand()
    ensures var table := [Item(0, 0, 0, 1000.0, G, 0, Active)];
            var lines := [Line(0, 0, 200.0, G), Line(0, 0, 300.0, Ml)];
            var stock := ActiveInventory(table, 0);
            && ReserveLines(stock, LedgerOf([]), 0, lines).Ok?
            && Required(lines, 0) == 500.0 && Gap(lines, stock, NameLedger([], table, 0), 0) == 0.0
            && Taken(ReserveLines(stock, LedgerOf([]), 0, lines).value.rows, IdsNamed(table, 0, 0)) <= 200.0
  {
    SecondUnitIsLost(Item(0, 0, 0, 1000.0, G, 0, Active), Line(0, 0, 200.0, G), Line(0, 0, 300.0, Ml), 0);
  }

  lemma {:induction false} OtherUnitNoShares(items: seq<Item>, wanted: real, u: Unit, reserved: Ledger)
    requires forall x :: x in items ==> x.BaseUnit() != u
    ensures Allocate(items, wanted, u, reserved) == []
  {
    if items != [] {
      assert items[0] in items;
      OtherUnitNoShares(items[1..], Wanted(items, wanted, u, reserved), u, reserved);
    }
  }

  lemma NothingToList(x: Item, a: Line)
    requires x.Counts() && a.name == x.name && a.BaseQuantity() <= x.BaseQuantity()
    ensures Derived([a], [x], map[]) == []
  {
    var list := Derived([a], [x], map[]);
    OneItemInventory(x);
    forall n ensures !Listed(list, n) {
      OneLine(a, n);
      ListedIffGap([a], [x], map[], n);
    }
    assert list != [] ==> Listed(list, list[0].name);
  }

  lemma NothingToReserve(x: Item, a: Line, plan: PlanId)
    requires x.Counts() && a.name == x.name && a.BaseUnit() != x.BaseUnit()
    ensures ReserveLines([x], map[], plan, [a]) == Ok(Run(map[], []))
  {
    OneItemInventory(x);
    OtherUnitNoShares([x], a.BaseQuantity(), a.BaseUnit(), map[]);
    var none: Ledger := map[];
    assert [a][..0] == [] && ReserveLines([x], none, plan, []) == Ok(Run(none, []));
    assert !HeldElsewhere([x], none);
    assert SharesFor([x], none, a) == [] && AddAll(none, []) == none;
    assert Candidates([x], a.name) == [x] && !Refused([x], none, none, a);
    var rows := RowsOf(plan, a.day, a.BaseUnit(), SharesFor([x], none, a));
    assert rows == [] && [] + rows == [];
    assert ReserveLine([x], none, plan, Run(none, []), a) == Ok(Run(none, []));
  }

  /** Demand in a unit that the stock is not kept in, when there is enough in the other: it is not reserved, and
      the list is empty. */
  lemma OtherUnitIsLost(x: Item, a: Line, plan: PlanId)
    requires x.Counts() && a.name == x.name && a.BaseUnit() != x.BaseUnit() && a.BaseQuantity() <= x.BaseQuantity()
    ensures var stock := ActiveInventory([x], x.household);
            && ReserveLines(stock, LedgerOf([]), plan, [a]) == Ok(Run(LedgerOf([]), []))
            && Derived([a], stock, NameLedger([], [x], x.household)) == []
  {
    assert LedgerOf([]) == map[] && NameLedger([], [x], x.household) == map[];
    OneItemInventory(x);
    NothingToReserve(x, a, plan);
    NothingToList(x, a);
  }

  /** A litre of stock hides a demand in grams, which is neither reserved nor listed. */
  lemma MixedUnitsLoseDemand()
    ensures var table := [Item(0, 0, 0, 1.0, L, 0, Active)];
            var lines := [Line(0, 0, 200.0, G)];
            && ReserveLines(ActiveInventory(table, 0), LedgerOf([]), 0, lines) == Ok(Run(LedgerOf([]), []))
            && Required(lines, 0) == 200.0
            && Derived(lines, ActiveInventory(table, 0), NameLedger([], table, 0)) == []
  {
    OtherUnitIsLost(Item(0, 0, 0, 1.0, L, 0, Active), Line(0, 0, 200.0, G), 0);
    OneLine(Line(0, 0, 200.0, G), 0);
  }
}
