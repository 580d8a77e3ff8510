/** Demand and free stock of one ingredient, unit by unit: the base units concerned, and the sums over them. */
module UnitSums {
  import opened Units
  import opened Stock
  import opened Allocation
  import opened ReservationRun
  import opened ShoppingList

  // ----- The units concerned -----

  function With(us: seq<Unit>, u: Unit): seq<Unit> {
    if u in us then us else us + [u]
  }

  /** The base units in which lines ask for an ingredient. */
  function AskedUnits(lines: seq<Line>, n: Name): seq<Unit> {
    if lines == [] then []
    else
      var l := lines[|lines| - 1];
      var us := AskedUnits(lines[..|lines| - 1], n);
      if l.name == n then With(us, l.BaseUnit()) else us
  }

  /** `us`, and the base units in which items are kept. */
  function AndKept(items: seq<Item>, us: seq<Unit>): seq<Unit> {
    if items == [] then us else AndKept(items[1..], With(us, items[0].BaseUnit()))
  }

  /** The units in which the ingredient is asked for or kept, each once. */
  function Concerned(lines: seq<Line>, mine: seq<Item>, n: Name): seq<Unit> {
    AndKept(mine, AskedUnits(lines, n))
  }

  ghost predicate DistinctUnits(us: seq<Unit>) {
    forall i, j :: 0 <= i < j < |us| ==> us[i] != us[j]
  }

  /** Every unit in which an item is kept or a line asks is listed. */
  ghost predicate Covers(us: seq<Unit>, lines: seq<Line>, mine: seq<Item>, n: Name) {
    && DistinctUnits(us)
    && (forall x :: x in mine ==> x.BaseUnit() in us)
    && (forall l :: l in lines && l.name == n ==> l.BaseUnit() in us)
  }

  lemma {:induction false} AskedCovers(lines: seq<Line>, n: Name)
    ensures Covers(AskedUnits(lines, n), lines, [], n)
  {
    if lines != [] {
      var front, l := lines[..|lines| - 1], lines[|lines| - 1];
      AskedCovers(front, n);
      assert lines == front + [l];
    }
  }

  lemma {:induction false} KeptCovers(items: seq<Item>, us: seq<Unit>)
    requires DistinctUnits(us)
    ensures DistinctUnits(AndKept(items, us))
    ensures forall u :: u in us ==> u in AndKept(items, us)
    ensures forall x :: x in items ==> x.BaseUnit() in AndKept(items, us)
  {
    if items != [] {
      KeptCovers(items[1..], With(us, items[0].BaseUnit()));
      assert items == [items[0]] + items[1..];
    }
  }

  lemma ConcernedCovers(lines: seq<Line>, mine: seq<Item>, n: Name)
    ensures Covers(Concerned(lines, mine, n), lines, mine, n)
  {
    AskedCovers(lines, n);
    KeptCovers(mine, AskedUnits(lines, n));
  }

  // ----- Sums over units -----

  function DemandIn(us: seq<Unit>, lines: seq<Line>, n: Name): real {
    if us == [] then 0.0 else DemandIn(us[..|us| - 1], lines, n) + Demand(lines, n, us[|us| - 1])
  }

  function CountIn(us: seq<Unit>, lines: seq<Line>, n: Name): nat {
    if us == [] then 0 else CountIn(us[..|us| - 1], lines, n) + Count(lines, n, us[|us| - 1])
  }

  function FreeIn(us: seq<Unit>, mine: seq<Item>, reserved: Ledger): real {
    if us == [] then 0.0 else FreeIn(us[..|us| - 1], mine, reserved) + FreeTotal(mine, us[|us| - 1], reserved)
  }

  /** The demand that free stock in the demanded unit can cover. */
  function CoveredIn(us: seq<Unit>, lines: seq<Line>, mine: seq<Item>, n: Name, reserved: Ledger): real {
    if us == [] then 0.0
    else
      var u := us[|us| - 1];
      CoveredIn(us[..|us| - 1], lines, mine, n, reserved) + Min(Demand(lines, n, u), FreeTotal(mine, u, reserved))
  }

  /** Free stock whatever its unit. */
  function FreeAll(items: seq<Item>, reserved: Ledger): (r: real)
    ensures r >= 0.0
  {
    if items == [] then 0.0 else Free(items[0], reserved) + FreeAll(items[1..], reserved)
  }

  /** How many lines ask for the ingredient. */
  function LinesFor(lines: seq<Line>, n: Name): nat {
    if lines == [] then 0 else LinesFor(lines[..|lines| - 1], n) + (if lines[|lines| - 1].name == n then 1 else 0)
  }

  lemma {:induction false} SumsNextLine(us: seq<Unit>, lines: seq<Line>, n: Name)
    requires DistinctUnits(us) && lines != []
    ensures var front, l := lines[..|lines| - 1], lines[|lines| - 1];
            var mine := l.name == n && l.BaseUnit() in us;
            && DemandIn(us, lines, n) == DemandIn(us, front, n) + (if mine then l.BaseQuantity() else 0.0)
            && CountIn(us, lines, n) == CountIn(us, front, n) + (if mine then 1 else 0)
  {
    if us != [] {
      SumsNextLine(us[..|us| - 1], lines, n);
      assert us == us[..|us| - 1] + [us[|us| - 1]];
    }
  }

  lemma {:induction false} NoLinesNoSums(us: seq<Unit>, n: Name)
    ensures DemandIn(us, [], n) == 0.0 && CountIn(us, [], n) == 0
  {
    if us != [] {
      NoLinesNoSums(us[..|us| - 1], n);
    }
  }

  /** Over the units concerned, demand adds up to what is required, and the lines are counted once each. */
  lemma {:induction false} DemandAddsUp(us: seq<Unit>, lines: seq<Line>, n: Name)
    requires Covers(us, lines, [], n)
    ensures DemandIn(us, lines, n) == Required(lines, n) && CountIn(us, lines, n) == LinesFor(lines, n)
  {
    if lines == [] {
      NoLinesNoSums(us, n);
    } else {
      SumsNextLine(us, lines, n);
      assert lines == lines[..|lines| - 1] + [lines[|lines| - 1]];
      DemandAddsUp(us, lines[..|lines| - 1], n);
    }
  }

  lemma {:induction false} FreeNextItem(us: seq<Unit>, items: seq<Item>, reserved: Ledger)
    requires DistinctUnits(us) && items != []
    ensures FreeIn(us, items, reserved) ==
            (if items[0].BaseUnit() in us then Free(items[0], reserved) else 0.0) + FreeIn(us, items[1..], reserved)
  {
    if us != [] {
      FreeNextItem(us[..|us| - 1], items, reserved);
      assert us == us[..|us| - 1] + [us[|us| - 1]];
    }
  }

  lemma {:induction false} NoItemsNothingFree(us: seq<Unit>, reserved: Ledger)
    ensures FreeIn(us, [], reserved) == 0.0
  {
    if us != [] {
      NoItemsNothingFree(us[..|us| - 1], reserved);
    }
  }

  /** Over the units concerned, free stock adds up to all of it. */
  lemma {:induction false} FreeAddsUp(us: seq<Unit>, items: seq<Item>, reserved: Ledger)
    requires DistinctUnits(us) && forall x :: x in items ==> x.BaseUnit() in us
    ensures FreeIn(us, items, reserved) == FreeAll(items, reserved)
  {
    if items == [] {
      NoItemsNothingFree(us, reserved);
    } else {
      FreeNextItem(us, items, reserved);
      assert items == [items[0]] + items[1..];
      FreeAddsUp(us, items[1..], reserved);
    }
  }

  // ----- Short units and units to spare -----

  /** No unit is asked for beyond the free stock kept in it. */
  ghost predicate NoneShort(us: seq<Unit>, lines: seq<Line>, mine: seq<Item>, n: Name, reserved: Ledger) {
    forall u :: u in us ==> Demand(lines, n, u) <= FreeTotal(mine, u, reserved)
  }

  /** No unit has free stock beyond what is asked for in it. */
  ghost predicate NoneToSpare(us: seq<Unit>, lines: seq<Line>, mine: seq<Item>, n: Name, reserved: Ledger) {
    forall u :: u in us ==> FreeTotal(mine, u, reserved) <= Demand(lines, n, u)
  }

  lemma OneMoreUnit(us: seq<Unit>, u: Unit, lines: seq<Line>, mine: seq<Item>, n: Name, reserved: Ledger)
    ensures NoneShort(us + [u], lines, mine, n, reserved) <==>
              NoneShort(us, lines, mine, n, reserved) && Demand(lines, n, u) <= FreeTotal(mine, u, reserved)
    ensures NoneToSpare(us + [u], lines, mine, n, reserved) <==>
              NoneToSpare(us, lines, mine, n, reserved) && FreeTotal(mine, u, reserved) <= Demand(lines, n, u)
  {
    assert u in us + [u];
    assert forall v :: v in us ==> v in us + [u];
  }

  /** Covered demand is at most the demand and at most the free stock; it is all the demand exactly when
      no unit is short, and all the free stock exactly when no unit has any to spare. */
  lemma {:induction false} CoveredIsAll(us: seq<Unit>, lines: seq<Line>, mine: seq<Item>, n: Name, reserved: Ledger)
    ensures CoveredIn(us, lines, mine, n, reserved) <= DemandIn(us, lines, n)
    ensures CoveredIn(us, lines, mine, n, reserved) <= FreeIn(us, mine, reserved)
    ensures CoveredIn(us, lines, mine, n, reserved) == DemandIn(us, lines, n) <==>
            NoneShort(us, lines, mine, n, reserved)
    ensures CoveredIn(us, lines, mine, n, reserved) == FreeIn(us, mine, reserved) <==>
            NoneToSpare(us, lines, mine, n, reserved)
  {
    if us != [] {
      var front, u := us[..|us| - 1], us[|us| - 1];
      CoveredIsAll(front, lines, mine, n, reserved);
      OneMoreUnit(front, u, lines, mine, n, reserved);
      assert us == front + [u];
    }
  }

  lemma {:induction false} UnaskedNoDemand(lines: seq<Line>, n: Name, u: Unit)
    requires forall l :: l in lines && l.name == n ==> l.BaseUnit() != u
    ensures Demand(lines, n, u) == 0.0
  {
    if lines != [] {
      assert lines[|lines| - 1] in lines;
      UnaskedNoDemand(lines[..|lines| - 1], n, u);
    }
  }

  lemma {:induction false} UnkeptNoneFree(items: seq<Item>, u: Unit, reserved: Ledger)
    requires forall x :: x in items ==> x.BaseUnit() != u
    ensures FreeTotal(items, u, reserved) == 0.0
  {
    if items != [] {
      assert items[0] in items;
      UnkeptNoneFree(items[1..], u, reserved);
    }
  }

  lemma OtherUnitsIdle(us: seq<Unit>, lines: seq<Line>, mine: seq<Item>, n: Name, u: Unit, reserved: Ledger)
    requires Covers(us, lines, mine, n) && u !in us
    ensures Demand(lines, n, u) == 0.0 && FreeTotal(mine, u, reserved) == 0.0
  {
    UnaskedNoDemand(lines, n, u);
    UnkeptNoneFree(mine, u, reserved);
  }

  // ----- What a run books, unit by unit -----

  /** The ingredient's items kept in one of the units. */
  function PoolIn(us: seq<Unit>, stock: seq<Item>, n: Name): set<ItemId> {
    if us == [] then {} else PoolIn(us[..|us| - 1], stock, n) + Pool(stock, n, us[|us| - 1])
  }

  lemma {:induction false} PoolInMembers(us: seq<Unit>, stock: seq<Item>, n: Name)
    ensures forall id :: id in PoolIn(us, stock, n) <==>
              exists x :: x in Candidates(stock, n) && x.BaseUnit() in us && x.id == id
  {
    if us != [] {
      var front, u := us[..|us| - 1], us[|us| - 1];
      PoolInMembers(front, stock, n);
      assert us == front + [u];
      forall id | id in PoolIn(us, stock, n)
        ensures exists x :: x in Candidates(stock, n) && x.BaseUnit() in us && x.id == id
      {
        if id in PoolIn(front, stock, n) {
          var x :| x in Candidates(stock, n) && x.BaseUnit() in front && x.id == id;
          assert x.BaseUnit() in us;
        } else {
          var x :| x in Candidates(stock, n) && x.BaseUnit() == u && x.id == id;
        }
      }
    }
  }

  lemma PoolsDisjoint(us: seq<Unit>, stock: seq<Item>, n: Name, u: Unit)
    requires Distinct(stock) && u !in us
    ensures PoolIn(us, stock, n) !! Pool(stock, n, u)
  {
    PoolInMembers(us, stock, n);
    CandidatesMembers(stock, n);
    forall id | id in PoolIn(us, stock, n) ensures id !in Pool(stock, n, u) {
      var x :| x in Candidates(stock, n) && x.BaseUnit() in us && x.id == id;
      forall y | y in Candidates(stock, n) && y.id == id ensures y.BaseUnit() != u {
        SameIdSameItem(stock, x, y);
      }
    }
  }

  /** What one unit's share of the run comes to. */
  lemma ServedIsCovered(before: real, demand: real, asked: nat, after: real)
    requires before >= 0.0 && demand >= 0.0 && Served(before, demand, asked, after)
    ensures Min(demand, before) - asked as real * EPS <= before - after <= Min(demand, before)
  {
  }

  lemma SlackAdds(a: nat, b: nat)
    ensures (a + b) as real * EPS == a as real * EPS + b as real * EPS
  {
  }

  /** The rows of a run take from the ingredient what free stock in the demanded units covers, short by at
      most EPS for each line that asked. */
  lemma {:induction false} RunTakesCovered(stock: seq<Item>, external: Ledger, plan: PlanId, lines: seq<Line>, n: Name,
      us: seq<Unit>)
    requires Distinct(stock) && DistinctUnits(us) && ReserveLines(stock, external, plan, lines).Ok?
    ensures var taken := Taken(ReserveLines(stock, external, plan, lines).value.rows, PoolIn(us, stock, n));
            var covered := CoveredIn(us, lines, Candidates(stock, n), n, external);
            covered - CountIn(us, lines, n) as real * EPS <= taken <= covered
  {
    var run := ReserveLines(stock, external, plan, lines).value;
    if us == [] {
      TakenNone(run.rows, {});
    } else {
      var front, u := us[..|us| - 1], us[|us| - 1];
      RunTakesCovered(stock, external, plan, lines, n, front);
      PoolsDisjoint(front, stock, n, u);
      TakenSplit(run.rows, PoolIn(front, stock, n), Pool(stock, n, u));
      RunServesDemand(stock, external, plan, lines, n, u);
      ServedIsCovered(FreeOf(stock, n, u, external), Demand(lines, n, u), Count(lines, n, u),
        FreeOf(stock, n, u, run.reserved));
      SlackAdds(CountIn(front, lines, n), Count(lines, n, u));
    }
  }
}
