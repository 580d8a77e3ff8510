/** The item-by-item reservation run follows the planner's aggregate draw-down. */
module Simulation {
  import opened Units
  import opened Stock
  import opened Allocation
  import R = ReservationRun
  import opened P = Planner

  // ----- Filtering and sorting commute -----

  lemma {:induction false} NamedIgnoresUncounted(items: seq<Item>, n: Name)
    ensures Named(Counted(items), n) == Named(items, n)
  {
    if items != [] {
      NamedIgnoresUncounted(items[1..], n);
      if items[0].Counts() {
        assert Counted(items)[1..] == Counted(items[1..]);
      }
    }
  }

  lemma {:induction false} CountedLater(s: seq<Item>, d: Date)
    requires forall k :: 0 <= k < |s| ==> d <= s[k].expiry
    ensures forall k :: 0 <= k < |Counted(s)| ==> d <= Counted(s)[k].expiry
  {
    if s != [] {
      CountedLater(s[1..], d);
    }
  }

  lemma {:induction false} CountedInsert(x: Item, s: seq<Item>)
    requires ByExpiry(s)
    ensures Counted(InsertByExpiry(x, s)) == if x.Counts() then InsertByExpiry(x, Counted(s)) else Counted(s)
  {
    if s == [] || x.expiry <= s[0].expiry {
      CountedLater(s, x.expiry);
      assert ([x] + s)[1..] == s;
    } else {
      CountedInsert(x, s[1..]);
      var t := InsertByExpiry(x, s[1..]);
      assert ([s[0]] + t)[1..] == t;
      var rest := Counted(s[1..]);
      assert ([s[0]] + rest)[1..] == rest;
    }
  }

  lemma {:induction false} CountedSort(items: seq<Item>)
    ensures Counted(SortByExpiry(items)) == SortByExpiry(Counted(items))
  {
    if items != [] {
      CountedSort(items[1..]);
      SortSorts(items[1..]);
      CountedInsert(items[0], SortByExpiry(items[1..]));
      if items[0].Counts() {
        assert Counted(items)[1..] == Counted(items[1..]);
      }
    }
  }

  lemma SameCandidates(stock: seq<Item>, n: Name)
    ensures Named(SortByExpiry(Counted(stock)), n) == Candidates(stock, n)
  {
    CountedSort(stock);
    NamedIgnoresUncounted(SortByExpiry(stock), n);
  }

  // ----- The aggregate inventory -----

  lemma {:induction false} FreeTotalAppend(a: seq<Item>, b: seq<Item>, u: Unit, reserved: Ledger)
    ensures FreeTotal(a + b, u, reserved) == FreeTotal(a, u, reserved) + FreeTotal(b, u, reserved)
  {
    if a == [] {
      assert a + b == b;
    } else {
      FreeTotalAppend(a[1..], b, u, reserved);
      assert (a + b)[1..] == a[1..] + b;
    }
  }

  /** The snapshot that the items of one ingredient amount to: everything kept in the base unit of the first. */
  function SnapshotOf(mine: seq<Item>): Snapshot
    requires mine != []
  {
    Snapshot(FreeTotal(mine, mine[0].BaseUnit(), map[]), mine[0].BaseUnit(), mine[0].expiry)
  }

  lemma AddItemAt(m: Snapshots, x: Item)
    requires x.name in m ==> m[x.name].expiry <= x.expiry
    ensures var m' := AddItem(m, x);
            && x.name in m'
            && m'[x.name] == if x.name !in m then Snapshot(x.BaseQuantity(), x.BaseUnit(), x.expiry)
                             else m[x.name].(quantity := m[x.name].quantity + if x.BaseUnit() == m[x.name].unit
                               then x.BaseQuantity() else 0.0)
  {
  }

  lemma AddItemElsewhere(m: Snapshots, x: Item, n: Name)
    requires n != x.name
    ensures n in AddItem(m, x) <==> n in m
    ensures n in m ==> AddItem(m, x)[n] == m[n]
  {
  }

  lemma FreeTotalOne(x: Item, u: Unit)
    ensures FreeTotal([x], u, map[]) == if x.BaseUnit() == u then x.BaseQuantity() else 0.0
  {
    var none: Ledger := map[];
    assert Lookup(none, x.id) == 0.0;
    assert [x][1..] == [];
    assert FreeTotal([], u, none) == 0.0;
  }

  lemma SnapshotOfLonger(mine: seq<Item>, x: Item)
    ensures mine == [] ==> SnapshotOf(mine + [x]) == Snapshot(x.BaseQuantity(), x.BaseUnit(), x.expiry)
    ensures mine != [] ==>
              SnapshotOf(mine + [x]) == SnapshotOf(mine).(quantity :=
                SnapshotOf(mine).quantity + if x.BaseUnit() == mine[0].BaseUnit() then x.BaseQuantity() else 0.0)
  {
    if mine == [] {
      assert mine + [x] == [x];
      FreeTotalOne(x, x.BaseUnit());
    } else {
      var u := mine[0].BaseUnit();
      assert (mine + [x])[0] == mine[0];
      FreeTotalAppend(mine, [x], u, map[]);
      FreeTotalOne(x, u);
    }
  }

  lemma {:induction false} AggregateIsTotal(s: seq<Item>, n: Name)
    requires ByExpiry(s) && forall k :: 0 <= k < |s| ==> s[k].Counts()
    ensures n in AddItems(s) <==> Named(s, n) != []
    ensures n in AddItems(s) ==> AddItems(s)[n] == SnapshotOf(Named(s, n))
  {
    if s != [] {
      var front, x := s[..|s| - 1], s[|s| - 1];
      var mine := Named(front, n);
      AggregateIsTotal(front, n);
      assert s == front + [x];
      NamedAppend(front, [x], n);
      assert [x][1..] == [];
      if x.name == n {
        NamedMembers(front, n);
        assert Named(s, n) == mine + [x];
        assert mine != [] ==> mine[0] in front;
        AddItemAt(AddItems(front), x);
        SnapshotOfLonger(mine, x);
      } else {
        assert Named(s, n) == mine + [] == mine;
        AddItemElsewhere(AddItems(front), x, n);
      }
    }
  }

  /** The planner starts, for each ingredient, from the total of the items kept in the base unit of its
      earliest-expiring item. */
  lemma BuildIsTotal(stock: seq<Item>, n: Name)
    ensures n in Build(stock) <==> Candidates(stock, n) != []
    ensures n in Build(stock) ==>
              var mine := Candidates(stock, n);
              Build(stock)[n] ==
                Snapshot(FreeTotal(mine, mine[0].BaseUnit(), map[]), mine[0].BaseUnit(), mine[0].expiry)
  {
    var s := SortByExpiry(Counted(stock));
    SortSorts(Counted(stock));
    CountedAllCount(stock);
    SortKeepsMembers(Counted(stock));
    forall k | 0 <= k < |s| ensures s[k].Counts() {
      assert s[k] in s;
    }
    AggregateIsTotal(s, n);
    SameCandidates(stock, n);
  }

  lemma {:induction false} CountedAllCount(items: seq<Item>)
    ensures forall x :: x in Counted(items) ==> x.Counts()
  {
    if items != [] {
      CountedAllCount(items[1..]);
    }
  }

  // ----- Drawing down lines -----

  function DrawLines(m: Snapshots, lines: seq<Line>): Snapshots {
    if lines == [] then m
    else
      var l := lines[|lines| - 1];
      Draw(DrawLines(m, lines[..|lines| - 1]), l.name, l.quantity, l.unit)
  }

  lemma {:induction false} DrawLinesAppend(m: Snapshots, a: seq<Line>, b: seq<Line>)
    ensures DrawLines(m, a + b) == DrawLines(DrawLines(m, a), b)
  {
    if b == [] {
      assert a + b == a;
    } else {
      DrawLinesAppend(m, a, b[..|b| - 1]);
      assert (a + b)[..|a + b| - 1] == a + b[..|b| - 1];
    }
  }

  lemma {:induction false} DrawAllIsDrawLines(m: Snapshots, ingredients: seq<Ingredient>, factor: real, date: Date)
    requires Scales(ingredients, factor)
    ensures DrawAll(m, ingredients, factor) == DrawLines(m, LinesOn(date, ingredients, factor))
  {
    if ingredients != [] {
      var front := ingredients[..|ingredients| - 1];
      DrawAllIsDrawLines(m, front, factor, date);
      var lines := LinesOn(date, ingredients, factor);
      assert lines[..|lines| - 1] == LinesOn(date, front, factor);
    }
  }

  /** All lines of the planned days, in order. */
  function PlanLines(days: seq<PlannedDay>): seq<Line> {
    if days == [] then [] else PlanLines(days[..|days| - 1]) + days[|days| - 1].lines
  }

  /** What the planner has left after its days is what drawing their lines leaves. */
  lemma {:induction false} PlannerDrawsItsLines(start: Snapshots, candidates: seq<Recipe>, servings: int, today: Date,
      d: nat, p: Progress)
    requires candidates != [] && Reaches(start, candidates, servings, today, d, p)
    ensures p.snapshots == DrawLines(start, PlanLines(p.days))
  {
    if d > 0 {
      var q, r, date := LastStep(start, candidates, servings, today, d, p);
      PlannerDrawsItsLines(start, candidates, servings, today, d - 1, q);
      CookDraws(start, q, r, servings, date, p);
    }
  }

  lemma CookDraws(start: Snapshots, q: Progress, r: Recipe, servings: int, date: Date, p: Progress)
    requires q.snapshots == DrawLines(start, PlanLines(q.days)) && Cook(q, r, servings, date) == Ok(p)
    ensures p.snapshots == DrawLines(start, PlanLines(p.days))
  {
    var factor := servings as real / 2.0;
    DrawAllIsDrawLines(q.snapshots, r.ingredients, factor, date);
    assert p.days[..|p.days| - 1] == q.days;
    assert PlanLines(p.days) == PlanLines(q.days) + LinesOn(date, r.ingredients, factor);
    DrawLinesAppend(start, PlanLines(q.days), LinesOn(date, r.ingredients, factor));
  }

  /** Closed form of the draw-down: what the demand in the snapshot's unit leaves, never below zero. */
  lemma {:induction false} DrawClosedForm(m: Snapshots, lines: seq<Line>, n: Name)
    requires n in m && m[n].quantity >= 0.0
    ensures n in DrawLines(m, lines)
    ensures DrawLines(m, lines)[n] == m[n].(quantity := Max(0.0, m[n].quantity - R.Demand(lines, n, m[n].unit)))
  {
    if lines != [] {
      DrawClosedForm(m, lines[..|lines| - 1], n);
    }
  }

  // ----- The simulation -----

  /** With nothing held by other plans, the reservation never fails, and after any k lines the free
      quantity of an ingredient, in the planner's unit, is at least the planner's remaining quantity
      and exceeds it by at most EPS for each line that asked for it. */
  lemma ReservationFollowsPlanner(stock: seq<Item>, external: Ledger, plan: PlanId, lines: seq<Line>, k: nat, n: Name)
    requires Distinct(stock) && k <= |lines| && n in Build(stock)
    requires forall x :: x in stock ==> Lookup(external, x.id) == 0.0
    ensures R.ReserveLines(stock, external, plan, lines[..k]).Ok?
    ensures n in DrawLines(Build(stock), lines[..k])
    ensures var left := DrawLines(Build(stock), lines[..k])[n];
            var free := R.FreeOf(stock, n, left.unit, R.ReserveLines(stock, external, plan, lines[..k]).value.reserved);
            left.quantity <= free <= left.quantity + R.Count(lines[..k], n, left.unit) as real * EPS
  {
    var mine := Candidates(stock, n);
    BuildIsTotal(stock, n);
    CandidatesMembers(stock, n);
    R.NothingHeldNothingRefused(stock, external, plan, lines[..k]);
    FreeTotalFrame(mine, mine[0].BaseUnit(), map[], external);
    DrawClosedForm(Build(stock), lines[..k], n);
    R.RunServesDemand(stock, external, plan, lines[..k], n, mine[0].BaseUnit());
  }

  /** So after d days the planner's own dictionary and the reservation of its lines differ by no more. */
  lemma ReservationFollowsPlanDays(stock: seq<Item>, external: Ledger, plan: PlanId, candidates: seq<Recipe>,
      servings: int, today: Date, d: nat, n: Name)
    requires Distinct(stock) && n in Build(stock) && candidates != []
    requires PlanDays(Build(stock), candidates, servings, today, d).Ok?
    requires forall x :: x in stock ==> Lookup(external, x.id) == 0.0
    ensures var p := PlanDays(Build(stock), candidates, servings, today, d).value;
            var run := R.ReserveLines(stock, external, plan, PlanLines(p.days));
            && n in p.snapshots && run.Ok?
            && var free := R.FreeOf(stock, n, p.snapshots[n].unit, run.value.reserved);
            p.snapshots[n].quantity <= free <= p.snapshots[n].quantity +
              R.Count(PlanLines(p.days), n, p.snapshots[n].unit) as real * EPS
  {
    var p := PlanDays(Build(stock), candidates, servings, today, d).value;
    var lines := PlanLines(p.days);
    PlannerDrawsItsLines(Build(stock), candidates, servings, today, d, p);
    assert lines[..|lines|] == lines;
    ReservationFollowsPlanner(stock, external, plan, lines, |lines|, n);
  }

  lemma BuildNonNegative(stock: seq<Item>, n: Name)
    ensures n in Build(stock) ==> Build(stock)[n].quantity >= 0.0
  {
    BuildIsTotal(stock, n);
  }

  /** The planner never goes below zero. */
  lemma RemainingNonNegative(stock: seq<Item>, candidates: seq<Recipe>, servings: int, today: Date, d: nat, n: Name,
      p: Progress)
    requires candidates != [] && Reaches(Build(stock), candidates, servings, today, d, p)
    requires n in Build(stock)
    ensures n in p.snapshots && p.snapshots[n].quantity >= 0.0 && p.snapshots[n].unit == Build(stock)[n].unit
  {
    BuildNonNegative(stock, n);
    PlannerDrawsItsLines(Build(stock), candidates, servings, today, d, p);
    DrawClosedForm(Build(stock), PlanLines(p.days), n);
  }

  // ----- The names a day reserves -----

  lemma {:induction false} DrawAllUnasked(m: Snapshots, ingredients: seq<Ingredient>, factor: real, n: Name)
    ensures DrawAll(m, ingredients, factor).Keys == m.Keys
    ensures n in m ==> DrawAll(m, ingredients, factor)[n].unit == m[n].unit
    ensures n in m && (forall x :: x in ingredients && x.name == n ==>
              ToBase(x.quantity * factor, x.unit).1 != m[n].unit) ==>
            DrawAll(m, ingredients, factor)[n] == m[n]
  {
    if ingredients != [] {
      var front, last := ingredients[..|ingredients| - 1], ingredients[|ingredients| - 1];
      assert ingredients == front + [last];
      DrawAllUnasked(m, front, factor, n);
    }
  }

  /** Drawing a recipe takes from exactly the ingredients that it asks for in the unit they are kept in and of
      which something is left. */
  lemma {:induction false} DrawnIff(m: Snapshots, ingredients: seq<Ingredient>, factor: real, n: Name)
    ensures n in DrawnNames(m, ingredients, factor) ==>
              && n in m
              && exists x :: x in ingredients && x.name == n && ToBase(x.quantity * factor, x.unit).1 == m[n].unit
    ensures n in m && m[n].quantity > 0.0
            && (exists x :: x in ingredients && x.name == n && ToBase(x.quantity * factor, x.unit).1 == m[n].unit) ==>
              n in DrawnNames(m, ingredients, factor)
    ensures n in m && m[n].quantity <= 0.0 ==> n !in DrawnNames(m, ingredients, factor)
  {
    if ingredients != [] {
      var front, last := ingredients[..|ingredients| - 1], ingredients[|ingredients| - 1];
      assert ingredients == front + [last];
      DrawnIff(m, front, factor, n);
      DrawAllUnasked(m, front, factor, n);
      EmptyStaysEmpty(m, front, factor, n);
      assert last in ingredients;
    }
  }

  lemma {:induction false} EmptyStaysEmpty(m: Snapshots, ingredients: seq<Ingredient>, factor: real, n: Name)
    ensures n in m && m[n].quantity <= 0.0 ==>
              n in DrawAll(m, ingredients, factor) && DrawAll(m, ingredients, factor)[n].quantity <= 0.0
  {
    if ingredients != [] {
      EmptyStaysEmpty(m, ingredients[..|ingredients| - 1], factor, n);
    }
  }

  lemma {:induction false} DrawLinesKeys(m: Snapshots, lines: seq<Line>)
    ensures DrawLines(m, lines).Keys == m.Keys
  {
    if lines != [] {
      DrawLinesKeys(m, lines[..|lines| - 1]);
    }
  }

  /** Some line asks for n in base unit u. */
  ghost predicate AskedOn(lines: seq<Line>, n: Name, u: Unit) {
    exists k :: 0 <= k < |lines| && lines[k].name == n && lines[k].BaseUnit() == u
  }

  lemma AskedOnDay(today: Date, servings: int, day: PlannedDay, i: nat, n: Name, u: Unit)
    requires DayOk(today, servings, day, i)
    ensures AskedOn(day.lines, n, u) <==>
            exists x :: x in day.recipe.ingredients && x.name == n
                        && ToBase(x.quantity * (servings as real / 2.0), x.unit).1 == u
  {
    var factor := servings as real / 2.0;
    if k :| 0 <= k < |day.lines| && day.lines[k].name == n && day.lines[k].BaseUnit() == u {
      assert day.recipe.ingredients[k] in day.recipe.ingredients;
    }
    if x :| x in day.recipe.ingredients && x.name == n && ToBase(x.quantity * factor, x.unit).1 == u {
      var k :| 0 <= k < |day.recipe.ingredients| && day.recipe.ingredients[k] == x;
      assert day.lines[k].name == n && day.lines[k].BaseUnit() == u;
    }
  }

  /** The progress that a day was planned from. */
  lemma PlannedFrom(start: Snapshots, candidates: seq<Recipe>, servings: int, today: Date, d: nat, p: Progress, i: nat)
    returns (before: Progress)
    requires candidates != [] && Reaches(start, candidates, servings, today, d, p) && i < d
    ensures |p.days| == d && DayOk(today, servings, p.days[i], i)
    ensures Reaches(start, candidates, servings, today, i, before) && before.days == p.days[..i]
    ensures p.days[i].reserved == DrawnNames(before.snapshots, p.days[i].recipe.ingredients, servings as real / 2.0)
  {
    PlanDaysChooseWell(start, candidates, servings, today, d, p);
    assert ChosenWell(start, candidates, servings, today, p.days, i);
    before :| Reaches(start, candidates, servings, today, i, before) && before.days == p.days[..i]
      && p.days[i].reserved == DrawnNames(before.snapshots, p.days[i].recipe.ingredients, servings as real / 2.0);
  }

  /** What is left of an ingredient before a day. */
  lemma LeftBefore(stock: seq<Item>, candidates: seq<Recipe>, servings: int, today: Date, i: nat, before: Progress,
      n: Name)
    requires candidates != [] && Reaches(Build(stock), candidates, servings, today, i, before)
    ensures n in before.snapshots <==> n in Build(stock)
    ensures n in Build(stock) ==>
              && before.snapshots[n].unit == Build(stock)[n].unit
              && (before.snapshots[n].quantity > 0.0 <==>
                    R.Demand(PlanLines(before.days), n, Build(stock)[n].unit) < Build(stock)[n].quantity)
  {
    PlannerDrawsItsLines(Build(stock), candidates, servings, today, i, before);
    DrawLinesKeys(Build(stock), PlanLines(before.days));
    if n in Build(stock) {
      BuildNonNegative(stock, n);
      DrawClosedForm(Build(stock), PlanLines(before.days), n);
    }
  }

  /** A day reserves an ingredient exactly when it asks for it in the unit of the aggregate stock, and the days
      before have not asked for all of that stock. */
  lemma ReservedNamesAre(stock: seq<Item>, candidates: seq<Recipe>, servings: int, today: Date, d: nat, p: Progress,
      i: nat, n: Name)
    requires candidates != [] && Reaches(Build(stock), candidates, servings, today, d, p) && i < d
    ensures |p.days| == d
    ensures n in p.days[i].reserved <==>
            && n in Build(stock) && AskedOn(p.days[i].lines, n, Build(stock)[n].unit)
            && R.Demand(PlanLines(p.days[..i]), n, Build(stock)[n].unit) < Build(stock)[n].quantity
  {
    var before := PlannedFrom(Build(stock), candidates, servings, today, d, p, i);
    LeftBefore(stock, candidates, servings, today, i, before, n);
    DrawnIff(before.snapshots, p.days[i].recipe.ingredients, servings as real / 2.0, n);
    if n in Build(stock) {
      AskedOnDay(today, servings, p.days[i], i, n, Build(stock)[n].unit);
    }
  }
}
