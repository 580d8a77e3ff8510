/** The run of ReservationService.reserve_plan over the lines of a plan, as a function of the
    lines, and what it keeps: bounds, conservation, and locality. */
module ReservationRun {
  import opened Units
  import opened Stock
  import opened Allocation

  datatype Result<+T> = Ok(value: T) | Insufficient(name: Name)

  /** Quantities booked so far per item, and the rows this plan has added. */
  datatype Run = Run(reserved: Ledger, rows: seq<Reservation>)

  function RowsOf(plan: PlanId, day: Date, unit: Unit, shares: seq<Share>): seq<Reservation> {
    if shares == [] then []
    else [Reservation(plan, day, shares[0].item.id, shares[0].quantity, unit)] + RowsOf(plan, day, unit, shares[1..])
  }

  /** Some candidate is already held by another plan. */
  predicate HeldElsewhere(items: seq<Item>, external: Ledger) {
    exists k :: 0 <= k < |items| && Lookup(external, items[k].id) > 0.0
  }

  function SharesFor(stock: seq<Item>, reserved: Ledger, line: Line): seq<Share> {
    Allocate(Candidates(stock, line.name), line.BaseQuantity(), line.BaseUnit(), reserved)
  }

  predicate Refused(stock: seq<Item>, external: Ledger, reserved: Ledger, line: Line) {
    && HeldElsewhere(Candidates(stock, line.name), external)
    && Total(SharesFor(stock, reserved, line)) + EPS < line.BaseQuantity()
  }

  function ReserveLine(stock: seq<Item>, external: Ledger, plan: PlanId, run: Run, line: Line): Result<Run> {
    if Candidates(stock, line.name) == [] then Ok(run)
    else if Refused(stock, external, run.reserved, line) then Insufficient(line.name)
    else
      var shares := SharesFor(stock, run.reserved, line);
      Ok(Run(AddAll(run.reserved, shares), run.rows + RowsOf(plan, line.day, line.BaseUnit(), shares)))
  }

  function ReserveLines(stock: seq<Item>, external: Ledger, plan: PlanId, lines: seq<Line>): Result<Run> {
    if lines == [] then Ok(Run(external, []))
    else
      match ReserveLines(stock, external, plan, lines[..|lines| - 1])
      case Insufficient(n) => Insufficient(n)
      case Ok(run) => ReserveLine(stock, external, plan, run, lines[|lines| - 1])
  }

  lemma {:induction false} FailureSticks(stock: seq<Item>, external: Ledger, plan: PlanId, lines: seq<Line>, k: nat)
    requires k <= |lines| && ReserveLines(stock, external, plan, lines[..k]).Insufficient?
    ensures ReserveLines(stock, external, plan, lines) == ReserveLines(stock, external, plan, lines[..k])
  {
    if k == |lines| {
      assert lines[..k] == lines;
    } else {
      var front := lines[..|lines| - 1];
      assert front[..k] == lines[..k];
      FailureSticks(stock, external, plan, front, k);
    }
  }

  lemma FailureExtends(stock: seq<Item>, external: Ledger, plan: PlanId, lines: seq<Line>, more: seq<Line>)
    requires ReserveLines(stock, external, plan, lines).Insufficient?
    ensures ReserveLines(stock, external, plan, lines + more) == ReserveLines(stock, external, plan, lines)
  {
    assert (lines + more)[..|lines|] == lines;
    FailureSticks(stock, external, plan, lines + more, |lines|);
  }

  lemma OneMoreLine(stock: seq<Item>, external: Ledger, plan: PlanId, lines: seq<Line>, line: Line)
    requires ReserveLines(stock, external, plan, lines).Ok?
    ensures ReserveLines(stock, external, plan, lines + [line]) ==
            ReserveLine(stock, external, plan, ReserveLines(stock, external, plan, lines).value, line)
  {
    assert (lines + [line])[..|lines|] == lines;
  }

  // ----- One line -----

  lemma {:induction false} RowsOfTaken(plan: PlanId, day: Date, unit: Unit, shares: seq<Share>, ids: set<ItemId>)
    ensures (forall a :: a in shares ==> a.item.id in ids) ==>
            Taken(RowsOf(plan, day, unit, shares), ids) == Total(shares)
    ensures (forall a :: a in shares ==> a.item.id !in ids) ==> Taken(RowsOf(plan, day, unit, shares), ids) == 0.0
  {
    if shares != [] {
      RowsOfTaken(plan, day, unit, shares[1..], ids);
      var first := [Reservation(plan, day, shares[0].item.id, shares[0].quantity, unit)];
      assert first[..0] == [];
      TakenAppend(first, RowsOf(plan, day, unit, shares[1..]), ids);
      assert shares[0] in shares;
    }
  }

  lemma {:induction false} RowsOfAmount(plan: PlanId, day: Date, unit: Unit, shares: seq<Share>, id: ItemId)
    ensures Taken(RowsOf(plan, day, unit, shares), {id}) == Amount(shares, id)
  {
    if shares != [] {
      RowsOfAmount(plan, day, unit, shares[1..], id);
      var first := [Reservation(plan, day, shares[0].item.id, shares[0].quantity, unit)];
      assert first[..0] == [];
      TakenAppend(first, RowsOf(plan, day, unit, shares[1..]), {id});
    }
  }

  lemma {:induction false} RowsOfShape(plan: PlanId, day: Date, unit: Unit, shares: seq<Share>)
    ensures forall r :: r in RowsOf(plan, day, unit, shares) ==>
              && r.plan == plan && r.day == day && r.unit == unit
              && exists a :: a in shares && r.item == a.item.id && r.quantity == a.quantity
  {
    if shares != [] {
      RowsOfShape(plan, day, unit, shares[1..]);
      assert forall a :: a in shares[1..] ==> a in shares;
      assert shares[0] in shares;
    }
  }

  /** The items of one ingredient that are kept in one base unit. */
  function Pool(stock: seq<Item>, n: Name, u: Unit): set<ItemId> {
    set x | x in Candidates(stock, n) && x.BaseUnit() == u :: x.id
  }

  function FreeOf(stock: seq<Item>, n: Name, u: Unit, reserved: Ledger): (r: real)
    ensures r >= 0.0
  {
    FreeTotal(Candidates(stock, n), u, reserved)
  }

  predicate Asks(line: Line, n: Name, u: Unit) {
    line.name == n && line.BaseUnit() == u
  }

  /** A successful line books exactly the items of its shares and appends matching rows. */
  lemma LineBooks(stock: seq<Item>, external: Ledger, plan: PlanId, run: Run, line: Line)
    requires Distinct(stock) && ReserveLine(stock, external, plan, run, line).Ok?
    ensures var next := ReserveLine(stock, external, plan, run, line).value;
            var shares := SharesFor(stock, run.reserved, line);
            && next.rows == run.rows + RowsOf(plan, line.day, line.BaseUnit(), shares)
            && forall id :: Lookup(next.reserved, id) == Lookup(run.reserved, id) + Amount(shares, id)
  {
    var shares := SharesFor(stock, run.reserved, line);
    forall id ensures Lookup(AddAll(run.reserved, shares), id) == Lookup(run.reserved, id) + Amount(shares, id) {
      AddAllLookup(run.reserved, shares, id);
    }
    assert Candidates(stock, line.name) == [] ==> shares == [];
  }

  /** How much one line takes from one pool of stock. */
  function Moved(stock: seq<Item>, reserved: Ledger, line: Line, n: Name, u: Unit): real {
    if Asks(line, n, u) then Total(SharesFor(stock, reserved, line)) else 0.0
  }

  lemma OtherIngredientUntouched(stock: seq<Item>, reserved: Ledger, line: Line, x: Item)
    requires Distinct(stock) && x in stock && x.name != line.name
    ensures Amount(SharesFor(stock, reserved, line), x.id) == 0.0
  {
    var mine := Candidates(stock, line.name);
    CandidatesMembers(stock, line.name);
    forall y | y in mine ensures y.id != x.id {
      if y.id == x.id { SameIdSameItem(stock, x, y); }
    }
    AbsentItemGetsNothing(mine, line.BaseQuantity(), line.BaseUnit(), reserved, x.id);
  }

  lemma LineLowersFree(stock: seq<Item>, external: Ledger, plan: PlanId, run: Run, line: Line, n: Name, u: Unit)
    requires Distinct(stock) && ReserveLine(stock, external, plan, run, line).Ok?
    ensures FreeOf(stock, n, u, ReserveLine(stock, external, plan, run, line).value.reserved) ==
            FreeOf(stock, n, u, run.reserved) - Moved(stock, run.reserved, line, n, u)
  {
    var next := ReserveLine(stock, external, plan, run, line).value;
    LineBooks(stock, external, plan, run, line);
    CandidatesMembers(stock, n);
    if line.name == n {
      FreeAfterShares(Candidates(stock, n), line.BaseQuantity(), line.BaseUnit(), run.reserved, next.reserved, u);
    } else {
      forall x | x in Candidates(stock, n) ensures Lookup(next.reserved, x.id) == Lookup(run.reserved, x.id) {
        OtherIngredientUntouched(stock, run.reserved, line, x);
      }
      FreeTotalFrame(Candidates(stock, n), u, next.reserved, run.reserved);
    }
  }

  /** The shares of a line lie in a pool if the line asks for it, and outside otherwise. */
  lemma SharesLie(stock: seq<Item>, reserved: Ledger, line: Line, n: Name, u: Unit)
    requires Distinct(stock)
    ensures forall a :: a in SharesFor(stock, reserved, line) ==> (a.item.id in Pool(stock, n, u) <==> Asks(line, n, u))
  {
    var shares := SharesFor(stock, reserved, line);
    CandidatesMembers(stock, line.name);
    CandidatesMembers(stock, n);
    SharesComeFromItems(Candidates(stock, line.name), line.BaseQuantity(), line.BaseUnit(), reserved);
    forall a | a in shares ensures a.item.id in Pool(stock, n, u) <==> Asks(line, n, u) {
      if a.item.id in Pool(stock, n, u) {
        var y :| y in Candidates(stock, n) && y.BaseUnit() == u && y.id == a.item.id;
        SameIdSameItem(stock, a.item, y);
      }
    }
  }

  lemma LineAddsRows(stock: seq<Item>, external: Ledger, plan: PlanId, run: Run, line: Line, n: Name, u: Unit)
    requires Distinct(stock) && ReserveLine(stock, external, plan, run, line).Ok?
    ensures Taken(ReserveLine(stock, external, plan, run, line).value.rows, Pool(stock, n, u)) ==
            Taken(run.rows, Pool(stock, n, u)) + Moved(stock, run.reserved, line, n, u)
  {
    var shares := SharesFor(stock, run.reserved, line);
    LineBooks(stock, external, plan, run, line);
    SharesLie(stock, run.reserved, line, n, u);
    TakenAppend(run.rows, RowsOf(plan, line.day, line.BaseUnit(), shares), Pool(stock, n, u));
    RowsOfTaken(plan, line.day, line.BaseUnit(), shares, Pool(stock, n, u));
  }

  /** What one line does to one pool of stock: it moves a quantity t from the free total to the
      plan's rows, where t is the demand or the free total, whichever is smaller, short by at most
      EPS. A line that asks for something else moves nothing. */
  lemma LineMoves(stock: seq<Item>, external: Ledger, plan: PlanId, run: Run, line: Line, next: Run, n: Name, u: Unit)
    returns (t: real)
    requires Distinct(stock) && ReserveLine(stock, external, plan, run, line) == Ok(next)
    ensures FreeOf(stock, n, u, next.reserved) == FreeOf(stock, n, u, run.reserved) - t
    ensures Taken(next.rows, Pool(stock, n, u)) == Taken(run.rows, Pool(stock, n, u)) + t
    ensures Asks(line, n, u) ==>
              var wanted := Min(line.BaseQuantity(), FreeOf(stock, n, u, run.reserved));
              wanted - EPS <= t <= wanted
    ensures !Asks(line, n, u) ==> t == 0.0
  {
    t := Moved(stock, run.reserved, line, n, u);
    LineLowersFree(stock, external, plan, run, line, n, u);
    LineAddsRows(stock, external, plan, run, line, n, u);
    if Asks(line, n, u) {
      CandidatesMembers(stock, n);
      AllocateIsTight(Candidates(stock, n), line.BaseQuantity(), u, run.reserved);
    }
  }

  // ----- Any number of lines -----

  /** Total demand of the lines for an ingredient in one base unit. */
  function Demand(lines: seq<Line>, n: Name, u: Unit): (r: real)
    ensures r >= 0.0
  {
    if lines == [] then 0.0
    else Demand(lines[..|lines| - 1], n, u) +
         (if Asks(lines[|lines| - 1], n, u) then lines[|lines| - 1].BaseQuantity() else 0.0)
  }

  function Count(lines: seq<Line>, n: Name, u: Unit): nat {
    if lines == [] then 0
    else Count(lines[..|lines| - 1], n, u) + (if Asks(lines[|lines| - 1], n, u) then 1 else 0)
  }

  lemma DemandNext(lines: seq<Line>, line: Line, n: Name, u: Unit)
    ensures Demand(lines + [line], n, u) ==
            Demand(lines, n, u) + (if Asks(line, n, u) then line.BaseQuantity() else 0.0)
    ensures Count(lines + [line], n, u) == Count(lines, n, u) + (if Asks(line, n, u) then 1 else 0)
  {
    assert (lines + [line])[..|lines|] == lines;
  }

  /** What is free after a demand on `before`: what the demand leaves, or nothing; the EPS cut-off can
      leave at most EPS more for each of the lines that asked. */
  predicate Served(before: real, demand: real, asked: nat, after: real) {
    var ideal := Max(0.0, before - demand);
    ideal <= after <= ideal + asked as real * EPS
  }

  /** The arithmetic of one more line: demand goes up by q, a quantity t moves. */
  lemma OneMoreServed(before: real, demand: real, asked: nat, free: real, q: real, t: real)
    requires q >= 0.0 && Served(before, demand, asked, free)
    requires Min(q, free) - EPS <= t <= Min(q, free)
    ensures Served(before, demand + q, asked + 1, free - t)
  {
    assert (asked + 1) as real * EPS == asked as real * EPS + EPS;
  }

  /** The run has served the lines' demand from one pool: the free total is what the demand leaves, within the
      cut-off, and what is no longer free is in the rows. */
  predicate Serves(stock: seq<Item>, external: Ledger, lines: seq<Line>, run: Run, n: Name, u: Unit) {
    var before, after := FreeOf(stock, n, u, external), FreeOf(stock, n, u, run.reserved);
    && Served(before, Demand(lines, n, u), Count(lines, n, u), after)
    && Taken(run.rows, Pool(stock, n, u)) == before - after
  }

  /** One more line serves its demand. */
  lemma LineServes(stock: seq<Item>, external: Ledger, plan: PlanId, lines: seq<Line>, run: Run, line: Line, next: Run,
      n: Name, u: Unit)
    requires Distinct(stock) && Serves(stock, external, lines, run, n, u)
    requires ReserveLine(stock, external, plan, run, line) == Ok(next)
    ensures Serves(stock, external, lines + [line], next, n, u)
  {
    var before, free, after := FreeOf(stock, n, u, external), FreeOf(stock, n, u, run.reserved),
      FreeOf(stock, n, u, next.reserved);
    var t := LineMoves(stock, external, plan, run, line, next, n, u);
    DemandNext(lines, line, n, u);
    if Asks(line, n, u) {
      OneMoreServed(before, Demand(lines, n, u), Count(lines, n, u), free, line.BaseQuantity(), t);
    }
    assert after == free - t;
    assert Served(before, Demand(lines + [line], n, u), Count(lines + [line], n, u), after);
  }

  /** One step back in a run. */
  lemma LastLine(stock: seq<Item>, external: Ledger, plan: PlanId, lines: seq<Line>, line: Line, run: Run)
      returns (earlier: Run)
    requires ReserveLines(stock, external, plan, lines + [line]) == Ok(run)
    ensures ReserveLines(stock, external, plan, lines) == Ok(earlier)
    ensures ReserveLine(stock, external, plan, earlier, line) == Ok(run)
  {
    assert (lines + [line])[..|lines|] == lines;
    earlier := ReserveLines(stock, external, plan, lines).value;
  }

  lemma {:induction false} RunServes(stock: seq<Item>, external: Ledger, plan: PlanId, lines: seq<Line>, run: Run,
      n: Name, u: Unit)
    requires Distinct(stock) && ReserveLines(stock, external, plan, lines) == Ok(run)
    ensures Serves(stock, external, lines, run, n, u)
  {
    if lines == [] {
      assert run == Run(external, []);
    } else {
      var front, line := lines[..|lines| - 1], lines[|lines| - 1];
      assert lines == front + [line];
      var earlier := LastLine(stock, external, plan, front, line, run);
      RunServes(stock, external, plan, front, earlier, n, u);
      LineServes(stock, external, plan, front, earlier, line, run, n, u);
    }
  }

  /** A successful run serves its lines' demand from every pool. */
  lemma RunServesDemand(stock: seq<Item>, external: Ledger, plan: PlanId, lines: seq<Line>, n: Name, u: Unit)
    requires Distinct(stock) && ReserveLines(stock, external, plan, lines).Ok?
    ensures Serves(stock, external, lines, ReserveLines(stock, external, plan, lines).value, n, u)
  {
    RunServes(stock, external, plan, lines, ReserveLines(stock, external, plan, lines).value, n, u);
  }

  /** Every booking is matched by a row, item by item. */
  lemma {:induction false} RunBooksItsRows(stock: seq<Item>, external: Ledger, plan: PlanId, lines: seq<Line>,
      id: ItemId)
    requires Distinct(stock) && ReserveLines(stock, external, plan, lines).Ok?
    ensures var run := ReserveLines(stock, external, plan, lines).value;
            Lookup(run.reserved, id) == Lookup(external, id) + Taken(run.rows, {id})
  {
    if lines != [] {
      var front, line := lines[..|lines| - 1], lines[|lines| - 1];
      RunBooksItsRows(stock, external, plan, front, id);
      var run := ReserveLines(stock, external, plan, front).value;
      LineBooks(stock, external, plan, run, line);
      var shares := SharesFor(stock, run.reserved, line);
      RowsOfAmount(plan, line.day, line.BaseUnit(), shares, id);
      TakenAppend(run.rows, RowsOf(plan, line.day, line.BaseUnit(), shares), {id});
    }
  }

  /** No item is booked beyond its base quantity. */
  predicate Within(stock: seq<Item>, reserved: Ledger) {
    forall k :: 0 <= k < |stock| ==> Lookup(reserved, stock[k].id) <= stock[k].BaseQuantity()
  }

  lemma LineStaysWithin(stock: seq<Item>, external: Ledger, plan: PlanId, run: Run, line: Line)
    requires Distinct(stock) && Within(stock, run.reserved)
    requires ReserveLine(stock, external, plan, run, line).Ok?
    ensures Within(stock, ReserveLine(stock, external, plan, run, line).value.reserved)
  {
    LineBooks(stock, external, plan, run, line);
    var next := ReserveLine(stock, external, plan, run, line).value;
    var mine := Candidates(stock, line.name);
    CandidatesMembers(stock, line.name);
    forall k | 0 <= k < |stock| ensures Lookup(next.reserved, stock[k].id) <= stock[k].BaseQuantity() {
      var x := stock[k];
      if x in mine {
        var i :| 0 <= i < |mine| && mine[i] == x;
        AmountWithinFree(mine, line.BaseQuantity(), line.BaseUnit(), run.reserved, i);
      } else {
        forall y | y in mine ensures y.id != x.id {
          if y.id == x.id { SameIdSameItem(stock, x, y); }
        }
        AbsentItemGetsNothing(mine, line.BaseQuantity(), line.BaseUnit(), run.reserved, x.id);
      }
    }
  }

  /** A line neither lowers a booking nor touches an item outside its stock. */
  lemma LineIsLocal(stock: seq<Item>, external: Ledger, plan: PlanId, run: Run, line: Line, id: ItemId)
    requires Distinct(stock) && ReserveLine(stock, external, plan, run, line).Ok?
    ensures var next := ReserveLine(stock, external, plan, run, line).value;
            && Lookup(next.reserved, id) - Lookup(run.reserved, id) == Taken(next.rows, {id}) - Taken(run.rows, {id})
            && Lookup(next.reserved, id) >= Lookup(run.reserved, id)
            && ((forall x :: x in stock ==> x.id != id) ==> Lookup(next.reserved, id) == Lookup(run.reserved, id))
  {
    LineBooks(stock, external, plan, run, line);
    var mine := Candidates(stock, line.name);
    CandidatesMembers(stock, line.name);
    var shares := SharesFor(stock, run.reserved, line);
    RowsOfAmount(plan, line.day, line.BaseUnit(), shares, id);
    TakenAppend(run.rows, RowsOf(plan, line.day, line.BaseUnit(), shares), {id});
    if i :| 0 <= i < |mine| && mine[i].id == id {
      AmountWithinFree(mine, line.BaseQuantity(), line.BaseUnit(), run.reserved, i);
    } else {
      AbsentItemGetsNothing(mine, line.BaseQuantity(), line.BaseUnit(), run.reserved, id);
    }
  }

  lemma {:induction false} RunStaysWithin(stock: seq<Item>, external: Ledger, plan: PlanId, lines: seq<Line>)
    requires Distinct(stock) && Within(stock, external)
    requires ReserveLines(stock, external, plan, lines).Ok?
    ensures Within(stock, ReserveLines(stock, external, plan, lines).value.reserved)
  {
    if lines != [] {
      var front := lines[..|lines| - 1];
      RunStaysWithin(stock, external, plan, front);
      LineStaysWithin(stock, external, plan, ReserveLines(stock, external, plan, front).value, lines[|lines| - 1]);
    }
  }

  /** Every row belongs to the plan and to the day of one of its lines, takes a positive quantity
      of a counted item of that line's ingredient, and is in that line's base unit. */
  lemma {:induction false} RowsBelong(stock: seq<Item>, external: Ledger, plan: PlanId, lines: seq<Line>)
    requires Distinct(stock) && ReserveLines(stock, external, plan, lines).Ok?
    ensures forall r :: r in ReserveLines(stock, external, plan, lines).value.rows ==>
              && r.plan == plan && r.quantity > 0.0
              && exists l, x :: l in lines && x in stock && r.day == l.day && r.unit == l.BaseUnit() == x.BaseUnit()
                                && x.Counts() && x.id == r.item && x.name == l.name
  {
    if lines != [] {
      var front, line := lines[..|lines| - 1], lines[|lines| - 1];
      RowsBelong(stock, external, plan, front);
      var run := ReserveLines(stock, external, plan, front).value;
      LineBooks(stock, external, plan, run, line);
      var shares := SharesFor(stock, run.reserved, line);
      CandidatesMembers(stock, line.name);
      SharesComeFromItems(Candidates(stock, line.name), line.BaseQuantity(), line.BaseUnit(), run.reserved);
      RowsOfShape(plan, line.day, line.BaseUnit(), shares);
      forall r | r in RowsOf(plan, line.day, line.BaseUnit(), shares)
        ensures r.plan == plan && r.quantity > 0.0
        ensures exists l, x :: l in lines && x in stock && r.day == l.day && r.unit == l.BaseUnit() == x.BaseUnit()
                               && x.Counts() && x.id == r.item && x.name == l.name
      {
        var a :| a in shares && r.item == a.item.id && r.quantity == a.quantity;
        assert line in lines && a.item in stock;
      }
      forall r | r in run.rows
        ensures exists l, x :: l in lines && x in stock && r.day == l.day && r.unit == l.BaseUnit() == x.BaseUnit()
                               && x.Counts() && x.id == r.item && x.name == l.name
      {
        var l, x :| l in front && x in stock && r.day == l.day && r.unit == l.BaseUnit() == x.BaseUnit()
                    && x.Counts() && x.id == r.item && x.name == l.name;
        assert l in lines;
      }
    }
  }

  // ----- When a line is refused -----

  /** A line is refused exactly when some item of its ingredient is already held by another plan and
      the free stock in its unit falls short of the demand by more than a billionth. */
  lemma RefusedIffShort(stock: seq<Item>, external: Ledger, reserved: Ledger, line: Line)
    requires Distinct(stock)
    ensures Refused(stock, external, reserved, line) <==>
              && (exists x :: x in stock && x.Counts() && x.name == line.name && Lookup(external, x.id) > 0.0)
              && FreeOf(stock, line.name, line.BaseUnit(), reserved) + 0.000000001 < line.BaseQuantity()
  {
    var mine := Candidates(stock, line.name);
    CandidatesMembers(stock, line.name);
    AllocateIsTight(mine, line.BaseQuantity(), line.BaseUnit(), reserved);
    if x :| x in stock && x.Counts() && x.name == line.name && Lookup(external, x.id) > 0.0 {
      assert x in mine;
      var k :| 0 <= k < |mine| && mine[k] == x;
      assert HeldElsewhere(mine, external);
    }
    if k :| 0 <= k < |mine| && Lookup(external, mine[k].id) > 0.0 {
      assert mine[k] in mine;
    }
  }

  /** Reserving a line fails exactly then, naming the line's ingredient. */
  lemma LineFailsIff(stock: seq<Item>, external: Ledger, plan: PlanId, run: Run, line: Line)
    requires Distinct(stock)
    ensures ReserveLine(stock, external, plan, run, line) == Insufficient(line.name) <==>
              && (exists x :: x in stock && x.Counts() && x.name == line.name && Lookup(external, x.id) > 0.0)
              && FreeOf(stock, line.name, line.BaseUnit(), run.reserved) + 0.000000001 < line.BaseQuantity()
    ensures ReserveLine(stock, external, plan, run, line).Insufficient? ==>
              ReserveLine(stock, external, plan, run, line) == Insufficient(line.name)
  {
    RefusedIffShort(stock, external, run.reserved, line);
    CandidatesMembers(stock, line.name);
  }

  /** Line k is the first to fail: the lines before it are reserved, and it is refused after them. */
  ghost predicate FailsAt(stock: seq<Item>, external: Ledger, plan: PlanId, lines: seq<Line>, k: nat) {
    && k < |lines| && ReserveLines(stock, external, plan, lines[..k]).Ok?
    && ReserveLine(stock, external, plan, ReserveLines(stock, external, plan, lines[..k]).value, lines[k]).Insufficient?
  }

  lemma FailsEarlier(stock: seq<Item>, external: Ledger, plan: PlanId, front: seq<Line>, last: Line, k: nat)
    requires k < |front|
    ensures FailsAt(stock, external, plan, front + [last], k) <==> FailsAt(stock, external, plan, front, k)
  {
    assert (front + [last])[..k] == front[..k];
  }

  /** A run fails exactly when some line is refused after the lines before it, and names that line's ingredient. */
  lemma {:induction false} RunFailsIff(stock: seq<Item>, external: Ledger, plan: PlanId, lines: seq<Line>)
    returns (first: nat)
    requires Distinct(stock)
    ensures ReserveLines(stock, external, plan, lines).Insufficient? ==>
              && FailsAt(stock, external, plan, lines, first)
              && ReserveLines(stock, external, plan, lines) == Insufficient(lines[first].name)
    ensures ReserveLines(stock, external, plan, lines).Ok? ==>
              forall k: nat :: !FailsAt(stock, external, plan, lines, k)
  {
    first := 0;
    if lines != [] {
      var front, line := lines[..|lines| - 1], lines[|lines| - 1];
      assert lines == front + [line];
      first := RunFailsIff(stock, external, plan, front);
      if ReserveLines(stock, external, plan, front).Insufficient? {
        FailsEarlier(stock, external, plan, front, line, first);
      } else {
        LineFailsIff(stock, external, plan, ReserveLines(stock, external, plan, front).value, line);
        first := |front|;
        forall k: nat | k < |front| ensures !FailsAt(stock, external, plan, lines, k) {
          FailsEarlier(stock, external, plan, front, line, k);
        }
      }
    }
  }

  /** With nothing held by other plans no line is refused. */
  lemma {:induction false} NothingHeldNothingRefused(stock: seq<Item>, external: Ledger, plan: PlanId, lines: seq<Line>)
    requires Distinct(stock) && forall x :: x in stock ==> Lookup(external, x.id) <= 0.0
    ensures ReserveLines(stock, external, plan, lines).Ok?
  {
    if lines != [] {
      NothingHeldNothingRefused(stock, external, plan, lines[..|lines| - 1]);
      CandidatesMembers(stock, lines[|lines| - 1].name);
    }
  }
}
