/** The reservation service, writing rows through the session one by one.
    Models backend/app/modules/planning/reservation.py. */
module ReservationService {
  import opened Units
  import opened Stock
  import opened Allocation
  import opened Ledgers
  import R = ReservationRun
  import P = Planner
  import Simulation
  import opened PlanTables

  function Group(byName: map<Name, seq<Item>>, n: Name): seq<Item> {
    if n in byName then byName[n] else []
  }

  lemma NamedLast(items: seq<Item>, x: Item, n: Name)
    ensures Named(items + [x], n) == Named(items, n) + (if x.Counts() && x.name == n then [x] else [])
  {
    NamedAppend(items, [x], n);
    assert [x][1..] == [];
  }

  class Service {
    const session: Session

    constructor (session: Session)
      ensures this.session == session
    {
      this.session := session;
    }

    method ReservedQuantitiesByItem(exclude: PlanId) returns (reserved: Ledger)
      ensures reserved == LedgerOf(Others(session.working.reservations, exclude))
      ensures forall id :: Lookup(reserved, id) == Taken(Others(session.working.reservations, exclude), {id})
    {
      var rows := Others(session.working.reservations, exclude);
      reserved := map[];
      for k := 0 to |rows|
        invariant reserved == LedgerOf(rows[..k])
      {
        assert rows[..k + 1][..k] == rows[..k];
        reserved := reserved[rows[k].item := Lookup(reserved, rows[k].item) + rows[k].quantity];
      }
      assert rows[..|rows|] == rows;
      forall id ensures Lookup(reserved, id) == Taken(rows, {id}) {
        LedgerSums(rows, id);
      }
    }

    method ReservedQuantitiesByIngredient(table: seq<Item>, household: HouseholdId, exclude: PlanId)
        returns (reserved: Ledger)
      ensures reserved == NameLedger(Others(session.working.reservations, exclude), table, household)
      ensures Distinct(table) ==> forall n ::
                Lookup(reserved, n) == Taken(Others(session.working.reservations, exclude),
                  IdsNamed(table, household, n))
    {
      var rows := Others(session.working.reservations, exclude);
      reserved := map[];
      for k := 0 to |rows|
        invariant reserved == NameLedger(rows[..k], table, household)
      {
        assert rows[..k + 1][..k] == rows[..k];
        var item := Joined(table, household, rows[k].item);
        if item.Some? {
          reserved := reserved[item.value.name := Lookup(reserved, item.value.name) + rows[k].quantity];
        }
      }
      assert rows[..|rows|] == rows;
      if Distinct(table) {
        forall n ensures Lookup(reserved, n) == Taken(rows, IdsNamed(table, household, n)) {
          NameLedgerSums(rows, table, household, n);
        }
      }
    }

    /** The candidates of each ingredient, earliest expiry first. */
    method GroupByName(items: seq<Item>) returns (byName: map<Name, seq<Item>>)
      ensures forall n :: Group(byName, n) == Candidates(items, n)
    {
      var sorted := SortByExpiry(items);
      byName := map[];
      for k := 0 to |sorted|
        invariant forall n :: Group(byName, n) == Named(sorted[..k], n)
      {
        var item := sorted[k];
        ghost var before := byName;
        assert sorted[..k + 1] == sorted[..k] + [item];
        if item.Counts() {
          byName := byName[item.name := Group(byName, item.name) + [item]];
        }
        forall n ensures Group(byName, n) == Named(sorted[..k + 1], n) {
          assert Group(before, n) == Named(sorted[..k], n);
          NamedLast(sorted[..k], item, n);
        }
      }
      assert sorted[..|sorted|] == sorted;
    }

    /** Adds the rows of one line's allocations and books them. */
    method AddRows(plan: PlanId, day: Date, unit: Unit, shares: seq<Share>, reserved: Ledger) returns (after: Ledger)
      modifies session`working
      ensures after == AddAll(reserved, shares)
      ensures session.working ==
              old(session.working).(reservations := old(session.working).reservations +
              R.RowsOf(plan, day, unit, shares))
    {
      after := reserved;
      ghost var before := session.working;
      for k := 0 to |shares|
        invariant AddAll(after, shares[k..]) == AddAll(reserved, shares)
        invariant session.working.plans == before.plans
        invariant session.working.reservations + R.RowsOf(plan, day, unit, shares[k..]) ==
                  before.reservations + R.RowsOf(plan, day, unit, shares)
      {
        assert shares[k..][1..] == shares[k + 1..];
        session.AddReservation(Reservation(plan, day, shares[k].item.id, shares[k].quantity, unit));
        after := after[shares[k].item.id := Lookup(after, shares[k].item.id) + shares[k].quantity];
      }
    }

    /** One ingredient of one planned day; the result is the ledger, or None when the line is refused. */
    method ReserveLine(plan: PlanId, candidates: seq<Item>, line: Line, external: Ledger, reserved: Ledger,
                       ghost stock: seq<Item>, ghost rows: seq<Reservation>)
      returns (after: Option<Ledger>, ghost added: seq<Reservation>)
      requires candidates == Candidates(stock, line.name)
      modifies session`working
      ensures session.working == old(session.working).(reservations := old(session.working).reservations + added)
      ensures match R.ReserveLine(stock, external, plan, R.Run(reserved, rows), line)
              case Ok(run) => after == Some(run.reserved) && run.rows == rows + added
              case Insufficient(n) => after == None && n == line.name
    {
      added := [];
      if candidates == [] {
        return Some(reserved), [];
      }
      var shares := AllocateQuantity(candidates, line.quantity, line.unit, reserved);
      var (required, unit) := ToBase(line.quantity, line.unit);
      if R.HeldElsewhere(candidates, external) && Total(shares) + EPS < required {
        return None, [];
      }
      var ledger := AddRows(plan, line.day, unit, shares, reserved);
      added := R.RowsOf(plan, line.day, unit, shares);
      after := Some(ledger);
    }

    /** The lines of one day, continuing a run that has done the lines before it. */
    method ReserveDay(plan: PlanId, lines: seq<Line>, byName: map<Name, seq<Item>>, external: Ledger, reserved: Ledger,
                      ghost stock: seq<Item>, ghost done: seq<Line>, ghost rows: seq<Reservation>)
      returns (after: Option<Ledger>, refused: Name, ghost added: seq<Reservation>)
      requires forall n :: Group(byName, n) == Candidates(stock, n)
      requires R.ReserveLines(stock, external, plan, done) == R.Ok(R.Run(reserved, rows))
      modifies session`working
      ensures session.working == old(session.working).(reservations := old(session.working).reservations + added)
      ensures match R.ReserveLines(stock, external, plan, done + lines)
              case Ok(run) => after == Some(run.reserved) && run.rows == rows + added
              case Insufficient(n) => after == None && refused == n
    {
      var ledger := reserved;
      added := [];
      refused := 0;
      ghost var before := session.working;
      ghost var sofar, written := done, rows;
      for k := 0 to |lines|
        invariant sofar + lines[k..] == done + lines && written == rows + added
        invariant session.working == before.(reservations := before.reservations + added)
        invariant R.ReserveLines(stock, external, plan, sofar) == R.Ok(R.Run(ledger, written))
      {
        var line := lines[k];
        var candidates := Group(byName, line.name);
        R.OneMoreLine(stock, external, plan, sofar, line);
        var result, more := ReserveLine(plan, candidates, line, external, ledger, stock, written);
        MovesOver(sofar, lines, k);
        sofar := sofar + [line];
        AppendTwice(before.reservations, added, more);
        AppendTwice(rows, added, more);
        added := added + more;
        if result == None {
          R.FailureExtends(stock, external, plan, sofar, lines[k + 1..]);
          return None, line.name, added;
        }
        written := written + more;
        ledger := result.value;
      }
      assert sofar == done + lines;
      after := Some(ledger);
    }

    lemma MovesOver(sofar: seq<Line>, lines: seq<Line>, k: nat)
      requires k < |lines|
      ensures (sofar + [lines[k]]) + lines[k + 1..] == sofar + lines[k..]
    {
      assert lines[k..] == [lines[k]] + lines[k + 1..];
    }

    lemma AppendTwice(a: seq<Reservation>, b: seq<Reservation>, c: seq<Reservation>)
      ensures (a + b) + c == a + (b + c)
    {
    }

    /** Reserves every line of the plan in order. A refused line raises, leaving the rows added so
        far in the open transaction. */
    method ReservePlan(plan: PlanId, days: seq<P.PlannedDay>, inventory: seq<Item>) returns (refused: Option<Name>)
      modifies session`working
      ensures session.working.plans == old(session.working.plans)
      ensures match R.ReserveLines(inventory, LedgerOf(Others(old(session.working.reservations), plan)), plan,
              Simulation.PlanLines(days))
              case Ok(run) => refused == None
                && session.working.reservations == old(session.working.reservations) + run.rows
              case Insufficient(n) => refused == Some(n)
    {
      var external := ReservedQuantitiesByItem(plan);
      var byName := GroupByName(inventory);
      ghost var rows;
      refused, rows := ReserveDays(plan, days, byName, external, inventory);
    }

    method ReserveDays(plan: PlanId, days: seq<P.PlannedDay>, byName: map<Name, seq<Item>>, external: Ledger,
        ghost stock: seq<Item>)
      returns (refused: Option<Name>, ghost rows: seq<Reservation>)
      requires forall n :: Group(byName, n) == Candidates(stock, n)
      modifies session`working
      ensures session.working == old(session.working).(reservations := old(session.working).reservations + rows)
      ensures match R.ReserveLines(stock, external, plan, Simulation.PlanLines(days))
              case Ok(run) => refused == None && rows == run.rows
              case Insufficient(n) => refused == Some(n)
    {
      var reserved := external;
      ghost var before := session.working;
      rows := [];
      ghost var sofar: seq<Line> := [];
      for i := 0 to |days|
        invariant sofar == Simulation.PlanLines(days[..i])
        invariant R.ReserveLines(stock, external, plan, sofar) == R.Ok(R.Run(reserved, rows))
        invariant session.working == before.(reservations := before.reservations + rows)
      {
        assert days[..i + 1][..i] == days[..i];
        assert Simulation.PlanLines(days[..i + 1]) == sofar + days[i].lines;
        var after, name, added := ReserveDay(plan, days[i].lines, byName, external, reserved, stock, sofar, rows);
        sofar := sofar + days[i].lines;
        AppendTwice(before.reservations, rows, added);
        rows := rows + added;
        if after == None {
          ghost var rest := DaysPrefix(days, i + 1);
          R.FailureExtends(stock, external, plan, sofar, rest);
          return Some(name), rows;
        }
        reserved := after.value;
      }
      assert days[..|days|] == days;
      refused := None;
    }
  }

  lemma {:induction false} DaysPrefix(days: seq<P.PlannedDay>, i: nat) returns (rest: seq<Line>)
    requires i <= |days|
    ensures Simulation.PlanLines(days) == Simulation.PlanLines(days[..i]) + rest
    decreases |days|
  {
    if i == |days| {
      assert days[..i] == days;
      rest := [];
    } else {
      var front := days[..|days| - 1];
      assert front[..i] == days[..i];
      rest := DaysPrefix(front, i);
      rest := rest + days[|days| - 1].lines;
    }
  }
}
