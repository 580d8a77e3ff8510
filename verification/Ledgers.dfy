/** Reading the reservation table: the quantities held per item and per ingredient. */
module Ledgers {
  import opened Units
  import opened Stock

  /** The rows of the other plans. */
  function Others(rows: seq<Reservation>, plan: PlanId): seq<Reservation> {
    if rows == [] then []
    else Others(rows[..|rows| - 1], plan) + (if rows[|rows| - 1].plan != plan then [rows[|rows| - 1]] else [])
  }

  function Book(m: Ledger, r: Reservation): Ledger {
    m[r.item := Lookup(m, r.item) + r.quantity]
  }

  /** One entry per reserved item, holding the sum of its rows. */
  function LedgerOf(rows: seq<Reservation>): Ledger {
    if rows == [] then map[] else Book(LedgerOf(rows[..|rows| - 1]), rows[|rows| - 1])
  }

  lemma {:induction false} LedgerSums(rows: seq<Reservation>, id: ItemId)
    ensures Lookup(LedgerOf(rows), id) == Taken(rows, {id})
  {
    if rows != [] {
      LedgerSums(rows[..|rows| - 1], id);
    }
  }

  lemma {:induction false} OthersMembers(rows: seq<Reservation>, plan: PlanId)
    ensures forall r :: r in Others(rows, plan) <==> r in rows && r.plan != plan
  {
    if rows != [] {
      OthersMembers(rows[..|rows| - 1], plan);
      assert rows == rows[..|rows| - 1] + [rows[|rows| - 1]];
    }
  }

  lemma {:induction false} OthersAppend(a: seq<Reservation>, b: seq<Reservation>, plan: PlanId)
    ensures Others(a + b, plan) == Others(a, plan) + Others(b, plan)
  {
    if b == [] {
      assert a + b == a;
      assert Others(a, plan) + [] == Others(a, plan);
    } else {
      var front, r := b[..|b| - 1], b[|b| - 1];
      var last := if r.plan != plan then [r] else [];
      OthersAppend(a, front, plan);
      assert (a + b)[..|a + b| - 1] == a + front && (a + b)[|a + b| - 1] == r;
      assert Others(a + b, plan) == Others(a + front, plan) + last;
      assert (Others(a, plan) + Others(front, plan)) + last == Others(a, plan) + (Others(front, plan) + last);
    }
  }

  lemma {:induction false} OthersAll(rows: seq<Reservation>, plan: PlanId)
    ensures (forall r :: r in rows ==> r.plan != plan) ==> Others(rows, plan) == rows
    ensures (forall r :: r in rows ==> r.plan == plan) ==> Others(rows, plan) == []
  {
    if rows != [] {
      assert rows[|rows| - 1] in rows;
      OthersAll(rows[..|rows| - 1], plan);
      assert rows == rows[..|rows| - 1] + [rows[|rows| - 1]];
    }
  }

  lemma {:induction false} OthersTakeNoMore(rows: seq<Reservation>, plan: PlanId, ids: set<ItemId>)
    requires forall r :: r in rows ==> r.quantity >= 0.0
    ensures Taken(Others(rows, plan), ids) <= Taken(rows, ids)
  {
    if rows != [] {
      var front, last := rows[..|rows| - 1], rows[|rows| - 1];
      assert last in rows;
      OthersTakeNoMore(front, plan, ids);
      assert [last][..0] == [];
      TakenAppend(Others(front, plan), [last], ids);
      assert Others(front, plan) + [] == Others(front, plan);
    }
  }

  /** The rows of one plan. */
  function Own(rows: seq<Reservation>, plan: PlanId): seq<Reservation> {
    if rows == [] then []
    else Own(rows[..|rows| - 1], plan) + (if rows[|rows| - 1].plan == plan then [rows[|rows| - 1]] else [])
  }

  lemma {:induction false} OwnAppend(a: seq<Reservation>, b: seq<Reservation>, plan: PlanId)
    ensures Own(a + b, plan) == Own(a, plan) + Own(b, plan)
  {
    if b == [] {
      assert a + b == a;
      assert Own(a, plan) + [] == Own(a, plan);
    } else {
      var front, r := b[..|b| - 1], b[|b| - 1];
      var last := if r.plan == plan then [r] else [];
      OwnAppend(a, front, plan);
      assert (a + b)[..|a + b| - 1] == a + front && (a + b)[|a + b| - 1] == r;
      assert Own(a + b, plan) == Own(a + front, plan) + last;
      assert (Own(a, plan) + Own(front, plan)) + last == Own(a, plan) + (Own(front, plan) + last);
    }
  }

  lemma {:induction false} OwnNone(rows: seq<Reservation>, plan: PlanId)
    requires forall r :: r in rows ==> r.plan != plan
    ensures Own(rows, plan) == []
  {
    if rows != [] {
      assert rows[|rows| - 1] in rows;
      OwnNone(rows[..|rows| - 1], plan);
    }
  }

  lemma {:induction false} OwnAll(rows: seq<Reservation>, plan: PlanId)
    requires forall r :: r in rows ==> r.plan == plan
    ensures Own(rows, plan) == rows
  {
    if rows != [] {
      var front, last := rows[..|rows| - 1], rows[|rows| - 1];
      assert last in rows;
      OwnAll(front, plan);
      assert rows == front + [last];
    }
  }

  /** Dropping one plan's rows leaves another's. */
  lemma {:induction false} OwnOfOthers(rows: seq<Reservation>, dropped: PlanId, plan: PlanId)
    requires dropped != plan
    ensures Own(Others(rows, dropped), plan) == Own(rows, plan)
  {
    if rows != [] {
      var front, last := rows[..|rows| - 1], rows[|rows| - 1];
      OwnOfOthers(front, dropped, plan);
      if last.plan != dropped {
        OwnAppend(Others(front, dropped), [last], plan);
        assert [last][..0] == [];
      } else {
        assert Others(rows, dropped) == Others(front, dropped) + [] == Others(front, dropped);
        assert Own(rows, plan) == Own(front, plan) + [] == Own(front, plan);
      }
    }
  }

  /** One plan's rows and the others' are all the rows. */
  lemma {:induction false} OwnAndOthers(rows: seq<Reservation>, plan: PlanId, ids: set<ItemId>)
    ensures Taken(rows, ids) == Taken(Own(rows, plan), ids) + Taken(Others(rows, plan), ids)
  {
    if rows != [] {
      var front, last := rows[..|rows| - 1], rows[|rows| - 1];
      OwnAndOthers(front, plan, ids);
      assert [last][..0] == [];
      TakenAppend(Own(front, plan), [last], ids);
      TakenAppend(Others(front, plan), [last], ids);
      assert Own(front, plan) + [] == Own(front, plan) && Others(front, plan) + [] == Others(front, plan);
    }
  }

  // ----- Per ingredient -----

  /** The household's items with a given name, used and discarded ones included. */
  function IdsNamed(table: seq<Item>, h: HouseholdId, n: Name): set<ItemId> {
    set x | x in table && x.household == h && x.name == n :: x.id
  }

  /** The item a row refers to, if it is in this household: the inner join of the query. */
  function Joined(table: seq<Item>, h: HouseholdId, id: ItemId): Option<Item> {
    if table == [] then None
    else if table[0].id == id && table[0].household == h then Some(table[0])
    else Joined(table[1..], h, id)
  }

  lemma {:induction false} JoinFinds(table: seq<Item>, h: HouseholdId, id: ItemId)
    ensures Joined(table, h, id).Some? ==>
              var x := Joined(table, h, id).value; x in table && x.id == id && x.household == h
    ensures Joined(table, h, id).None? ==> forall x :: x in table && x.household == h ==> x.id != id
  {
    if table != [] {
      JoinFinds(table[1..], h, id);
      assert table == [table[0]] + table[1..];
    }
  }

  function BookName(m: Ledger, r: Reservation, table: seq<Item>, h: HouseholdId): Ledger {
    match Joined(table, h, r.item)
    case None => m
    case Some(x) => m[x.name := Lookup(m, x.name) + r.quantity]
  }

  /** Reserved quantity per ingredient name over the household's items. */
  function NameLedger(rows: seq<Reservation>, table: seq<Item>, h: HouseholdId): Ledger {
    if rows == [] then map[] else BookName(NameLedger(rows[..|rows| - 1], table, h), rows[|rows| - 1], table, h)
  }

  lemma {:induction false} NameLedgerSums(rows: seq<Reservation>, table: seq<Item>, h: HouseholdId, n: Name)
    requires Distinct(table)
    ensures Lookup(NameLedger(rows, table, h), n) == Taken(rows, IdsNamed(table, h, n))
  {
    if rows != [] {
      var last := rows[|rows| - 1];
      NameLedgerSums(rows[..|rows| - 1], table, h, n);
      JoinFinds(table, h, last.item);
      if last.item in IdsNamed(table, h, n) {
        var x :| x in table && x.household == h && x.name == n && x.id == last.item;
        SameIdSameItem(table, x, Joined(table, h, last.item).value);
      }
    }
  }

  /** One more row counts for its item's name, used and discarded items included, and not at all if its item is
      another household's. */
  lemma RowCountsForName(rows: seq<Reservation>, r: Reservation, table: seq<Item>, h: HouseholdId, n: Name)
    requires Distinct(table)
    ensures forall x :: x in table && x.id == r.item && x.household == h ==>
              Lookup(NameLedger(rows + [r], table, h), n) ==
              Lookup(NameLedger(rows, table, h), n) + (if n == x.name then r.quantity else 0.0)
    ensures (forall x :: x in table && x.id == r.item ==> x.household != h) ==>
              NameLedger(rows + [r], table, h) == NameLedger(rows, table, h)
  {
    assert (rows + [r])[..|rows|] == rows;
    JoinFinds(table, h, r.item);
    forall x | x in table && x.id == r.item && x.household == h ensures Joined(table, h, r.item) == Some(x) {
      SameIdSameItem(table, x, Joined(table, h, r.item).value);
    }
  }
}
