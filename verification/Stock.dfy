/** The entities that planning, reservation and the shopping list share: inventory items,
    recipe lines, reservation rows, and the sums taken over them. Quantities are reals, dates and
    ids are integers, and a name is the position of its normalised text in string order. */
module Stock {
  import opened Units

  type ItemId = nat
  type HouseholdId = nat
  type UserId = nat
  type PlanId = nat
  type RecipeId = nat
  type Name = nat
  type Date = int
  type Quantity = q: real | q >= 0.0 witness 0.0

  datatype Status = Active | Frozen | Used | Discarded

  datatype Item = Item(id: ItemId, household: HouseholdId, name: Name, quantity: Quantity,
                       unit: Unit, expiry: Date, status: Status)
  {
    function BaseQuantity(): (r: real)
      ensures r >= 0.0
    {
      ToBase(quantity, unit).0
    }

    function BaseUnit(): Unit {
      ToBase(quantity, unit).1
    }

    /** Used and discarded items are left out everywhere. */
    predicate Counts() {
      status != Used && status != Discarded
    }
  }

  /** One recipe ingredient of one planned day, already scaled to the servings asked for. */
  datatype Line = Line(day: Date, name: Name, quantity: Quantity, unit: Unit)
  {
    function BaseQuantity(): (r: real)
      ensures r >= 0.0
    {
      ToBase(quantity, unit).0
    }

    function BaseUnit(): Unit {
      ToBase(quantity, unit).1
    }
  }

  /** A reservation row; the unit is a base unit. */
  datatype Reservation = Reservation(plan: PlanId, day: Date, item: ItemId, quantity: real, unit: Unit)

  type Ledger = map<ItemId, real>

  function Max(a: real, b: real): real { if a >= b then a else b }
  function Min(a: real, b: real): real { if a <= b then a else b }

  function Lookup(m: Ledger, i: ItemId): real {
    if i in m then m[i] else 0.0
  }

  ghost predicate Distinct(items: seq<Item>) {
    forall i, j :: 0 <= i < j < |items| ==> items[i].id != items[j].id
  }

  lemma SameIdSameItem(stock: seq<Item>, x: Item, y: Item)
    requires Distinct(stock) && x in stock && y in stock && x.id == y.id
    ensures x == y
  {
    var i :| 0 <= i < |stock| && stock[i] == x;
    var j :| 0 <= j < |stock| && stock[j] == y;
    assert i == j;
  }

  /** The household's items that are not used or discarded. */
  function Selected(stock: seq<Item>, h: HouseholdId): seq<Item> {
    if stock == [] then []
    else (if stock[0].household == h && stock[0].Counts() then [stock[0]] else []) + Selected(stock[1..], h)
  }

  lemma {:induction false} SelectedMembers(stock: seq<Item>, h: HouseholdId)
    ensures forall x :: x in Selected(stock, h) <==> x in stock && x.household == h && x.Counts()
  {
    if stock != [] {
      SelectedMembers(stock[1..], h);
      assert stock == [stock[0]] + stock[1..];
    }
  }

  lemma {:induction false} SelectedDistinct(stock: seq<Item>, h: HouseholdId)
    requires Distinct(stock)
    ensures Distinct(Selected(stock, h))
  {
    if stock != [] {
      var rest := Selected(stock[1..], h);
      SelectedDistinct(stock[1..], h);
      SelectedMembers(stock[1..], h);
      forall k | 0 <= k < |rest| ensures rest[k].id != stock[0].id {
        assert rest[k] in stock[1..];
      }
    }
  }

  function Ids(items: seq<Item>): set<ItemId> {
    set x | x in items :: x.id
  }

  // ----- Stable sort by expiry date -----

  function InsertByExpiry(x: Item, s: seq<Item>): (r: seq<Item>)
    ensures |r| == |s| + 1
  {
    if s == [] || x.expiry <= s[0].expiry then [x] + s else [s[0]] + InsertByExpiry(x, s[1..])
  }

  function SortByExpiry(items: seq<Item>): (r: seq<Item>)
    ensures |r| == |items|
  {
    if items == [] then [] else InsertByExpiry(items[0], SortByExpiry(items[1..]))
  }

  predicate ByExpiry(s: seq<Item>) {
    forall i, j :: 0 <= i < j < |s| ==> s[i].expiry <= s[j].expiry
  }

  lemma {:induction false} InsertPermutes(x: Item, s: seq<Item>)
    ensures multiset(InsertByExpiry(x, s)) == multiset{x} + multiset(s)
  {
    if s != [] {
      assert s == [s[0]] + s[1..];
      if x.expiry > s[0].expiry {
        InsertPermutes(x, s[1..]);
      }
    }
  }

  lemma {:induction false} InsertMembers(x: Item, s: seq<Item>)
    ensures forall y :: y in InsertByExpiry(x, s) <==> y == x || y in s
  {
    if s != [] && x.expiry > s[0].expiry {
      InsertMembers(x, s[1..]);
      assert s == [s[0]] + s[1..];
    }
  }

  lemma {:induction false} InsertKeepsOrder(x: Item, s: seq<Item>)
    requires ByExpiry(s)
    ensures ByExpiry(InsertByExpiry(x, s))
  {
    if s != [] && x.expiry > s[0].expiry {
      InsertKeepsOrder(x, s[1..]);
      InsertMembers(x, s[1..]);
      var t := InsertByExpiry(x, s[1..]);
      forall k | 0 <= k < |t| ensures s[0].expiry <= t[k].expiry {
        assert t[k] in t;
      }
    }
  }

  /** Sorting gives the same items in order of expiry. */
  lemma {:induction false} SortSorts(items: seq<Item>)
    ensures ByExpiry(SortByExpiry(items))
    ensures multiset(SortByExpiry(items)) == multiset(items)
  {
    if items != [] {
      SortSorts(items[1..]);
      InsertKeepsOrder(items[0], SortByExpiry(items[1..]));
      InsertPermutes(items[0], SortByExpiry(items[1..]));
      assert items == [items[0]] + items[1..];
    }
  }

  function Expiring(s: seq<Item>, d: Date): seq<Item> {
    if s == [] then []
    else if s[0].expiry == d then [s[0]] + Expiring(s[1..], d) else Expiring(s[1..], d)
  }

  lemma {:induction false} InsertIsStable(x: Item, s: seq<Item>, d: Date)
    requires ByExpiry(s)
    ensures Expiring(InsertByExpiry(x, s), d) == Expiring([x] + s, d)
  {
    if s != [] && x.expiry > s[0].expiry {
      InsertIsStable(x, s[1..], d);
      assert ([x] + s)[1..] == s && ([x] + s[1..])[1..] == s[1..];
    }
  }

  /** Items that expire on the same date keep the order they came in. */
  lemma {:induction false} SortIsStable(items: seq<Item>, d: Date)
    ensures Expiring(SortByExpiry(items), d) == Expiring(items, d)
  {
    if items != [] {
      SortIsStable(items[1..], d);
      SortSorts(items[1..]);
      var t := SortByExpiry(items[1..]);
      InsertIsStable(items[0], t, d);
      assert ([items[0]] + t)[1..] == t;
    }
  }

  lemma SortKeepsMembers(items: seq<Item>)
    ensures forall x :: x in SortByExpiry(items) <==> x in items
  {
    SortSorts(items);
    forall x ensures x in SortByExpiry(items) <==> x in items {
      assert x in SortByExpiry(items) <==> x in multiset(SortByExpiry(items));
      assert x in items <==> x in multiset(items);
    }
  }

  lemma {:induction false} InsertKeepsDistinct(x: Item, s: seq<Item>)
    requires Distinct(s)
    requires forall y :: y in s ==> y.id != x.id
    ensures Distinct(InsertByExpiry(x, s))
  {
    if s != [] && x.expiry > s[0].expiry {
      InsertKeepsDistinct(x, s[1..]);
      InsertMembers(x, s[1..]);
      assert s == [s[0]] + s[1..];
      var t := InsertByExpiry(x, s[1..]);
      forall k | 0 <= k < |t| ensures t[k].id != s[0].id {
        assert t[k] in t;
      }
    }
  }

  lemma {:induction false} SortKeepsDistinct(items: seq<Item>)
    ensures Distinct(items) ==> Distinct(SortByExpiry(items))
  {
    if items != [] && Distinct(items) {
      SortKeepsDistinct(items[1..]);
      SortKeepsMembers(items[1..]);
      InsertKeepsDistinct(items[0], SortByExpiry(items[1..]));
    }
  }

  lemma ActiveIsDistinct(table: seq<Item>, h: HouseholdId)
    ensures Distinct(table) ==> Distinct(SortByExpiry(Selected(table, h)))
  {
    if Distinct(table) {
      SelectedDistinct(table, h);
      SortKeepsDistinct(Selected(table, h));
    }
  }

  /** The inventory query: a household's counted items, by expiry date and then by age. The table
      holds items in order of creation. */
  function ActiveInventory(table: seq<Item>, h: HouseholdId): (r: seq<Item>)
    ensures forall x :: x in r <==> x in table && x.household == h && x.Counts()
    ensures Distinct(table) ==> Distinct(r)
  {
    SelectedMembers(table, h);
    SortKeepsMembers(Selected(table, h));
    ActiveIsDistinct(table, h);
    SortByExpiry(Selected(table, h))
  }

  /** Said outright: the household's active and frozen items, the earlier expiry date first. */
  lemma ActiveInventoryIs(table: seq<Item>, h: HouseholdId)
    ensures forall x :: x in ActiveInventory(table, h) <==>
              x in table && x.household == h && (x.status == Active || x.status == Frozen)
    ensures var r := ActiveInventory(table, h); forall i, j :: 0 <= i < j < |r| ==> r[i].expiry <= r[j].expiry
  {
    SortSorts(Selected(table, h));
  }

  /** An item and a line have, in base units, what the conversion table says of their quantity and unit. */
  lemma InBaseUnits(x: Item, l: Line, raw: string)
    ensures x.unit == Normalize(raw) ==> (x.BaseQuantity(), x.BaseUnit()) == ConvertToBase(x.quantity, raw)
    ensures l.unit == Normalize(raw) ==> (l.BaseQuantity(), l.BaseUnit()) == ConvertToBase(l.quantity, raw)
  {
  }

  // ----- The items of one ingredient -----

  /** The counted items with a given name, in the order given. */
  function Named(items: seq<Item>, n: Name): (r: seq<Item>) {
    if items == [] then []
    else if items[0].Counts() && items[0].name == n then [items[0]] + Named(items[1..], n)
    else Named(items[1..], n)
  }

  lemma {:induction false} NamedMembers(items: seq<Item>, n: Name)
    ensures forall x :: x in Named(items, n) <==> x in items && x.Counts() && x.name == n
  {
    if items != [] {
      NamedMembers(items[1..], n);
      assert items == [items[0]] + items[1..];
    }
  }

  lemma {:induction false} NamedDistinct(items: seq<Item>, n: Name)
    requires Distinct(items)
    ensures Distinct(Named(items, n))
  {
    if items != [] {
      NamedDistinct(items[1..], n);
      NamedMembers(items[1..], n);
    }
  }

  lemma {:induction false} NamedAppend(a: seq<Item>, b: seq<Item>, n: Name)
    ensures Named(a + b, n) == Named(a, n) + Named(b, n)
  {
    if a == [] {
      assert a + b == b;
      assert Named(a, n) == [];
    } else {
      var first := if a[0].Counts() && a[0].name == n then [a[0]] else [];
      NamedAppend(a[1..], b, n);
      assert (a + b)[0] == a[0] && (a + b)[1..] == a[1..] + b;
      assert Named(a + b, n) == first + (Named(a[1..], n) + Named(b, n));
      assert Named(a, n) == first + Named(a[1..], n);
    }
  }

  /** Earliest expiry first: the candidates from which a line is served. */
  function Candidates(stock: seq<Item>, n: Name): seq<Item> {
    Named(SortByExpiry(stock), n)
  }

  lemma CandidatesMembers(stock: seq<Item>, n: Name)
    requires Distinct(stock)
    ensures Distinct(Candidates(stock, n))
    ensures forall x :: x in Candidates(stock, n) <==> x in stock && x.Counts() && x.name == n
  {
    SortKeepsDistinct(stock);
    SortKeepsMembers(stock);
    NamedMembers(SortByExpiry(stock), n);
    NamedDistinct(SortByExpiry(stock), n);
  }

  lemma {:induction false} NamedInOrder(items: seq<Item>, n: Name)
    requires ByExpiry(items)
    ensures ByExpiry(Named(items, n))
  {
    if items != [] {
      var rest := Named(items[1..], n);
      NamedInOrder(items[1..], n);
      NamedMembers(items[1..], n);
      forall k | 0 <= k < |rest| ensures items[0].expiry <= rest[k].expiry {
        assert rest[k] in rest;
        var j :| 0 <= j < |items[1..]| && items[1..][j] == rest[k];
      }
    }
  }

  /** The candidates stand in order of expiry. */
  lemma CandidatesInOrder(stock: seq<Item>, n: Name, i: nat, j: nat)
    requires i < j < |Candidates(stock, n)|
    ensures Candidates(stock, n)[i].expiry <= Candidates(stock, n)[j].expiry
  {
    SortSorts(stock);
    NamedInOrder(SortByExpiry(stock), n);
  }

  // ----- Free quantity -----

  function Free(x: Item, reserved: Ledger): (r: real)
    ensures r >= 0.0
  {
    Max(0.0, x.BaseQuantity() - Lookup(reserved, x.id))
  }

  /** Free quantity over the items kept in base unit u. */
  function FreeTotal(items: seq<Item>, u: Unit, reserved: Ledger): (r: real)
    ensures r >= 0.0
  {
    if items == [] then 0.0
    else (if items[0].BaseUnit() == u then Free(items[0], reserved) else 0.0) + FreeTotal(items[1..], u, reserved)
  }

  lemma {:induction false} FreeTotalFrame(items: seq<Item>, u: Unit, r1: Ledger, r2: Ledger)
    requires forall x :: x in items ==> Lookup(r1, x.id) == Lookup(r2, x.id)
    ensures FreeTotal(items, u, r1) == FreeTotal(items, u, r2)
  {
    if items != [] {
      assert items[0] in items;
      FreeTotalFrame(items[1..], u, r1, r2);
    }
  }

  /** Quantity that rows take from a set of items. */
  function Taken(rows: seq<Reservation>, ids: set<ItemId>): real {
    if rows == [] then 0.0
    else Taken(rows[..|rows| - 1], ids) + (if rows[|rows| - 1].item in ids then rows[|rows| - 1].quantity else 0.0)
  }

  lemma {:induction false} TakenAppend(a: seq<Reservation>, b: seq<Reservation>, ids: set<ItemId>)
    ensures Taken(a + b, ids) == Taken(a, ids) + Taken(b, ids)
  {
    if b == [] {
      assert a + b == a;
    } else {
      var k := |b| - 1;
      assert (a + b)[..|a + b| - 1] == a + b[..k];
      TakenAppend(a, b[..k], ids);
    }
  }

  lemma {:induction false} TakenNone(rows: seq<Reservation>, ids: set<ItemId>)
    requires forall r :: r in rows ==> r.item !in ids
    ensures Taken(rows, ids) == 0.0
  {
    if rows != [] {
      TakenNone(rows[..|rows| - 1], ids);
    }
  }

  lemma {:induction false} TakenSplit(rows: seq<Reservation>, a: set<ItemId>, b: set<ItemId>)
    requires a !! b
    ensures Taken(rows, a + b) == Taken(rows, a) + Taken(rows, b)
  {
    if rows != [] {
      TakenSplit(rows[..|rows| - 1], a, b);
    }
  }

  lemma {:induction false} TakenNonNegative(rows: seq<Reservation>, ids: set<ItemId>)
    requires forall r :: r in rows ==> r.quantity >= 0.0
    ensures Taken(rows, ids) >= 0.0
  {
    if rows != [] {
      assert rows[|rows| - 1] in rows;
      TakenNonNegative(rows[..|rows| - 1], ids);
    }
  }
}
