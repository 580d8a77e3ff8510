/** The shopping list: demand per ingredient minus what the inventory has free, subtracted once.
    Models backend/app/modules/planning/shopping_list.py. */
module ShoppingList {
  import opened Units
  import opened Stock
  import opened Rounding

  datatype Reason = NotInInventory | InsufficientQuantity

  datatype ShoppingItem = ShoppingItem(name: Name, quantity: real, unit: Unit, reason: Reason)

  // ----- The quantities involved -----

  predicate Has(items: seq<Item>, n: Name) {
    exists k :: 0 <= k < |items| && items[k].Counts() && items[k].name == n
  }

  /** Base quantity of all counted items of an ingredient, whatever their base unit. */
  function StockTotal(items: seq<Item>, n: Name): (r: real)
    ensures r >= 0.0
  {
    if items == [] then 0.0
    else
      var x := items[|items| - 1];
      StockTotal(items[..|items| - 1], n) + (if x.Counts() && x.name == n then x.BaseQuantity() else 0.0)
  }

  function Available(items: seq<Item>, held: Ledger, n: Name): (r: real)
    ensures r >= 0.0
  {
    if !Has(items, n) then 0.0
    else if n in held then Max(0.0, StockTotal(items, n) - held[n]) else StockTotal(items, n)
  }

  /** Base quantity of all lines for an ingredient, whatever their base unit. */
  function Required(lines: seq<Line>, n: Name): (r: real)
    ensures r >= 0.0
  {
    if lines == [] then 0.0
    else
      var l := lines[|lines| - 1];
      Required(lines[..|lines| - 1], n) + (if l.name == n then l.BaseQuantity() else 0.0)
  }

  function NamesOf(lines: seq<Line>): set<Name> {
    set l | l in lines :: l.name
  }

  /** Quantities are shown in the unit of the ingredient's first line. */
  function DisplayUnit(lines: seq<Line>, n: Name): Unit
    requires n in NamesOf(lines)
  {
    if lines[0].name == n then lines[0].unit
    else
      assert lines == [lines[0]] + lines[1..];
      DisplayUnit(lines[1..], n)
  }

  lemma {:induction false} DisplayUnitFirst(lines: seq<Line>, more: seq<Line>, n: Name)
    requires n in NamesOf(lines)
    ensures n in NamesOf(lines + more) && DisplayUnit(lines + more, n) == DisplayUnit(lines, n)
  {
    var l :| l in lines && l.name == n;
    assert l in lines + more;
    assert (lines + more)[0] == lines[0];
    if lines[0].name != n {
      assert lines == [lines[0]] + lines[1..];
      assert (lines + more)[1..] == lines[1..] + more;
      DisplayUnitFirst(lines[1..], more, n);
    }
  }

  lemma {:induction false} DisplayUnitLast(lines: seq<Line>, l: Line)
    requires l.name !in NamesOf(lines)
    ensures l.name in NamesOf(lines + [l]) && DisplayUnit(lines + [l], l.name) == l.unit
  {
    assert l in lines + [l];
    if lines != [] {
      assert lines[0] in lines;
      assert lines == [lines[0]] + lines[1..];
      assert (lines + [l])[1..] == lines[1..] + [l];
      DisplayUnitLast(lines[1..], l);
    }
  }

  /** It is the unit of the ingredient's first line, as given. */
  lemma {:induction false} DisplayUnitIs(lines: seq<Line>, n: Name) returns (k: nat)
    requires n in NamesOf(lines)
    ensures k < |lines| && lines[k].name == n && DisplayUnit(lines, n) == lines[k].unit
    ensures forall j :: 0 <= j < k ==> lines[j].name != n
  {
    k := 0;
    if lines[0].name != n {
      assert lines == [lines[0]] + lines[1..];
      var j := DisplayUnitIs(lines[1..], n);
      k := j + 1;
    }
  }

  function Gap(lines: seq<Line>, items: seq<Item>, held: Ledger, n: Name): real {
    Max(0.0, Required(lines, n) - Available(items, held, n))
  }

  /** A base quantity as the list shows it. */
  function Shown(gap: real, unit: Unit): real {
    Round3(gap / Factor(unit))
  }

  function Entry(lines: seq<Line>, items: seq<Item>, held: Ledger, n: Name): ShoppingItem
    requires n in NamesOf(lines)
  {
    var unit := DisplayUnit(lines, n);
    ShoppingItem(n, Shown(Gap(lines, items, held, n), unit), unit,
                 if StockTotal(items, n) == 0.0 then NotInInventory else InsufficientQuantity)
  }

  // ----- Names in order -----

  lemma {:induction false} LeastOf(s: set<Name>) returns (m: Name)
    requires s != {}
    ensures m in s && forall x :: x in s ==> m <= x
  {
    m :| m in s;
    if x :| x in s && x < m {
      var rest := s - {m};
      assert x in rest;
      var first := m;
      m := LeastOf(rest);
      forall y | y in s ensures m <= y {
        assert y == first || y in rest;
      }
    }
  }

  lemma LeastExists(s: set<Name>)
    requires s != {}
    ensures exists m :: m in s && forall x :: x in s ==> m <= x
  {
    var m := LeastOf(s);
  }

  function Least(s: set<Name>): (m: Name)
    requires s != {}
    ensures m in s && forall x :: x in s ==> m <= x
  {
    LeastExists(s);
    var m :| m in s && forall x :: x in s ==> m <= x;
    m
  }

  function SortedNames(s: set<Name>): (r: seq<Name>)
    ensures forall x :: x in r <==> x in s
    ensures forall i, j :: 0 <= i < j < |r| ==> r[i] < r[j]
  {
    if s == {} then []
    else
      var m := Least(s);
      var rest := SortedNames(s - {m});
      assert forall k :: 0 <= k < |rest| ==> rest[k] in rest;
      [m] + rest
  }

  /** The names, in the order given, whose demand exceeds what is available. */
  function Lacking(names: seq<Name>, lines: seq<Line>, items: seq<Item>, held: Ledger): (r: seq<Name>)
    ensures forall n :: n in r ==> n in names
  {
    if names == [] then []
    else
      var last := |names| - 1;
      assert names == names[..last] + [names[last]];
      Lacking(names[..last], lines, items, held) +
      (if Available(items, held, names[last]) >= Required(lines, names[last]) then [] else [names[last]])
  }

  function Entries(names: seq<Name>, lines: seq<Line>, items: seq<Item>, held: Ledger): (r: seq<ShoppingItem>)
    requires forall n :: n in names ==> n in NamesOf(lines)
    ensures |r| == |names|
  {
    if names == [] then []
    else
      var last := |names| - 1;
      assert names == names[..last] + [names[last]];
      Entries(names[..last], lines, items, held) + [Entry(lines, items, held, names[last])]
  }

  /** One entry for each lacking ingredient, in name order. */
  function Derived(lines: seq<Line>, items: seq<Item>, held: Ledger): seq<ShoppingItem> {
    Entries(Lacking(SortedNames(NamesOf(lines)), lines, items, held), lines, items, held)
  }

  // ----- The loops of derive_shopping_list -----

  type Totals = map<Name, (real, Unit)>

  function Quantity0(m: Totals, n: Name): real {
    if n in m then m[n].0 else 0.0
  }

  lemma OneMoreItem(items: seq<Item>, k: nat, n: Name)
    requires k < |items|
    ensures Has(items[..k + 1], n) <==> Has(items[..k], n) || (items[k].Counts() && items[k].name == n)
    ensures StockTotal(items[..k + 1], n) ==
            StockTotal(items[..k], n) +
              (if items[k].Counts() && items[k].name == n then items[k].BaseQuantity() else 0.0)
  {
    var before, seen := items[..k], items[..k + 1];
    assert seen[..k] == before && seen[k] == items[k];
    if j :| 0 <= j < |before| && before[j].Counts() && before[j].name == n {
      assert seen[j] == before[j];
    }
    if j :| 0 <= j < |seen| && seen[j].Counts() && seen[j].name == n {
      assert j < k ==> before[j] == seen[j];
    }
  }

  method SumInventory(items: seq<Item>) returns (totals: Totals)
    ensures forall n :: n in totals <==> Has(items, n)
    ensures forall n :: n in totals ==> totals[n].0 == StockTotal(items, n) && Base(totals[n].1) == totals[n].1
  {
    totals := map[];
    for k := 0 to |items|
      invariant forall n :: n in totals <==> Has(items[..k], n)
      invariant forall n :: Quantity0(totals, n) == StockTotal(items[..k], n)
      invariant forall n :: n in totals ==> Base(totals[n].1) == totals[n].1
    {
      var item := items[k];
      ghost var before := totals;
      if item.Counts() {
        var (quantity, unit) := ToBase(item.quantity, item.unit);
        var previous := if item.name in totals then totals[item.name].0 else 0.0;
        totals := totals[item.name := (previous + quantity, unit)];
      }
      forall n ensures n in totals <==> Has(items[..k + 1], n) {
        OneMoreItem(items, k, n);
      }
      forall n ensures Quantity0(totals, n) == StockTotal(items[..k + 1], n) {
        OneMoreItem(items, k, n);
        assert Quantity0(before, n) == StockTotal(items[..k], n);
      }
    }
    assert items[..|items|] == items;
    forall n | n in totals ensures totals[n].0 == StockTotal(items, n) {
      assert Quantity0(totals, n) == StockTotal(items, n);
    }
  }

  method SubtractHeld(totals: Totals, held: Ledger) returns (available: Totals)
    requires forall n :: n in totals ==> Base(totals[n].1) == totals[n].1
    ensures available.Keys == totals.Keys
    ensures forall n :: n in totals ==>
              available[n].0 == if n in held then Max(0.0, totals[n].0 - held[n]) else totals[n].0
  {
    available := totals;
    var todo := held.Keys;
    while todo != {}
      invariant todo <= held.Keys && available.Keys == totals.Keys
      invariant forall n :: n in totals ==> available[n].1 == totals[n].1
      invariant forall n :: n in totals ==>
                  available[n].0 == if n in held && n !in todo then Max(0.0, totals[n].0 - held[n]) else totals[n].0
      decreases |todo|
    {
      var name :| name in todo;
      todo := todo - {name};
      if name in available {
        var (quantity, unit) := available[name];
        var (heldBase, _) := ToBase(held[name], unit);
        assert heldBase == held[name];
        available := available[name := (Max(0.0, quantity - heldBase), unit)];
      }
    }
  }

  datatype Requirement = Requirement(quantity: real, displayUnit: Unit)

  lemma OneMoreDemand(lines: seq<Line>, line: Line, n: Name)
    ensures n in NamesOf(lines + [line]) <==> n in NamesOf(lines) || n == line.name
    ensures Required(lines + [line], n) == Required(lines, n) + (if line.name == n then line.BaseQuantity() else 0.0)
    ensures n in NamesOf(lines + [line]) ==>
              DisplayUnit(lines + [line], n) == if n in NamesOf(lines) then DisplayUnit(lines, n) else line.unit
  {
    assert (lines + [line])[..|lines|] == lines;
    assert line in lines + [line];
    if n in NamesOf(lines) {
      DisplayUnitFirst(lines, [line], n);
    } else if n == line.name {
      DisplayUnitLast(lines, line);
    }
  }

  lemma {:induction false} NoDemandNoGap(lines: seq<Line>, n: Name)
    ensures n !in NamesOf(lines) ==> Required(lines, n) == 0.0
  {
    if lines != [] {
      var front := lines[..|lines| - 1];
      NoDemandNoGap(front, n);
      assert lines == front + [lines[|lines| - 1]];
    }
  }

  function Asked(required: map<Name, Requirement>, n: Name): Option<Requirement> {
    if n in required then Some(required[n]) else None
  }

  /** The requirement that lines add up to for a name. */
  function RequirementOf(lines: seq<Line>, n: Name): Option<Requirement> {
    if n in NamesOf(lines) then Some(Requirement(Required(lines, n), DisplayUnit(lines, n))) else None
  }

  method SumDemand(lines: seq<Line>) returns (required: map<Name, Requirement>)
    ensures required.Keys == NamesOf(lines)
    ensures forall n :: n in required ==> required[n] == Requirement(Required(lines, n), DisplayUnit(lines, n))
  {
    required := map[];
    for k := 0 to |lines|
      invariant forall n :: Asked(required, n) == RequirementOf(lines[..k], n)
    {
      var line := lines[k];
      ghost var sofar, before := lines[..k], required;
      assert lines[..k + 1] == sofar + [line];
      assert Asked(before, line.name) == RequirementOf(sofar, line.name);
      NoDemandNoGap(sofar, line.name);
      if line.name !in required {
        required := required[line.name := Requirement(0.0, line.unit)];
      }
      var entry := required[line.name];
      required := required[line.name := entry.(quantity := entry.quantity + line.BaseQuantity())];
      forall n ensures Asked(required, n) == RequirementOf(sofar + [line], n) {
        OneMoreDemand(sofar, line, n);
        assert Asked(before, n) == RequirementOf(sofar, n);
      }
    }
    assert lines[..|lines|] == lines;
    forall n ensures n in required <==> n in NamesOf(lines) {
      assert Asked(required, n) == RequirementOf(lines, n);
    }
    forall n | n in required ensures required[n] == Requirement(Required(lines, n), DisplayUnit(lines, n)) {
      assert Asked(required, n) == RequirementOf(lines, n);
    }
  }

  method MakeEntry(lines: seq<Line>, items: seq<Item>, held: Ledger, name: Name, requirement: Requirement, free: real,
      total: real)
    returns (entry: ShoppingItem)
    requires name in NamesOf(lines) && requirement == Requirement(Required(lines, name), DisplayUnit(lines, name))
    requires free == Available(items, held, name) < requirement.quantity && total == StockTotal(items, name)
    ensures entry == Entry(lines, items, held, name)
  {
    var gap := requirement.quantity - free;
    assert gap == Gap(lines, items, held, name);
    var (oneUnit, _) := ToBase(1.0, requirement.displayUnit);
    assert oneUnit == Factor(requirement.displayUnit);
    var shown := if oneUnit > 0.0 then gap / oneUnit else gap;
    entry := ShoppingItem(name, Round3(shown), requirement.displayUnit,
                          if total == 0.0 then NotInInventory else InsufficientQuantity);
  }

  /** The first half of the routine: totals, and totals less what other plans hold. */
  method SumFree(items: seq<Item>, held: Ledger) returns (totals: Totals, available: Totals)
    ensures forall n :: Quantity0(totals, n) == StockTotal(items, n)
    ensures forall n :: Quantity0(available, n) == Available(items, held, n)
  {
    totals := SumInventory(items);
    available := SubtractHeld(totals, held);
    NoItemsNoStock(items);
  }

  lemma EntriesNext(names: seq<Name>, lines: seq<Line>, items: seq<Item>, held: Ledger, name: Name)
    requires name in NamesOf(lines) && forall n :: n in names ==> n in NamesOf(lines)
    ensures forall n :: n in names + [name] ==> n in NamesOf(lines)
    ensures Entries(names + [name], lines, items, held) ==
            Entries(names, lines, items, held) + [Entry(lines, items, held, name)]
  {
    assert (names + [name])[..|names|] == names;
  }

  lemma LackingNext(names: seq<Name>, k: nat, lines: seq<Line>, items: seq<Item>, held: Ledger)
    requires k < |names|
    ensures Lacking(names[..k + 1], lines, items, held) ==
            Lacking(names[..k], lines, items, held) +
            (if Available(items, held, names[k]) >= Required(lines, names[k]) then [] else [names[k]])
  {
    assert names[..k + 1][..k] == names[..k];
  }

  method DeriveShoppingList(lines: seq<Line>, items: seq<Item>, held: Ledger) returns (list: seq<ShoppingItem>)
    ensures list == Derived(lines, items, held)
  {
    var totals, available := SumFree(items, held);
    var required := SumDemand(lines);
    list := [];
    var names := SortedNames(required.Keys);
    ghost var lacking := [];
    for k := 0 to |names|
      invariant lacking == Lacking(names[..k], lines, items, held)
      invariant forall n :: n in lacking ==> n in NamesOf(lines)
      invariant list == Entries(lacking, lines, items, held)
    {
      var name := names[k];
      assert name in names;
      LackingNext(names, k, lines, items, held);
      var requirement := required[name];
      var free := Quantity0(available, name);
      if free >= requirement.quantity {
        continue;
      }
      var entry := MakeEntry(lines, items, held, name, requirement, free, Quantity0(totals, name));
      EntriesNext(lacking, lines, items, held, name);
      list := list + [entry];
      lacking := lacking + [name];
    }
    assert names[..|names|] == names;
  }

  lemma {:induction false} NoItemNoStock(items: seq<Item>, n: Name)
    requires !Has(items, n)
    ensures StockTotal(items, n) == 0.0
  {
    if items != [] {
      var front := items[..|items| - 1];
      assert forall j :: 0 <= j < |front| ==> front[j] == items[j];
      NoItemNoStock(front, n);
    }
  }

  lemma NoItemsNoStock(items: seq<Item>)
    ensures forall n :: !Has(items, n) ==> StockTotal(items, n) == 0.0
  {
    forall n | !Has(items, n) ensures StockTotal(items, n) == 0.0 {
      NoItemNoStock(items, n);
    }
  }

  // ----- What the list says -----

  lemma {:induction false} LackingIs(names: seq<Name>, lines: seq<Line>, items: seq<Item>, held: Ledger, n: Name)
    ensures n in Lacking(names, lines, items, held) <==> n in names && Gap(lines, items, held, n) > 0.0
  {
    if names != [] {
      var last := |names| - 1;
      LackingIs(names[..last], lines, items, held, n);
      assert names == names[..last] + [names[last]];
    }
  }

  ghost predicate Increasing(names: seq<Name>) {
    forall i, j :: 0 <= i < j < |names| ==> names[i] < names[j]
  }

  lemma {:induction false} LackingInOrder(names: seq<Name>, lines: seq<Line>, items: seq<Item>, held: Ledger)
    requires Increasing(names)
    ensures Increasing(Lacking(names, lines, items, held))
  {
    if names != [] {
      var last := |names| - 1;
      var front := Lacking(names[..last], lines, items, held);
      LackingInOrder(names[..last], lines, items, held);
      assert Increasing(front);
      forall i | 0 <= i < |front| ensures front[i] < names[last] {
        assert front[i] in front;
        assert front[i] in names[..last];
        var j :| 0 <= j < last && names[..last][j] == front[i];
        assert names[j] < names[last];
      }
      assert Increasing(front + [names[last]]);
    }
  }

  lemma {:induction false} EntryAt(names: seq<Name>, lines: seq<Line>, items: seq<Item>, held: Ledger, k: nat)
    requires k < |names| && forall n :: n in names ==> n in NamesOf(lines)
    ensures Entries(names, lines, items, held)[k] == Entry(lines, items, held, names[k])
  {
    var last := |names| - 1;
    assert names == names[..last] + [names[last]];
    if k < last {
      EntryAt(names[..last], lines, items, held, k);
    }
  }

  lemma CloseTimes(r: real, x: real, factor: real)
    requires factor > 0.0 && -0.0005 <= r - x <= 0.0005
    ensures -0.0005 * factor <= r * factor - x * factor <= 0.0005 * factor
  {
    var d := r - x;
    assert r * factor - x * factor == d * factor;
  }

  /** The shown quantity, converted back, is the gap to within half a thousandth of the unit. */
  lemma ShownIsClose(gap: real, unit: Unit)
    ensures Shown(gap, unit) == Round3(gap / Factor(unit))
    ensures -0.0005 * Factor(unit) <= Shown(gap, unit) * Factor(unit) - gap <= 0.0005 * Factor(unit)
  {
    var factor := Factor(unit);
    var x := gap / factor;
    DivideBack(gap, factor);
    RoundIsClose(x);
    CloseTimes(Round3(x), x, factor);
  }

  lemma DivideBack(gap: real, factor: real)
    requires factor > 0.0
    ensures gap / factor * factor == gap
  {
  }

  /** Every entry shows its ingredient's gap, in the unit of the ingredient's first line. */
  lemma ListEntry(lines: seq<Line>, items: seq<Item>, held: Ledger, k: nat)
    requires k < |Derived(lines, items, held)|
    ensures var list := Derived(lines, items, held);
            var lacking := Lacking(SortedNames(NamesOf(lines)), lines, items, held);
            && list[k].name == lacking[k] && list[k].name in NamesOf(lines)
            && list[k].unit == DisplayUnit(lines, list[k].name)
            && list[k].quantity == Shown(Gap(lines, items, held, list[k].name), list[k].unit)
            && Gap(lines, items, held, list[k].name) ==
               Required(lines, list[k].name) - Available(items, held, list[k].name) > 0.0
  {
    var lacking := Lacking(SortedNames(NamesOf(lines)), lines, items, held);
    EntryAt(lacking, lines, items, held, k);
    assert lacking[k] in lacking;
    LackingIs(SortedNames(NamesOf(lines)), lines, items, held, lacking[k]);
  }

  lemma {:induction false} NoStockIff(items: seq<Item>, n: Name)
    ensures StockTotal(items, n) == 0.0 <==>
            forall x :: x in items && (x.status == Active || x.status == Frozen) && x.name == n ==>
              x.BaseQuantity() == 0.0
  {
    if items != [] {
      var front, last := items[..|items| - 1], items[|items| - 1];
      NoStockIff(front, n);
      assert items == front + [last];
    }
  }

  /** An entry says that its ingredient is not in the inventory exactly when no counted item of that name has any
      quantity, and otherwise that there is not enough. */
  lemma ListReason(lines: seq<Line>, items: seq<Item>, held: Ledger, k: nat)
    requires k < |Derived(lines, items, held)|
    ensures var entry := Derived(lines, items, held)[k];
            entry.reason == NotInInventory <==>
              forall x :: x in items && (x.status == Active || x.status == Frozen) && x.name == entry.name ==>
                x.BaseQuantity() == 0.0
  {
    var lacking := Lacking(SortedNames(NamesOf(lines)), lines, items, held);
    EntryAt(lacking, lines, items, held, k);
    NoStockIff(items, lacking[k]);
  }

  /** The list is in strict name order, so no ingredient is listed twice. */
  lemma ListInOrder(lines: seq<Line>, items: seq<Item>, held: Ledger, i: nat, j: nat)
    requires i < j < |Derived(lines, items, held)|
    ensures Derived(lines, items, held)[i].name < Derived(lines, items, held)[j].name
  {
    LackingInOrder(SortedNames(NamesOf(lines)), lines, items, held);
    ListEntry(lines, items, held, i);
    ListEntry(lines, items, held, j);
  }

  predicate Listed(list: seq<ShoppingItem>, n: Name) {
    exists k :: 0 <= k < |list| && list[k].name == n
  }

  /** The list names exactly the ingredients with a gap. */
  lemma ListedIffGap(lines: seq<Line>, items: seq<Item>, held: Ledger, n: Name)
    ensures Gap(lines, items, held, n) > 0.0 <==> Listed(Derived(lines, items, held), n)
  {
    var list := Derived(lines, items, held);
    var names := SortedNames(NamesOf(lines));
    var lacking := Lacking(names, lines, items, held);
    NoDemandNoGap(lines, n);
    LackingIs(names, lines, items, held, n);
    if n in lacking {
      var k :| 0 <= k < |lacking| && lacking[k] == n;
      EntryAt(lacking, lines, items, held, k);
      assert list[k].name == n;
    }
    if k :| 0 <= k < |list| && list[k].name == n {
      EntryAt(lacking, lines, items, held, k);
      assert lacking[k] in lacking;
    }
  }

  function Merge(derived: seq<ShoppingItem>, manual: seq<ShoppingItem>): seq<ShoppingItem> {
    derived + manual
  }
}
