/** Serving one demand from a list of items, earliest expiry first.
    Models ReservationService._allocate_quantity. */
module Allocation {
  import opened Units
  import opened Stock

  /** Below this much outstanding demand the allocation stops. */
  const EPS: real := 0.000000001

  datatype Share = Share(item: Item, quantity: real)

  /** What the first item gives. */
  function HeadShare(items: seq<Item>, remaining: real, u: Unit, reserved: Ledger): real
    requires items != []
  {
    if items[0].BaseUnit() == u then Max(0.0, Min(Free(items[0], reserved), remaining)) else 0.0
  }

  /** The demand that is left after the first item. */
  function Wanted(items: seq<Item>, remaining: real, u: Unit, reserved: Ledger): real
    requires items != []
  {
    remaining - HeadShare(items, remaining, u, reserved)
  }

  /** What the loop appends from `items` onwards when `remaining` is still wanted. */
  function Allocate(items: seq<Item>, remaining: real, u: Unit, reserved: Ledger): seq<Share> {
    if items == [] then []
    else
      var share, wanted := HeadShare(items, remaining, u, reserved), Wanted(items, remaining, u, reserved);
      if share <= 0.0 then Allocate(items[1..], wanted, u, reserved)
      else [Share(items[0], share)] + (if wanted <= EPS then [] else Allocate(items[1..], wanted, u, reserved))
  }

  /** What the later items give. */
  function LaterShares(items: seq<Item>, remaining: real, u: Unit, reserved: Ledger): seq<Share>
    requires items != []
  {
    var wanted := Wanted(items, remaining, u, reserved);
    if HeadShare(items, remaining, u, reserved) > 0.0 && wanted <= EPS then []
      else Allocate(items[1..], wanted, u, reserved)
  }

  function Total(shares: seq<Share>): real {
    if shares == [] then 0.0 else shares[0].quantity + Total(shares[1..])
  }

  lemma {:induction false} TotalAppend(a: seq<Share>, b: seq<Share>)
    ensures Total(a + b) == Total(a) + Total(b)
  {
    if a == [] {
      assert a + b == b;
    } else {
      assert (a + b)[1..] == a[1..] + b;
      TotalAppend(a[1..], b);
    }
  }

  /** How much of the item with this id the shares take. */
  function Amount(shares: seq<Share>, id: ItemId): real {
    if shares == [] then 0.0
    else (if shares[0].item.id == id then shares[0].quantity else 0.0) + Amount(shares[1..], id)
  }

  function AddAll(reserved: Ledger, shares: seq<Share>): Ledger
    decreases shares
  {
    if shares == [] then reserved
    else AddAll(reserved[shares[0].item.id := Lookup(reserved, shares[0].item.id) + shares[0].quantity], shares[1..])
  }

  lemma {:induction false} AddAllLookup(reserved: Ledger, shares: seq<Share>, id: ItemId)
    ensures Lookup(AddAll(reserved, shares), id) == Lookup(reserved, id) + Amount(shares, id)
    decreases shares
  {
    if shares != [] {
      var x := shares[0];
      AddAllLookup(reserved[x.item.id := Lookup(reserved, x.item.id) + x.quantity], shares[1..], id);
    }
  }

  lemma {:induction false} SharesComeFromItems(items: seq<Item>, remaining: real, u: Unit, reserved: Ledger)
    ensures forall a :: a in Allocate(items, remaining, u, reserved) ==>
              a.item in items && a.item.BaseUnit() == u && 0.0 < a.quantity <= Free(a.item, reserved)
  {
    if items != [] {
      SharesComeFromItems(items[1..], Wanted(items, remaining, u, reserved), u, reserved);
    }
  }

  lemma {:induction false} NoShareNoAmount(shares: seq<Share>, id: ItemId)
    requires forall a :: a in shares ==> a.item.id != id
    ensures Amount(shares, id) == 0.0
  {
    if shares != [] {
      assert shares[0] in shares;
      NoShareNoAmount(shares[1..], id);
    }
  }

  lemma AbsentItemGetsNothing(items: seq<Item>, remaining: real, u: Unit, reserved: Ledger, id: ItemId)
    requires forall x :: x in items ==> x.id != id
    ensures Amount(Allocate(items, remaining, u, reserved), id) == 0.0
  {
    SharesComeFromItems(items, remaining, u, reserved);
    NoShareNoAmount(Allocate(items, remaining, u, reserved), id);
  }

  lemma AllocateShape(items: seq<Item>, remaining: real, u: Unit, reserved: Ledger)
    requires items != []
    ensures var share := HeadShare(items, remaining, u, reserved);
            Allocate(items, remaining, u, reserved) ==
            if share > 0.0 then [Share(items[0], share)] + LaterShares(items, remaining, u, reserved)
            else LaterShares(items, remaining, u, reserved)
    ensures HeadShare(items, remaining, u, reserved) >= 0.0
  {
  }

  lemma SharesCons(s: Share, later: seq<Share>)
    ensures Total([s] + later) == s.quantity + Total(later)
    ensures forall id :: Amount([s] + later, id) == (if s.item.id == id then s.quantity else 0.0) + Amount(later, id)
  {
    assert ([s] + later)[1..] == later;
  }

  lemma HeadNotLater(items: seq<Item>, remaining: real, u: Unit, reserved: Ledger)
    requires items != [] && Distinct(items)
    ensures Amount(LaterShares(items, remaining, u, reserved), items[0].id) == 0.0
  {
    forall y | y in items[1..] ensures y.id != items[0].id {
      var k :| 1 <= k < |items| && items[k] == y;
    }
    AbsentItemGetsNothing(items[1..], Wanted(items, remaining, u, reserved), u, reserved, items[0].id);
  }

  /** The head item gets the smaller of its free quantity and the demand; later items are untouched by it. */
  lemma AllocateHead(items: seq<Item>, remaining: real, u: Unit, reserved: Ledger)
    requires items != [] && Distinct(items)
    ensures var shares := Allocate(items, remaining, u, reserved);
            var later := LaterShares(items, remaining, u, reserved);
            && Amount(shares, items[0].id) == HeadShare(items, remaining, u, reserved)
            && Total(shares) == HeadShare(items, remaining, u, reserved) + Total(later)
            && forall i :: 1 <= i < |items| ==> Amount(shares, items[i].id) == Amount(later, items[i].id)
  {
    AllocateShape(items, remaining, u, reserved);
    HeadNotLater(items, remaining, u, reserved);
    SharesCons(Share(items[0], HeadShare(items, remaining, u, reserved)), LaterShares(items, remaining, u, reserved));
  }

  lemma FreeTotalFirst(items: seq<Item>, k: nat, u: Unit, reserved: Ledger)
    requires 0 < k <= |items|
    ensures FreeTotal(items[..k], u, reserved) ==
            (if items[0].BaseUnit() == u then Free(items[0], reserved) else 0.0)
              + FreeTotal(items[1..][..k - 1], u, reserved)
  {
    assert items[..k][1..] == items[1..][..k - 1];
  }

  /** What an item gives when `before` is free ahead of it: its free quantity or the demand then left, whichever
      is less; nothing in another unit, or once no more than a billionth is left. */
  function ShareOf(x: Item, remaining: real, u: Unit, reserved: Ledger, before: real): real {
    var left := remaining - before;
    if x.BaseUnit() != u || left <= 0.0 || (before > 0.0 && left <= 0.000000001) then 0.0
    else if Free(x, reserved) <= left then Free(x, reserved)
    else left
  }

  /** The first item's share taken off both the demand and what is free ahead. */
  lemma ShareShifts(x: Item, remaining: real, u: Unit, reserved: Ledger, first: real, head: real, before: real)
    requires first >= 0.0 && before >= 0.0 && head == Max(0.0, Min(first, remaining))
    ensures ShareOf(x, remaining, u, reserved, first + before) ==
            if head > 0.0 && remaining - head <= EPS then 0.0
            else ShareOf(x, remaining - head, u, reserved, before)
  {
  }

  /** The loop in closed form: each item's share depends only on the free quantity of those before it. */
  lemma {:induction false} AmountClosedForm(items: seq<Item>, remaining: real, u: Unit, reserved: Ledger, k: nat)
    requires Distinct(items) && k < |items|
    ensures Amount(Allocate(items, remaining, u, reserved), items[k].id) ==
            ShareOf(items[k], remaining, u, reserved, FreeTotal(items[..k], u, reserved))
    decreases k, 0
  {
    AllocateHead(items, remaining, u, reserved);
    if k == 0 {
      FirstClosedForm(items, remaining, u, reserved);
    } else {
      LaterClosedForm(items, remaining, u, reserved, k);
    }
  }

  lemma FirstClosedForm(items: seq<Item>, remaining: real, u: Unit, reserved: Ledger)
    requires items != []
    ensures HeadShare(items, remaining, u, reserved) ==
            ShareOf(items[0], remaining, u, reserved, FreeTotal(items[..0], u, reserved))
  {
    assert items[..0] == [];
  }

  lemma LaterClosedForm(items: seq<Item>, remaining: real, u: Unit, reserved: Ledger, k: nat)
    requires Distinct(items) && 0 < k < |items|
    ensures Amount(LaterShares(items, remaining, u, reserved), items[k].id) ==
            ShareOf(items[k], remaining, u, reserved, FreeTotal(items[..k], u, reserved))
    decreases k - 1, 1
  {
    AmountClosedForm(items[1..], Wanted(items, remaining, u, reserved), u, reserved, k - 1);
    FreeTotalFirst(items, k, u, reserved);
    ShareShifts(items[k], remaining, u, reserved, if items[0].BaseUnit() == u then Free(items[0], reserved) else 0.0,
                HeadShare(items, remaining, u, reserved), FreeTotal(items[1..][..k - 1], u, reserved));
  }

  /** No item is asked for more than it has free, and only items in the demanded unit are asked. */
  lemma {:induction false} AmountWithinFree(items: seq<Item>, remaining: real, u: Unit, reserved: Ledger, i: nat)
    requires Distinct(items) && i < |items|
    ensures 0.0 <= Amount(Allocate(items, remaining, u, reserved), items[i].id) <= Free(items[i], reserved)
    ensures items[i].BaseUnit() != u ==> Amount(Allocate(items, remaining, u, reserved), items[i].id) == 0.0
    decreases |items|
  {
    AllocateHead(items, remaining, u, reserved);
    if i > 0 {
      AmountWithinFree(items[1..], Wanted(items, remaining, u, reserved), u, reserved, i - 1);
    }
  }

  /** The total allocated is the smaller of demand and free stock, short by at most EPS; it is all
      the free stock unless the demand was met. */
  lemma {:induction false} AllocateIsTight(items: seq<Item>, remaining: real, u: Unit, reserved: Ledger)
    requires Distinct(items) && remaining >= 0.0
    ensures var wanted := Min(remaining, FreeTotal(items, u, reserved));
            var total := Total(Allocate(items, remaining, u, reserved));
            && wanted - EPS <= total <= wanted
            && (total == FreeTotal(items, u, reserved) || remaining - total <= EPS)
  {
    if items != [] {
      AllocateHead(items, remaining, u, reserved);
      AllocateIsTight(items[1..], Wanted(items, remaining, u, reserved), u, reserved);
    }
  }

  /** First expiring, first drained: an item is touched only when every compatible item before it
      has been taken completely. */
  lemma {:induction false} EarlierItemsDrainFirst(items: seq<Item>, remaining: real, u: Unit, reserved: Ledger, i: nat,
      j: nat)
    requires Distinct(items) && i < j < |items|
    requires items[i].BaseUnit() == u
    requires Amount(Allocate(items, remaining, u, reserved), items[j].id) > 0.0
    ensures Amount(Allocate(items, remaining, u, reserved), items[i].id) == Free(items[i], reserved)
    decreases |items|
  {
    AllocateHead(items, remaining, u, reserved);
    if i > 0 {
      EarlierItemsDrainFirst(items[1..], Wanted(items, remaining, u, reserved), u, reserved, i - 1, j - 1);
    } else if HeadShare(items, remaining, u, reserved) < Free(items[0], reserved) {
      NothingLeftNothingTaken(items[1..], Wanted(items, remaining, u, reserved), u, reserved);
      assert false;
    }
  }

  lemma {:induction false} NothingLeftNothingTaken(items: seq<Item>, remaining: real, u: Unit, reserved: Ledger)
    requires remaining <= 0.0
    ensures Allocate(items, remaining, u, reserved) == []
  {
    if items != [] {
      NothingLeftNothingTaken(items[1..], Wanted(items, remaining, u, reserved), u, reserved);
    }
  }

  lemma HeadFree(x: Item, reserved: Ledger, after: Ledger, share: real)
    requires 0.0 <= share <= Free(x, reserved) && Lookup(after, x.id) == Lookup(reserved, x.id) + share
    ensures Free(x, after) == Free(x, reserved) - share
  {
  }

  /** The ledger `after` is `reserved` with the shares booked. */
  ghost predicate Books(items: seq<Item>, reserved: Ledger, shares: seq<Share>, after: Ledger) {
    forall i :: 0 <= i < |items| ==>
      Lookup(after, items[i].id) == Lookup(reserved, items[i].id) + Amount(shares, items[i].id)
  }

  lemma BooksTail(items: seq<Item>, remaining: real, u: Unit, reserved: Ledger, after: Ledger)
    requires Distinct(items) && items != [] && Books(items, reserved, Allocate(items, remaining, u, reserved), after)
    ensures Books(items[1..], reserved, LaterShares(items, remaining, u, reserved), after)
    ensures Lookup(after, items[0].id) == Lookup(reserved, items[0].id) + HeadShare(items, remaining, u, reserved)
  {
    AllocateHead(items, remaining, u, reserved);
    forall i | 0 <= i < |items[1..]|
      ensures Lookup(after, items[1..][i].id) ==
              Lookup(reserved, items[1..][i].id) + Amount(LaterShares(items, remaining, u, reserved), items[1..][i].id)
    {
      assert items[1..][i] == items[i + 1];
    }
  }

  lemma NothingBooked(items: seq<Item>, w: Unit, reserved: Ledger, after: Ledger)
    requires Books(items, reserved, [], after)
    ensures FreeTotal(items, w, after) == FreeTotal(items, w, reserved)
  {
    forall x | x in items ensures Lookup(after, x.id) == Lookup(reserved, x.id) {
      var i :| 0 <= i < |items| && items[i] == x;
    }
    FreeTotalFrame(items, w, after, reserved);
  }

  /** `after` has the quantity t less free than `reserved`, if the items are counted in unit u. */
  predicate Lowered(items: seq<Item>, u: Unit, w: Unit, reserved: Ledger, after: Ledger, t: real) {
    FreeTotal(items, w, after) == FreeTotal(items, w, reserved) - (if w == u then t else 0.0)
  }

  lemma LoweredCons(items: seq<Item>, u: Unit, w: Unit, reserved: Ledger, after: Ledger, share: real, later: real)
    requires items != [] && Free(items[0], after) == Free(items[0], reserved) - share
    requires items[0].BaseUnit() != u ==> share == 0.0
    requires Lowered(items[1..], u, w, reserved, after, later)
    ensures Lowered(items, u, w, reserved, after, share + later)
  {
  }

  /** Booking the shares lowers the free total of the demanded unit by exactly their sum and
      leaves the other units alone. */
  lemma {:induction false} FreeAfterShares(items: seq<Item>, remaining: real, u: Unit, reserved: Ledger, after: Ledger,
      w: Unit)
    requires Distinct(items) && Books(items, reserved, Allocate(items, remaining, u, reserved), after)
    ensures Lowered(items, u, w, reserved, after, Total(Allocate(items, remaining, u, reserved)))
    decreases |items|, 0
  {
    if items != [] {
      AllocateHead(items, remaining, u, reserved);
      BooksTail(items, remaining, u, reserved, after);
      LaterLowered(items, remaining, u, reserved, after, w);
      var share := HeadShare(items, remaining, u, reserved);
      HeadFree(items[0], reserved, after, share);
      LoweredCons(items, u, w, reserved, after, share, Total(LaterShares(items, remaining, u, reserved)));
    }
  }

  lemma {:induction false} LaterLowered(items: seq<Item>, remaining: real, u: Unit, reserved: Ledger, after: Ledger,
      w: Unit)
    requires items != [] && Distinct(items)
             && Books(items[1..], reserved, LaterShares(items, remaining, u, reserved), after)
    ensures Lowered(items[1..], u, w, reserved, after, Total(LaterShares(items, remaining, u, reserved)))
    decreases |items| - 1, 1
  {
    if HeadShare(items, remaining, u, reserved) > 0.0 && Wanted(items, remaining, u, reserved) <= EPS {
      NothingBooked(items[1..], w, reserved, after);
    } else {
      FreeAfterShares(items[1..], Wanted(items, remaining, u, reserved), u, reserved, after, w);
    }
  }

  /** A candidate that gives nothing is passed over. */
  lemma PassesOver(items: seq<Item>, k: nat, remaining: real, u: Unit, reserved: Ledger)
    requires k < |items| && HeadShare(items[k..], remaining, u, reserved) <= 0.0
    ensures Allocate(items[k..], remaining, u, reserved) == Allocate(items[k + 1..], remaining, u, reserved)
  {
    assert items[k..][1..] == items[k + 1..];
    assert Wanted(items[k..], remaining, u, reserved) == remaining;
  }

  /** A candidate that gives a share, and the demand then left. */
  lemma TakesFrom(items: seq<Item>, k: nat, remaining: real, u: Unit, reserved: Ledger, share: real, left: real)
    requires k < |items| && HeadShare(items[k..], remaining, u, reserved) == share > 0.0 && left == remaining - share
    ensures Allocate(items[k..], remaining, u, reserved) ==
            [Share(items[k], share)] + (if left <= EPS then [] else Allocate(items[k + 1..], left, u, reserved))
  {
    assert items[k..][1..] == items[k + 1..];
    assert Wanted(items[k..], remaining, u, reserved) == left;
  }

  lemma ConcatThrough(a: seq<Share>, x: Share, b: seq<Share>)
    ensures a + ([x] + b) == (a + [x]) + b
  {
  }

  /** The loop, with its early exit. */
  method AllocateQuantity(candidates: seq<Item>, required: real, unit: Unit, reserved: Ledger)
      returns (shares: seq<Share>)
    ensures shares == Allocate(candidates, ToBase(required, unit).0, ToBase(required, unit).1, reserved)
    ensures forall a :: a in shares ==>
              a.item in candidates && a.item.BaseUnit() == ToBase(required, unit).1
                && 0.0 < a.quantity <= Free(a.item, reserved)
    ensures Distinct(candidates) && required >= 0.0 ==>
              var wanted := Min(ToBase(required, unit).0, FreeTotal(candidates, ToBase(required, unit).1, reserved));
              wanted - EPS <= Total(shares) <= wanted
  {
    var (wantedBase, baseUnit) := ToBase(required, unit);
    var remaining := wantedBase;
    shares := [];
    var done := false;
    var k := 0;
    ghost var rest := Allocate(candidates, wantedBase, baseUnit, reserved);
    while k < |candidates| && !done
      invariant 0 <= k <= |candidates|
      invariant Allocate(candidates, wantedBase, baseUnit, reserved) == shares + rest
      invariant rest == if done then [] else Allocate(candidates[k..], remaining, baseUnit, reserved)
    {
      var item := candidates[k];
      ghost var at, before := k, remaining;
      assert candidates[at..][0] == item;
      k := k + 1;
      if item.BaseUnit() == baseUnit {
        var free := Free(item, reserved);
        if free > 0.0 {
          var share := Min(free, remaining);
          if share > 0.0 {
            remaining := remaining - share;
            TakesFrom(candidates, at, before, baseUnit, reserved, share, remaining);
            done := remaining <= EPS;
            rest := if done then [] else Allocate(candidates[k..], remaining, baseUnit, reserved);
            ConcatThrough(shares, Share(item, share), rest);
            shares := shares + [Share(item, share)];
            continue;
          }
        }
      }
      PassesOver(candidates, at, before, baseUnit, reserved);
    }
    SharesComeFromItems(candidates, wantedBase, baseUnit, reserved);
    if Distinct(candidates) && required >= 0.0 {
      AllocateIsTight(candidates, wantedBase, baseUnit, reserved);
    }
  }
}
