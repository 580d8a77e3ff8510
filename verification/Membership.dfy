/** Households and their members as a state, the operations on it, and what every run keeps.
    Models the combined effect of households/service.py and households/repository.py. */
module Membership {
  import opened Units

  type HouseholdId = nat
  type UserId = nat
  type Text = nat

  datatype Role = Owner | Member

  datatype Row = Row(household: HouseholdId, user: UserId, role: Role, active: bool)

  datatype Household = Household(name: Text, code: Text, version: int)

  /** Member rows are in order of creation. Nothing in the tables forbids a repeated pair. */
  datatype State = State(households: map<HouseholdId, Household>, rows: seq<Row>)

  datatype Error = NotFound | Forbidden | BadInviteCode

  datatype Result<+T> = Ok(value: T) | Err(error: Error)

  // ----- Queries and row changes -----

  function Of(rows: seq<Row>, h: HouseholdId): seq<Row> {
    if rows == [] then [] else (if rows[0].household == h then [rows[0]] else []) + Of(rows[1..], h)
  }

  function By(rows: seq<Row>, u: UserId): seq<Row> {
    if rows == [] then [] else (if rows[0].user == u then [rows[0]] else []) + By(rows[1..], u)
  }

  predicate Is(r: Row, h: HouseholdId, u: UserId) {
    r.household == h && r.user == u
  }

  function Find(rows: seq<Row>, h: HouseholdId, u: UserId): Option<Row> {
    if rows == [] then None else if Is(rows[0], h, u) then Some(rows[0]) else Find(rows[1..], h, u)
  }

  function Remove(rows: seq<Row>, h: HouseholdId, u: UserId): seq<Row> {
    if rows == [] then [] else (if Is(rows[0], h, u) then [] else [rows[0]]) + Remove(rows[1..], h, u)
  }

  /** Makes h the user's active household and no other. */
  function Activate(rows: seq<Row>, u: UserId, h: HouseholdId): (r: seq<Row>)
    ensures |r| == |rows|
  {
    if rows == [] then []
    else [if rows[0].user == u then rows[0].(active := rows[0].household == h) else rows[0]] + Activate(rows[1..], u, h)
  }

  function Promote(rows: seq<Row>, h: HouseholdId, u: UserId): (r: seq<Row>)
    ensures |r| == |rows|
  {
    if rows == [] then []
    else [if Is(rows[0], h, u) then rows[0].(role := Owner) else rows[0]] + Promote(rows[1..], h, u)
  }

  // ----- Counting -----

  function Pairs(rows: seq<Row>, h: HouseholdId, u: UserId): nat {
    if rows == [] then 0 else (if Is(rows[0], h, u) then 1 else 0) + Pairs(rows[1..], h, u)
  }

  function Owners(rows: seq<Row>, h: HouseholdId): nat {
    if rows == [] then 0 else (if rows[0].household == h && rows[0].role == Owner then 1 else 0) + Owners(rows[1..], h)
  }

  function Actives(rows: seq<Row>, u: UserId): nat {
    if rows == [] then 0 else (if rows[0].user == u && rows[0].active then 1 else 0) + Actives(rows[1..], u)
  }

  // ----- Operations -----

  /** A new household with the user as its owner; it becomes the user's active one. */
  function Create(s: State, u: UserId, h: HouseholdId, name: Text, code: Text): State {
    State(s.households[h := Household(name, code, 1)], Activate(s.rows + [Row(h, u, Owner, true)], u, h))
  }

  function EnsureDefault(s: State, u: UserId, h: HouseholdId, name: Text, code: Text): State {
    if By(s.rows, u) != [] then s else Create(s, u, h, name, code)
  }

  function Update(s: State, u: UserId, h: HouseholdId, name: Option<Text>, activate: bool): Result<State> {
    if h !in s.households || Find(s.rows, h, u).None? then Err(NotFound)
    else
      var renamed := if name.None? then s.households
                     else s.households[h := s.households[h].(name := name.value, version := s.households[h].version +
                       1)];
      Ok(State(renamed, if activate then Activate(s.rows, u, h) else s.rows))
  }

  function Join(s: State, u: UserId, h: HouseholdId): State {
    if Find(s.rows, h, u).Some? then s.(rows := Activate(s.rows, u, h))
    else s.(rows := Activate(s.rows + [Row(h, u, Member, true)], u, h))
  }

  /** After a user lost a membership: if it was the active one, the oldest remaining one becomes active. */
  function Reactivate(rows: seq<Row>, u: UserId, wasActive: bool): seq<Row> {
    if wasActive && By(rows, u) != [] then Activate(rows, u, By(rows, u)[0].household) else rows
  }

  /** Deleting a household deletes its member rows. */
  function Dissolve(s: State, h: HouseholdId): State {
    State(s.households - {h}, DropHousehold(s.rows, h))
  }

  function DropHousehold(rows: seq<Row>, h: HouseholdId): seq<Row> {
    if rows == [] then [] else (if rows[0].household == h then [] else [rows[0]]) + DropHousehold(rows[1..], h)
  }

  /** If an owner went and no owner is left, `heir` is promoted. */
  function Succeed(rows: seq<Row>, h: HouseholdId, gone: Role, heir: UserId): seq<Row> {
    if gone == Owner && Owners(rows, h) == 0 then Promote(rows, h, heir) else rows
  }

  function Leave(s: State, u: UserId, h: HouseholdId): Result<State> {
    if h !in s.households || Find(s.rows, h, u).None? then Err(NotFound)
    else
      var mine := Find(s.rows, h, u).value;
      var rows := Remove(s.rows, h, u);
      if Of(rows, h) == [] then Ok(Dissolve(s.(rows := rows), h))
      else Ok(s.(rows := Succeed(Reactivate(rows, u, mine.active), h, mine.role, Of(rows, h)[0].user)))
  }

  /** `heir` is whichever remaining member the database lists first. */
  function RemoveMember(s: State, actor: UserId, h: HouseholdId, u: UserId, heir: UserId): Result<State> {
    if Find(s.rows, h, actor).None? then Err(NotFound)
    else if Find(s.rows, h, actor).value.role != Owner then Err(Forbidden)
    else if Find(s.rows, h, u).None? then Err(NotFound)
    else
      var theirs := Find(s.rows, h, u).value;
      var rows := Reactivate(Remove(s.rows, h, u), u, theirs.active);
      if h !in s.households then Ok(s.(rows := rows))
      else if Of(rows, h) == [] then Ok(Dissolve(s.(rows := rows), h))
      else Ok(s.(rows := Succeed(rows, h, theirs.role, heir)))
  }

  // ----- Runs -----

  datatype Op =
    | DoCreate(u: UserId, h: HouseholdId, name: Text, code: Text)
    | DoEnsure(u: UserId, h: HouseholdId, name: Text, code: Text)
    | DoUpdate(u: UserId, h: HouseholdId, rename: Option<Text>, activate: bool)
    | DoJoin(u: UserId, h: HouseholdId)
    | DoLeave(u: UserId, h: HouseholdId)
    | DoRemove(actor: UserId, h: HouseholdId, u: UserId, heir: UserId)

  predicate Unused(s: State, code: Text) {
    forall g :: g in s.households ==> s.households[g].code != code
  }

  /** New ids and invite codes are unused, a joined household exists, and the database lists an actual
      member first. */
  predicate Possible(s: State, op: Op) {
    match op
    case DoCreate(_, h, _, code) => h !in s.households && Unused(s, code)
    case DoEnsure(_, h, _, code) => h !in s.households && Unused(s, code)
    case DoJoin(_, h) => h in s.households
    case DoRemove(_, h, u, heir) => heir != u && (Of(Remove(s.rows, h, u), h) != [] ==> Find(s.rows, h, heir).Some?)
    case _ => true
  }

  function Outcome(s: State, op: Op): Result<State> {
    match op
    case DoCreate(u, h, name, code) => Ok(Create(s, u, h, name, code))
    case DoEnsure(u, h, name, code) => Ok(EnsureDefault(s, u, h, name, code))
    case DoUpdate(u, h, name, activate) => Update(s, u, h, name, activate)
    case DoJoin(u, h) => Ok(Join(s, u, h))
    case DoLeave(u, h) => Leave(s, u, h)
    case DoRemove(actor, h, u, heir) => RemoveMember(s, actor, h, u, heir)
  }

  function Step(s: State, op: Op): State {
    match Outcome(s, op) case Ok(s') => s' case Err(_) => s
  }

  const Start: State := State(map[], [])

  function Execute(ops: seq<Op>): Option<State> {
    if ops == [] then Some(Start)
    else
      match Execute(ops[..|ops| - 1])
      case None => None
      case Some(s) => if Possible(s, ops[|ops| - 1]) then Some(Step(s, ops[|ops| - 1])) else None
  }

  // ----- Invariant -----

  ghost predicate PairsUnique(rows: seq<Row>) {
    forall h: HouseholdId, u: UserId :: Pairs(rows, h, u) <= 1
  }

  ghost predicate OneOwnerEach(s: State) {
    forall h: HouseholdId :: Owners(s.rows, h) == (if h in s.households then 1 else 0)
  }

  ghost predicate NoStrays(s: State) {
    forall r :: r in s.rows ==> r.household in s.households
  }

  ghost predicate AtMostOneActive(rows: seq<Row>) {
    forall u: UserId :: Actives(rows, u) <= 1
  }

  ghost predicate CodesDistinct(s: State) {
    forall g, h :: g in s.households && h in s.households && s.households[g].code == s.households[h].code ==> g == h
  }

  ghost predicate Inv(s: State) {
    PairsUnique(s.rows) && OneOwnerEach(s) && NoStrays(s) && AtMostOneActive(s.rows)
  }

  // ----- What each row change does to the counts -----

  lemma {:induction false} AppendCounts(rows: seq<Row>, r: Row, h: HouseholdId, u: UserId)
    ensures Pairs(rows + [r], h, u) == Pairs(rows, h, u) + (if Is(r, h, u) then 1 else 0)
    ensures Owners(rows + [r], h) == Owners(rows, h) + (if r.household == h && r.role == Owner then 1 else 0)
    ensures Actives(rows + [r], u) == Actives(rows, u) + (if r.user == u && r.active then 1 else 0)
    ensures By(rows + [r], u) == By(rows, u) + (if r.user == u then [r] else [])
  {
    if rows == [] {
      assert rows + [r] == [r] && [r][1..] == [];
    } else {
      AppendCounts(rows[1..], r, h, u);
      assert (rows + [r])[1..] == rows[1..] + [r];
    }
  }

  lemma {:induction false} ActivateCounts(rows: seq<Row>, v: UserId, g: HouseholdId, h: HouseholdId, u: UserId)
    ensures Pairs(Activate(rows, v, g), h, u) == Pairs(rows, h, u)
    ensures Owners(Activate(rows, v, g), h) == Owners(rows, h)
    ensures Actives(Activate(rows, v, g), u) == if u == v then Pairs(rows, g, u) else Actives(rows, u)
    ensures |By(Activate(rows, v, g), u)| == |By(rows, u)| && |Of(Activate(rows, v, g), h)| == |Of(rows, h)|
  {
    if rows != [] {
      ActivateCounts(rows[1..], v, g, h, u);
      var r := Activate(rows, v, g);
      assert r[1..] == Activate(rows[1..], v, g);
    }
  }

  lemma {:induction false} RemoveCounts(rows: seq<Row>, g: HouseholdId, v: UserId, h: HouseholdId, u: UserId)
    requires Pairs(rows, g, v) <= 1
    ensures Pairs(Remove(rows, g, v), h, u) == if h == g && u == v then 0 else Pairs(rows, h, u)
    ensures var gone := Find(rows, g, v);
            && (gone.Some? <==> Pairs(rows, g, v) == 1) && (gone.Some? ==> Is(gone.value, g, v))
            && Owners(Remove(rows, g, v), h) ==
               Owners(rows, h) - (if h == g && gone.Some? && gone.value.role == Owner then 1 else 0)
            && Actives(Remove(rows, g, v), u) ==
               Actives(rows, u) - (if u == v && gone.Some? && gone.value.active then 1 else 0)
            && |By(Remove(rows, g, v), u)| == |By(rows, u)| - (if u == v && gone.Some? then 1 else 0)
            && |Of(Remove(rows, g, v), h)| == |Of(rows, h)| - (if h == g && gone.Some? then 1 else 0)
  {
    if rows != [] {
      RemoveCounts(rows[1..], g, v, h, u);
      if Is(rows[0], g, v) {
        assert Remove(rows, g, v) == Remove(rows[1..], g, v);
      } else {
        assert Remove(rows, g, v)[1..] == Remove(rows[1..], g, v);
      }
    }
  }

  lemma {:induction false} PromoteCounts(rows: seq<Row>, g: HouseholdId, v: UserId, h: HouseholdId, u: UserId)
    requires Pairs(rows, g, v) <= 1
    ensures Pairs(Promote(rows, g, v), h, u) == Pairs(rows, h, u)
    ensures Actives(Promote(rows, g, v), u) == Actives(rows, u) && |By(Promote(rows, g, v), u)| == |By(rows, u)|
    ensures Owners(Promote(rows, g, v), h) == Owners(rows, h) +
            (if h == g && Find(rows, g, v).Some? && Find(rows, g, v).value.role != Owner then 1 else 0)
  {
    if rows != [] {
      PromoteCounts(rows[1..], g, v, h, u);
      var r := Promote(rows, g, v);
      assert r[1..] == Promote(rows[1..], g, v);
      if Is(rows[0], g, v) {
        assert Pairs(rows[1..], g, v) == 0;
        NoPairNoFind(rows[1..], g, v);
      }
    }
  }

  lemma {:induction false} NoPairNoFind(rows: seq<Row>, h: HouseholdId, u: UserId)
    ensures Find(rows, h, u).None? <==> Pairs(rows, h, u) == 0
  {
    if rows != [] {
      NoPairNoFind(rows[1..], h, u);
    }
  }

  lemma {:induction false} FindIn(rows: seq<Row>, h: HouseholdId, u: UserId)
    ensures Find(rows, h, u).Some? ==> Find(rows, h, u).value in rows && Is(Find(rows, h, u).value, h, u)
    ensures forall r :: r in rows && Is(r, h, u) ==> Find(rows, h, u).Some?
  {
    if rows != [] {
      FindIn(rows[1..], h, u);
      assert rows == [rows[0]] + rows[1..];
    }
  }

  lemma {:induction false} OfMembers(rows: seq<Row>, h: HouseholdId)
    ensures forall r :: r in Of(rows, h) <==> r in rows && r.household == h
  {
    if rows != [] {
      OfMembers(rows[1..], h);
      assert rows == [rows[0]] + rows[1..];
    }
  }

  lemma {:induction false} ByMembers(rows: seq<Row>, u: UserId)
    ensures forall r :: r in By(rows, u) <==> r in rows && r.user == u
  {
    if rows != [] {
      ByMembers(rows[1..], u);
      assert rows == [rows[0]] + rows[1..];
    }
  }

  lemma {:induction false} RemoveMembers(rows: seq<Row>, h: HouseholdId, u: UserId)
    ensures forall r :: r in Remove(rows, h, u) <==> r in rows && !Is(r, h, u)
  {
    if rows != [] {
      RemoveMembers(rows[1..], h, u);
      assert rows == [rows[0]] + rows[1..];
    }
  }

  lemma {:induction false} ActivateMembers(rows: seq<Row>, v: UserId, g: HouseholdId)
    ensures forall r :: r in Activate(rows, v, g) ==>
            exists q :: q in rows && q.household == r.household && q.user == r.user
    ensures forall h: HouseholdId, u: UserId ::
              (Find(Activate(rows, v, g), h, u).Some? <==> Find(rows, h, u).Some?)
              && (Find(rows, h, u).Some? ==> Find(Activate(rows, v, g), h, u).value.role == Find(rows, h, u).value.role)
  {
    if rows != [] {
      ActivateMembers(rows[1..], v, g);
      assert rows == [rows[0]] + rows[1..];
      var r := Activate(rows, v, g);
      assert r[1..] == Activate(rows[1..], v, g) && r == [r[0]] + r[1..];
      assert rows[0] in rows;
    }
  }

  lemma {:induction false} PromoteMembers(rows: seq<Row>, h: HouseholdId, u: UserId)
    ensures forall r :: r in Promote(rows, h, u) ==>
            exists q :: q in rows && q.household == r.household && q.user == r.user
  {
    if rows != [] {
      PromoteMembers(rows[1..], h, u);
      assert rows == [rows[0]] + rows[1..];
      var r := Promote(rows, h, u);
      assert r[1..] == Promote(rows[1..], h, u) && r == [r[0]] + r[1..];
      assert rows[0] in rows;
    }
  }

  lemma {:induction false} DropNothing(rows: seq<Row>, h: HouseholdId)
    requires Of(rows, h) == []
    ensures DropHousehold(rows, h) == rows
  {
    if rows != [] {
      DropNothing(rows[1..], h);
      assert rows == [rows[0]] + rows[1..];
    }
  }

  lemma {:induction false} SomeoneOwns(rows: seq<Row>, h: HouseholdId)
    ensures Owners(rows, h) > 0 ==> Of(rows, h) != []
    ensures Of(rows, h) == [] ==> Owners(rows, h) == 0
  {
    if rows != [] {
      SomeoneOwns(rows[1..], h);
    }
  }

  // ----- What each row change leaves alone -----

  /** Removing a row takes the user out of the household and leaves every other household's members and every
      other user's memberships, in order. */
  lemma {:induction false} RemoveTakesOne(rows: seq<Row>, h: HouseholdId, u: UserId, g: HouseholdId, v: UserId)
    ensures Find(Remove(rows, h, u), h, u).None?
    ensures g != h ==> Of(Remove(rows, h, u), g) == Of(rows, g)
    ensures v != u ==> By(Remove(rows, h, u), v) == By(rows, v)
  {
    if rows != [] {
      var r, rest := rows[0], Remove(rows[1..], h, u);
      RemoveTakesOne(rows[1..], h, u, g, v);
      if !Is(r, h, u) {
        assert Remove(rows, h, u)[1..] == rest;
      } else {
        assert Remove(rows, h, u) == rest;
        assert g != h ==> Of(rows, g) == [] + Of(rows[1..], g);
        assert v != u ==> By(rows, v) == [] + By(rows[1..], v);
      }
    }
  }

  /** Dissolving a household takes all its members and leaves every other household's, in order. */
  lemma {:induction false} DropTakesAll(rows: seq<Row>, h: HouseholdId, g: HouseholdId)
    ensures Of(DropHousehold(rows, h), g) == if g == h then [] else Of(rows, g)
  {
    if rows != [] {
      var rest := DropHousehold(rows[1..], h);
      DropTakesAll(rows[1..], h, g);
      if rows[0].household != h {
        assert DropHousehold(rows, h)[1..] == rest;
      } else {
        assert DropHousehold(rows, h) == rest;
        assert g != h ==> Of(rows, g) == [] + Of(rows[1..], g);
      }
    }
  }

  /** Promoting changes the role of the user's row and nothing else. */
  lemma {:induction false} PromoteChangesRole(rows: seq<Row>, h: HouseholdId, u: UserId, k: nat)
    requires k < |rows|
    ensures Promote(rows, h, u)[k] == if Is(rows[k], h, u) then rows[k].(role := Owner) else rows[k]
  {
    if k > 0 {
      PromoteChangesRole(rows[1..], h, u, k - 1);
    }
  }

  // ----- Operations keep the invariant -----

  lemma ActivateKeeps(s: State, u: UserId, h: HouseholdId)
    requires PairsUnique(s.rows) && OneOwnerEach(s) && NoStrays(s)
    requires forall v: UserId :: v != u ==> Actives(s.rows, v) <= 1
    ensures Inv(s.(rows := Activate(s.rows, u, h)))
  {
    forall g: HouseholdId, v: UserId
      ensures Pairs(Activate(s.rows, u, h), g, v) <= 1
    {
      ActivateCounts(s.rows, u, h, g, v);
      assert Pairs(s.rows, g, v) <= 1;
    }
    forall v: UserId ensures Actives(Activate(s.rows, u, h), v) <= 1 {
      ActivateCounts(s.rows, u, h, h, v);
      assert Pairs(s.rows, h, u) <= 1;
    }
    forall g: HouseholdId ensures Owners(Activate(s.rows, u, h), g) == Owners(s.rows, g) {
      ActivateCounts(s.rows, u, h, g, u);
    }
    ActivateMembers(s.rows, u, h);
  }

  lemma AppendKeeps(s: State, r: Row, households: map<HouseholdId, Household>)
    requires Inv(s) && Pairs(s.rows, r.household, r.user) == 0
    requires households.Keys == s.households.Keys + {r.household}
    requires r.role == Owner <==> r.household !in s.households
    ensures var s' := State(households, s.rows + [r]);
            && PairsUnique(s'.rows) && OneOwnerEach(s') && NoStrays(s')
            && forall v: UserId :: v != r.user ==> Actives(s'.rows, v) <= 1
  {
    forall g: HouseholdId, v: UserId ensures Pairs(s.rows + [r], g, v) <= 1 {
      AppendCounts(s.rows, r, g, v);
      assert Pairs(s.rows, g, v) <= 1;
    }
    forall v: UserId | v != r.user ensures Actives(s.rows + [r], v) <= 1 {
      AppendCounts(s.rows, r, r.household, v);
      assert Actives(s.rows, v) <= 1;
    }
    forall g: HouseholdId ensures Owners(s.rows + [r], g) == (if g in households then 1 else 0) {
      AppendCounts(s.rows, r, g, r.user);
      assert Owners(s.rows, g) == (if g in s.households then 1 else 0);
    }
  }

  lemma {:induction false} NoStrayPairs(s: State, h: HouseholdId, u: UserId)
    requires NoStrays(s) && h !in s.households
    ensures Pairs(s.rows, h, u) == 0
    decreases |s.rows|
  {
    if s.rows != [] {
      NoStrayPairs(s.(rows := s.rows[1..]), h, u);
      assert s.rows[0] in s.rows;
    }
  }

  lemma CreateKeepsInv(s: State, u: UserId, h: HouseholdId, name: Text, code: Text)
    requires Inv(s) && h !in s.households
    ensures Inv(Create(s, u, h, name, code))
  {
    NoStrayPairs(s, h, u);
    var households := s.households[h := Household(name, code, 1)];
    AppendKeeps(s, Row(h, u, Owner, true), households);
    ActivateKeeps(State(households, s.rows + [Row(h, u, Owner, true)]), u, h);
  }

  lemma JoinKeepsInv(s: State, u: UserId, h: HouseholdId)
    requires Inv(s) && h in s.households
    ensures Inv(Join(s, u, h))
  {
    NoPairNoFind(s.rows, h, u);
    if Find(s.rows, h, u).Some? {
      ActivateKeeps(s, u, h);
    } else {
      AppendKeeps(s, Row(h, u, Member, true), s.households);
      ActivateKeeps(s.(rows := s.rows + [Row(h, u, Member, true)]), u, h);
    }
  }

  /** What is true once the row is gone: everything but the owner of h. */
  ghost predicate Bereft(s: State, h: HouseholdId, gone: Role) {
    && PairsUnique(s.rows) && NoStrays(s) && AtMostOneActive(s.rows)
    && (forall g: HouseholdId :: g != h ==> Owners(s.rows, g) == (if g in s.households then 1 else 0))
    && h in s.households && Owners(s.rows, h) == (if gone == Owner then 0 else 1)
  }

  lemma RemoveLeavesBereft(s: State, h: HouseholdId, u: UserId)
    requires Inv(s) && h in s.households && Find(s.rows, h, u).Some?
    ensures Bereft(s.(rows := Remove(s.rows, h, u)), h, Find(s.rows, h, u).value.role)
  {
    var rows := Remove(s.rows, h, u);
    assert Pairs(s.rows, h, u) <= 1;
    forall g: HouseholdId, v: UserId ensures Pairs(rows, g, v) <= 1 {
      RemoveCounts(s.rows, h, u, g, v);
      assert Pairs(s.rows, g, v) <= 1;
    }
    forall v: UserId ensures Actives(rows, v) <= 1 {
      RemoveCounts(s.rows, h, u, h, v);
      assert Actives(s.rows, v) <= 1;
    }
    forall g: HouseholdId
      ensures Owners(rows, g) == Owners(s.rows, g) - (if g == h && Find(s.rows, h, u).value.role == Owner then 1 else 0)
    {
      RemoveCounts(s.rows, h, u, g, u);
    }
    RemoveMembers(s.rows, h, u);
    assert Owners(s.rows, h) == 1;
  }

  lemma ReactivateKeepsBereft(s: State, h: HouseholdId, gone: Role, u: UserId, wasActive: bool)
    requires Bereft(s, h, gone)
    ensures Bereft(s.(rows := Reactivate(s.rows, u, wasActive)), h, gone)
  {
    if wasActive && By(s.rows, u) != [] {
      var next := By(s.rows, u)[0].household;
      forall g: HouseholdId, v: UserId
        ensures Pairs(Activate(s.rows, u, next), g, v) <= 1
      {
        ActivateCounts(s.rows, u, next, g, v);
        assert Pairs(s.rows, g, v) <= 1;
      }
      forall v: UserId ensures Actives(Activate(s.rows, u, next), v) <= 1 {
        ActivateCounts(s.rows, u, next, next, v);
        assert Pairs(s.rows, next, u) <= 1 && Actives(s.rows, v) <= 1;
      }
      forall g: HouseholdId ensures Owners(Activate(s.rows, u, next), g) == Owners(s.rows, g) {
        ActivateCounts(s.rows, u, next, g, u);
      }
      ActivateMembers(s.rows, u, next);
    }
  }

  lemma SucceedRestoresInv(s: State, h: HouseholdId, gone: Role, heir: UserId)
    requires Bereft(s, h, gone) && Find(s.rows, h, heir).Some?
    ensures Inv(s.(rows := Succeed(s.rows, h, gone, heir)))
  {
    if gone == Owner {
      var rows := Promote(s.rows, h, heir);
      assert Pairs(s.rows, h, heir) <= 1;
      OwnerCounted(s.rows, h, heir);
      forall g: HouseholdId, v: UserId ensures Pairs(rows, g, v) <= 1 {
        PromoteCounts(s.rows, h, heir, g, v);
        assert Pairs(s.rows, g, v) <= 1;
      }
      forall v: UserId ensures Actives(rows, v) <= 1 {
        PromoteCounts(s.rows, h, heir, h, v);
        assert Actives(s.rows, v) <= 1;
      }
      forall g: HouseholdId ensures Owners(rows, g) == Owners(s.rows, g) + (if g == h then 1 else 0) {
        PromoteCounts(s.rows, h, heir, g, heir);
      }
      PromoteMembers(s.rows, h, heir);
    }
  }

  lemma {:induction false} OwnerCounted(rows: seq<Row>, h: HouseholdId, u: UserId)
    ensures Find(rows, h, u).Some? && Find(rows, h, u).value.role == Owner ==> Owners(rows, h) > 0
  {
    if rows != [] {
      OwnerCounted(rows[1..], h, u);
    }
  }

  lemma DissolveKeepsInv(s: State, h: HouseholdId, gone: Role)
    requires Bereft(s, h, gone) && Of(s.rows, h) == []
    ensures Inv(Dissolve(s, h))
  {
    DropNothing(s.rows, h);
    SomeoneOwns(s.rows, h);
    OfMembers(s.rows, h);
    forall r | r in s.rows ensures r.household in s.households - {h} {
      assert r.household == h ==> r in Of(s.rows, h);
    }
  }

  lemma LeaveKeepsInv(s: State, u: UserId, h: HouseholdId)
    requires Inv(s) && Leave(s, u, h).Ok?
    ensures Inv(Leave(s, u, h).value)
  {
    var mine := Find(s.rows, h, u).value;
    var rows := Remove(s.rows, h, u);
    RemoveLeavesBereft(s, h, u);
    if Of(rows, h) == [] {
      DissolveKeepsInv(s.(rows := rows), h, mine.role);
    } else {
      var heir := Of(rows, h)[0];
      OfMembers(rows, h);
      assert heir in Of(rows, h);
      FindIn(rows, h, heir.user);
      ReactivateKeepsBereft(s.(rows := rows), h, mine.role, u, mine.active);
      ReactivateKeepsFind(rows, u, mine.active, h, heir.user);
      SucceedRestoresInv(s.(rows := Reactivate(rows, u, mine.active)), h, mine.role, heir.user);
    }
  }

  lemma ReactivateKeepsFind(rows: seq<Row>, u: UserId, wasActive: bool, h: HouseholdId, v: UserId)
    ensures Find(Reactivate(rows, u, wasActive), h, v).Some? <==> Find(rows, h, v).Some?
    ensures |Of(Reactivate(rows, u, wasActive), h)| == |Of(rows, h)|
  {
    if wasActive && By(rows, u) != [] {
      ActivateMembers(rows, u, By(rows, u)[0].household);
      ActivateCounts(rows, u, By(rows, u)[0].household, h, v);
    }
  }

  lemma RemoveMemberKeepsInv(s: State, actor: UserId, h: HouseholdId, u: UserId, heir: UserId)
    requires Inv(s) && Possible(s, DoRemove(actor, h, u, heir)) && RemoveMember(s, actor, h, u, heir).Ok?
    ensures Inv(RemoveMember(s, actor, h, u, heir).value)
  {
    var theirs := Find(s.rows, h, u).value;
    FindIn(s.rows, h, u);
    var removed := Remove(s.rows, h, u);
    var rows := Reactivate(removed, u, theirs.active);
    RemoveLeavesBereft(s, h, u);
    ReactivateKeepsBereft(s.(rows := removed), h, theirs.role, u, theirs.active);
    ReactivateKeepsFind(removed, u, theirs.active, h, heir);
    if Of(rows, h) == [] {
      DissolveKeepsInv(s.(rows := rows), h, theirs.role);
    } else {
      FindIn(s.rows, h, heir);
      RemoveMembers(s.rows, h, u);
      FindIn(removed, h, heir);
      SucceedRestoresInv(s.(rows := rows), h, theirs.role, heir);
    }
  }

  lemma StepKeepsInv(s: State, op: Op)
    requires Inv(s) && Possible(s, op)
    ensures Inv(Step(s, op))
  {
    if Outcome(s, op).Ok? {
      match op
      case DoCreate(u, h, name, code) => CreateKeepsInv(s, u, h, name, code);
      case DoEnsure(u, h, name, code) => CreateKeepsInv(s, u, h, name, code);
      case DoUpdate(u, h, name, activate) =>
        ActivateKeeps(s, u, h);
        assert Step(s, op).households.Keys == s.households.Keys;
      case DoJoin(u, h) => JoinKeepsInv(s, u, h);
      case DoLeave(u, h) => LeaveKeepsInv(s, u, h);
      case DoRemove(actor, h, u, heir) => RemoveMemberKeepsInv(s, actor, h, u, heir);
    }
  }

  lemma {:induction false} RunKeepsInv(ops: seq<Op>)
    requires Execute(ops).Some?
    ensures Inv(Execute(ops).value) && CodesDistinct(Execute(ops).value)
  {
    if ops != [] {
      RunKeepsInv(ops[..|ops| - 1]);
      StepKeepsInv(Execute(ops[..|ops| - 1]).value, ops[|ops| - 1]);
    }
  }

  /** After every run of membership operations each household has exactly one owner, hence a member; no
      household and user are paired twice; every member's household exists; no two households share an
      invite code; and no user has two active memberships. */
  lemma MembershipHolds(ops: seq<Op>, h: HouseholdId, u: UserId)
    requires Execute(ops).Some?
    ensures var s := Execute(ops).value;
            && (h in s.households ==> Owners(s.rows, h) == 1 && Of(s.rows, h) != [])
            && (h !in s.households ==> Of(s.rows, h) == [])
            && (forall g :: g in s.households && h in s.households && s.households[g].code == s.households[h].code ==>
               g == h)
            && Pairs(s.rows, h, u) <= 1 && Actives(s.rows, u) <= 1
  {
    RunKeepsInv(ops);
    var s := Execute(ops).value;
    SomeoneOwns(s.rows, h);
    OfMembers(s.rows, h);
    assert Of(s.rows, h) != [] ==> Of(s.rows, h)[0] in Of(s.rows, h);
  }

  // ----- Which user is left without an active household -----

  predicate Settled(rows: seq<Row>, v: UserId) {
    By(rows, v) != [] ==> Actives(rows, v) == 1
  }

  /** The user leaves, as its last member, the household they have active, while belonging to another. */
  predicate Strands(s: State, op: Op) {
    && op.DoLeave? && op.h in s.households && Find(s.rows, op.h, op.u).Some?
    && Find(s.rows, op.h, op.u).value.active && |Of(s.rows, op.h)| == 1 && |By(s.rows, op.u)| > 1
  }

  lemma ActivateSettles(rows: seq<Row>, u: UserId, h: HouseholdId, v: UserId)
    requires Pairs(rows, h, u) == 1
    ensures Settled(Activate(rows, u, h), u)
    ensures v != u ==> (Settled(Activate(rows, u, h), v) <==> Settled(rows, v))
  {
    ActivateCounts(rows, u, h, h, u);
    ActivateCounts(rows, u, h, h, v);
  }

  lemma AppendSettles(rows: seq<Row>, r: Row, v: UserId)
    requires Pairs(rows, r.household, r.user) == 0 && r.active
    ensures var rows' := Activate(rows + [r], r.user, r.household);
            if v == r.user then Settled(rows', v) else Settled(rows', v) <==> Settled(rows, v)
  {
    AppendCounts(rows, r, r.household, r.user);
    AppendCounts(rows, r, r.household, v);
    ActivateSettles(rows + [r], r.user, r.household, v);
  }

  lemma ReactivateSettles(rows: seq<Row>, u: UserId, wasActive: bool, v: UserId)
    requires PairsUnique(rows)
    ensures v != u ==> (Settled(Reactivate(rows, u, wasActive), v) <==> Settled(rows, v))
    ensures wasActive ==> Settled(Reactivate(rows, u, wasActive), u)
  {
    if wasActive && By(rows, u) != [] {
      var next := By(rows, u)[0];
      ByMembers(rows, u);
      assert next in By(rows, u);
      FindIn(rows, next.household, u);
      NoPairNoFind(rows, next.household, u);
      assert Pairs(rows, next.household, u) <= 1;
      ActivateSettles(rows, u, next.household, v);
    }
  }

  lemma SucceedSettles(rows: seq<Row>, h: HouseholdId, gone: Role, heir: UserId, v: UserId)
    requires PairsUnique(rows)
    ensures Settled(Succeed(rows, h, gone, heir), v) <==> Settled(rows, v)
  {
    assert Pairs(rows, h, heir) <= 1;
    PromoteCounts(rows, h, heir, h, v);
  }

  /** Losing a row unsettles its user exactly when it was the active one of several. */
  lemma RemoveSettles(rows: seq<Row>, h: HouseholdId, u: UserId, v: UserId)
    requires PairsUnique(rows) && Find(rows, h, u).Some? && Settled(rows, v) && AtMostOneActive(rows)
    ensures v != u ==> Settled(Remove(rows, h, u), v)
    ensures v == u ==> (Settled(Remove(rows, h, u), u) <==> !(Find(rows, h, u).value.active && |By(rows, u)| > 1))
    ensures PairsUnique(Remove(rows, h, u))
  {
    assert Pairs(rows, h, u) <= 1 && Actives(rows, u) <= 1;
    RemoveCounts(rows, h, u, h, v);
    forall g: HouseholdId, w: UserId ensures Pairs(Remove(rows, h, u), g, w) <= 1 {
      RemoveCounts(rows, h, u, g, w);
      assert Pairs(rows, g, w) <= 1;
    }
  }

  lemma LeaveSettles(s: State, u: UserId, h: HouseholdId, v: UserId)
    requires Inv(s) && Settled(s.rows, v) && Leave(s, u, h).Ok?
    ensures Settled(Leave(s, u, h).value.rows, v) <==> !(v == u && Strands(s, DoLeave(u, h)))
  {
    var mine := Find(s.rows, h, u).value;
    var rows := Remove(s.rows, h, u);
    RemoveSettles(s.rows, h, u, v);
    assert Pairs(s.rows, h, u) <= 1;
    RemoveCounts(s.rows, h, u, h, u);
    if Of(rows, h) == [] {
      DropNothing(rows, h);
    } else {
      var back := Reactivate(rows, u, mine.active);
      RemoveLeavesBereft(s, h, u);
      ReactivateKeepsBereft(s.(rows := rows), h, mine.role, u, mine.active);
      ReactivateSettles(rows, u, mine.active, v);
      SucceedSettles(back, h, mine.role, Of(rows, h)[0].user, v);
    }
  }

  lemma RemoveMemberSettles(s: State, actor: UserId, h: HouseholdId, u: UserId, heir: UserId, v: UserId)
    requires Inv(s) && Settled(s.rows, v) && RemoveMember(s, actor, h, u, heir).Ok?
    ensures Settled(RemoveMember(s, actor, h, u, heir).value.rows, v)
  {
    var theirs := Find(s.rows, h, u).value;
    var removed := Remove(s.rows, h, u);
    var rows := Reactivate(removed, u, theirs.active);
    FindIn(s.rows, h, u);
    RemoveSettles(s.rows, h, u, v);
    ReactivateSettles(removed, u, theirs.active, v);
    RemoveLeavesBereft(s, h, u);
    ReactivateKeepsBereft(s.(rows := removed), h, theirs.role, u, theirs.active);
    if Of(rows, h) == [] {
      DropNothing(rows, h);
    } else {
      SucceedSettles(rows, h, theirs.role, heir, v);
    }
  }

  /** Every operation keeps a user with memberships at exactly one active membership, with one exception:
      leaving as the last member deletes the household and stops before another one is made active. */
  lemma SettledUnlessStranded(s: State, op: Op, v: UserId)
    requires Inv(s) && Possible(s, op) && Settled(s.rows, v)
    ensures Settled(Step(s, op).rows, v) <==> !(Strands(s, op) && v == op.u)
  {
    if Outcome(s, op).Ok? {
      match op
      case DoCreate(u, h, name, code) =>
        NoStrayPairs(s, h, u);
        AppendSettles(s.rows, Row(h, u, Owner, true), v);
      case DoEnsure(u, h, name, code) =>
        NoStrayPairs(s, h, u);
        AppendSettles(s.rows, Row(h, u, Owner, true), v);
      case DoUpdate(u, h, name, activate) =>
        NoPairNoFind(s.rows, h, u);
        assert Pairs(s.rows, h, u) <= 1;
        ActivateSettles(s.rows, u, h, v);
      case DoJoin(u, h) =>
        NoPairNoFind(s.rows, h, u);
        assert Pairs(s.rows, h, u) <= 1;
        if Find(s.rows, h, u).Some? {
          ActivateSettles(s.rows, u, h, v);
        } else {
          AppendSettles(s.rows, Row(h, u, Member, true), v);
        }
      case DoLeave(u, h) => LeaveSettles(s, u, h, v);
      case DoRemove(actor, h, u, heir) => RemoveMemberSettles(s, actor, h, u, heir, v);
    }
  }

  /** No step of the run strands this user. */
  predicate NeverStranded(ops: seq<Op>, v: UserId) {
    if ops == [] then true
    else
      && NeverStranded(ops[..|ops| - 1], v)
      && var before := Execute(ops[..|ops| - 1]);
         before.Some? ==> !(Strands(before.value, ops[|ops| - 1]) && ops[|ops| - 1].u == v)
  }

  lemma {:induction false} RunSettles(ops: seq<Op>, v: UserId)
    requires Execute(ops).Some? && NeverStranded(ops, v)
    ensures Settled(Execute(ops).value.rows, v)
  {
    if ops != [] {
      RunKeepsInv(ops[..|ops| - 1]);
      RunSettles(ops[..|ops| - 1], v);
      SettledUnlessStranded(Execute(ops[..|ops| - 1]).value, ops[|ops| - 1], v);
    }
  }

  /** A run that strands its user: they own two households, and leave the second, which is active. */
  lemma LeavingAloneStrands()
    ensures var before := Create(Create(Start, 7, 1, 0, 0), 7, 2, 0, 1);
            && Leave(before, 7, 2).Ok?
            && By(Leave(before, 7, 2).value.rows, 7) == [Row(1, 7, Owner, false)]
            && Actives(Leave(before, 7, 2).value.rows, 7) == 0
  {
    var first := Create(Start, 7, 1, 0, 0);
    var r1, r2 := Row(1, 7, Owner, false), Row(2, 7, Owner, true);
    assert Start.rows + [Row(1, 7, Owner, true)] == [Row(1, 7, Owner, true)];
    assert first.rows == [Row(1, 7, Owner, true)];
    assert first.rows + [r2] == [Row(1, 7, Owner, true), r2];
    assert [Row(1, 7, Owner, true), r2][1..] == [r2] && [r1, r2][1..] == [r2];
    var before := Create(first, 7, 2, 0, 1);
    assert Activate([r2], 7, 2) == [r2];
    assert before.rows == [r1] + Activate([r2], 7, 2) == [r1, r2];
    assert Find([r2], 2, 7) == Some(r2);
    assert Remove([r2], 2, 7) == [];
    assert Remove(before.rows, 2, 7) == [r1];
    assert Of([r1], 2) == [];
    assert DropHousehold([r1], 2) == [r1];
  }

  /** A user's first household needs no switch, so creating it at sign-in (which skips the switch) and
      through the service leave the same rows. */
  lemma FirstHouseholdNeedsNoSwitch(s: State, u: UserId, h: HouseholdId, name: Text, code: Text)
    requires By(s.rows, u) == []
    ensures EnsureDefault(s, u, h, name, code).rows == s.rows + [Row(h, u, Owner, true)]
  {
    ActivateOwnOnly(s.rows, Row(h, u, Owner, true));
  }

  lemma {:induction false} ActivateOwnOnly(rows: seq<Row>, r: Row)
    requires By(rows, r.user) == [] && r.active
    ensures Activate(rows + [r], r.user, r.household) == rows + [r]
  {
    if rows == [] {
      assert rows + [r] == [r];
    } else {
      ActivateOwnOnly(rows[1..], r);
      assert (rows + [r])[1..] == rows[1..] + [r];
    }
  }
}
