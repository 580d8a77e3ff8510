/** The household repository and service, changing households and member rows step by step.
    Models backend/app/modules/households/repository.py and service.py. */
module HouseholdService {
  import opened Units
  import opened Membership
  import opened MembershipRows

  /** The two tables. */
  class Store {
    var households: map<HouseholdId, Household>
    var rows: seq<Row>

    constructor ()
      ensures State() == Start
    {
      households, rows := map[], [];
    }

    ghost function State(): Membership.State
      reads this
    {
      Membership.State(households, rows)
    }
  }

  function Others(members: seq<Row>, u: UserId): seq<Row> {
    if members == [] then [] else (if members[0].user != u then [members[0]] else []) + Others(members[1..], u)
  }

  predicate HasOwner(members: seq<Row>) {
    exists r :: r in members && r.role == Owner
  }

  /** The first active membership, else the first one. */
  function Current(memberships: seq<Row>): Row
    requires memberships != []
  {
    FirstActive(memberships, memberships[0])
  }

  function FirstActive(memberships: seq<Row>, otherwise: Row): Row {
    if memberships == [] then otherwise
    else if memberships[0].active then memberships[0]
    else FirstActive(memberships[1..], otherwise)
  }

  lemma {:induction false} FirstActiveIsActive(rows: seq<Row>, u: UserId, otherwise: Row)
    ensures var r := FirstActive(By(rows, u), otherwise);
            if Actives(rows, u) > 0 then r in rows && r.user == u && r.active else r == otherwise
  {
    if rows != [] {
      FirstActiveIsActive(rows[1..], u, otherwise);
      var rest := By(rows[1..], u);
      assert By(rows, u) == if rows[0].user == u then [rows[0]] + rest else rest;
      if rows[0].user == u {
        assert ([rows[0]] + rest)[1..] == rest;
      }
      assert rows == [rows[0]] + rows[1..];
    }
  }

  lemma {:induction false} OthersAreRest(rows: seq<Row>, h: HouseholdId, u: UserId)
    ensures Others(Of(rows, h), u) == Of(Remove(rows, h, u), h)
  {
    if rows != [] {
      OthersAreRest(rows[1..], h, u);
      var (r, rest, left) := (rows[0], Of(rows[1..], h), Remove(rows[1..], h, u));
      if r.household == h {
        assert Of(rows, h) == [r] + rest && ([r] + rest)[1..] == rest;
      } else {
        assert Of(rows, h) == rest;
      }
      if Is(r, h, u) {
        assert Remove(rows, h, u) == left;
      } else {
        assert Remove(rows, h, u) == [r] + left && ([r] + left)[1..] == left;
      }
    }
  }

  lemma {:induction false} OwnersSeen(rows: seq<Row>, h: HouseholdId)
    ensures HasOwner(Of(rows, h)) <==> Owners(rows, h) > 0
  {
    if rows != [] {
      OwnersSeen(rows[1..], h);
      var rest := Of(rows[1..], h);
      assert Of(rows, h) == if rows[0].household == h then [rows[0]] + rest else rest;
      if HasOwner(rest) {
        var r :| r in rest && r.role == Owner;
        assert r in Of(rows, h);
      }
      if rows[0].household == h && rows[0].role == Owner {
        assert rows[0] in Of(rows, h);
      }
    }
  }

  lemma {:induction false} ActivateSnoc(rows: seq<Row>, r: Row, u: UserId, h: HouseholdId)
    ensures Activate(rows + [r], u, h) ==
            Activate(rows, u, h) + [if r.user == u then r.(active := r.household == h) else r]
  {
    if rows == [] {
      assert rows + [r] == [r];
    } else {
      ActivateSnoc(rows[1..], r, u, h);
      assert (rows + [r])[1..] == rows[1..] + [r];
    }
  }

  class Repository {
    const store: Store

    constructor (store: Store)
      ensures this.store == store
    {
      this.store := store;
    }

    method GetMembership(h: HouseholdId, u: UserId) returns (row: Option<Row>)
      ensures row == Find(store.rows, h, u)
      ensures row.Some? ==> row.value in store.rows && row.value.household == h && row.value.user == u
      ensures row.None? ==> forall r :: r in store.rows ==> !(r.household == h && r.user == u)
    {
      row := Find(store.rows, h, u);
      FindIn(store.rows, h, u);
    }

    method ListMembershipsForUser(u: UserId) returns (memberships: seq<Row>)
      ensures memberships == By(store.rows, u)
      ensures forall r :: r in memberships <==> r in store.rows && r.user == u
    {
      memberships := By(store.rows, u);
      ByMembers(store.rows, u);
    }

    method GetByInviteCode(code: Text) returns (h: Option<HouseholdId>)
      ensures h.Some? ==> h.value in store.households && store.households[h.value].code == code
      ensures h.None? ==> forall g :: g in store.households ==> store.households[g].code != code
    {
      if g :| g in store.households && store.households[g].code == code {
        h := Some(g);
      } else {
        h := None;
      }
    }

    method Create(h: HouseholdId, name: Text, code: Text, owner: UserId)
      modifies store
      ensures store.households == old(store.households)[h := Household(name, code, 1)]
      ensures store.rows == old(store.rows) + [Row(h, owner, Owner, true)]
    {
      store.households := store.households[h := Household(name, code, 1)];
      store.rows := store.rows + [Row(h, owner, Owner, true)];
    }

    method AddMember(h: HouseholdId, u: UserId, role: Role)
      modifies store`rows
      ensures store.rows == old(store.rows) + [Row(h, u, role, true)]
    {
      store.rows := store.rows + [Row(h, u, role, true)];
    }

    method UpdateName(h: HouseholdId, name: Text)
      requires h in store.households
      modifies store`households
      ensures store.households ==
              old(store.households)[h :=
              old(store.households[h]).(name := name, version := old(store.households[h].version) + 1)]
    {
      var household := store.households[h];
      household := household.(name := name);
      household := household.(version := household.version + 1);
      store.households := store.households[h := household];
    }

    /** Every other household's members and every other user's memberships stay, in order. */
    method RemoveMembership(h: HouseholdId, u: UserId)
      modifies store`rows
      ensures Find(store.rows, h, u).None?
      ensures forall g: HouseholdId :: g != h ==> Of(store.rows, g) == Of(old(store.rows), g)
      ensures forall v: UserId :: v != u ==> By(store.rows, v) == By(old(store.rows), v)
      ensures store.rows == Remove(old(store.rows), h, u)
    {
      store.rows := Remove(store.rows, h, u);
      forall g: HouseholdId ensures g != h ==> Of(store.rows, g) == Of(old(store.rows), g) {
        RemoveTakesOne(old(store.rows), h, u, g, u);
      }
      forall v: UserId ensures v != u ==> By(store.rows, v) == By(old(store.rows), v) {
        RemoveTakesOne(old(store.rows), h, u, h, v);
      }
      RemoveTakesOne(old(store.rows), h, u, h, u);
    }

    /** The household and all its members go; every other household and its members stay, in order. */
    method DeleteHousehold(h: HouseholdId)
      modifies store
      ensures h !in store.households && Of(store.rows, h) == []
      ensures forall g: HouseholdId :: g != h ==>
                && (g in store.households <==> g in old(store.households))
                && (g in store.households ==> store.households[g] == old(store.households)[g])
                && Of(store.rows, g) == Of(old(store.rows), g)
      ensures store.State() == Dissolve(old(store.State()), h)
    {
      store.rows := DropHousehold(store.rows, h);
      store.households := store.households - {h};
      forall g: HouseholdId ensures Of(store.rows, g) == if g == h then [] else Of(old(store.rows), g) {
        DropTakesAll(old(store.rows), h, g);
      }
    }

    /** The user's row in the household gets the owner's role; no other row or field changes. */
    method Promote(h: HouseholdId, u: UserId)
      modifies store`rows
      ensures |store.rows| == |old(store.rows)|
      ensures forall k :: 0 <= k < |store.rows| ==>
                store.rows[k] == if Is(old(store.rows)[k], h, u) then old(store.rows)[k].(role := Owner)
                  else old(store.rows)[k]
      ensures store.rows == Membership.Promote(old(store.rows), h, u)
    {
      store.rows := Membership.Promote(store.rows, h, u);
      forall k | 0 <= k < |store.rows|
        ensures store.rows[k] == if Is(old(store.rows)[k], h, u) then old(store.rows)[k].(role := Owner)
                else old(store.rows)[k]
      {
        PromoteChangesRole(old(store.rows), h, u, k);
      }
    }

    /** Sets the flag of each of the user's memberships in turn; without a target nothing is committed. */
    method SetActiveMembership(u: UserId, h: HouseholdId) returns (target: Option<Row>)
      modifies store`rows
      ensures target.Some? <==> Find(old(store.rows), h, u).Some?
      ensures target.Some? ==> Is(target.value, h, u) && target.value.active && target.value in store.rows
      ensures store.rows == if target.Some? then Activate(old(store.rows), u, h) else old(store.rows)
      ensures target.Some? ==> ActiveOnlyIn(old(store.rows), u, h, store.rows)
    {
      target := None;
      var rows: seq<Row> := [];
      for k := 0 to |store.rows|
        invariant store.rows == old(store.rows)
        invariant rows == Activate(store.rows[..k], u, h)
        invariant target.Some? ==> Is(target.value, h, u) && target.value.active && target.value in rows
        invariant target.Some? <==> exists j :: 0 <= j < k && Is(store.rows[j], h, u)
      {
        var membership := store.rows[k];
        assert store.rows[..k + 1] == store.rows[..k] + [membership];
        ActivateSnoc(store.rows[..k], membership, u, h);
        if membership.user == u {
          var isTarget := membership.household == h;
          membership := membership.(active := isTarget);
          if isTarget {
            target := Some(membership);
          }
        }
        rows := rows + [membership];
      }
      FindIn(store.rows, h, u);
      assert store.rows[..|store.rows|] == store.rows;
      if target.None? {
        return;
      }
      ActivateIs(store.rows, u, h);
      store.rows := rows;
    }
  }

  class Service {
    const store: Store
    const repository: Repository

    constructor (store: Store)
      ensures this.store == store && repository.store == store
    {
      this.store := store;
      repository := new Repository(store);
    }

    /** `h` and `code` are the generated id and invite code. */
    method CreateHousehold(u: UserId, h: HouseholdId, name: Text, code: Text)
      requires repository.store == store
      modifies store
      ensures store.State() == Membership.Create(old(store.State()), u, h, name, code)
      ensures store.households == old(store.households)[h := Household(name, code, 1)]
      ensures ActiveOnlyIn(old(store.rows) + [Row(h, u, Owner, true)], u, h, store.rows)
    {
      repository.Create(h, name, code, u);
      FindIn(store.rows, h, u);
      assert Row(h, u, Owner, true) in store.rows;
      var _ := repository.SetActiveMembership(u, h);
    }

    method UpdateHousehold(u: UserId, h: HouseholdId, name: Option<Text>, activate: bool) returns (error: Option<Error>)
      requires repository.store == store
      modifies store
      ensures Performs(old(store.State()), Update(old(store.State()), u, h, name, activate), error, store.State())
      ensures error == if h in old(store.households) && Belongs(old(store.rows), h, u) then None else Some(NotFound)
      ensures error.Some? ==> store.State() == old(store.State())
      ensures error.None? ==>
                var before := old(store.households);
                store.households == if name.None? then before
                                    else before[h := Household(name.value, before[h].code, before[h].version + 1)]
      ensures error.None? ==>
                if activate then ActiveOnlyIn(old(store.rows), u, h, store.rows) else store.rows == old(store.rows)
    {
      var membership := repository.GetMembership(h, u);
      if h !in store.households || membership.None? {
        return Some(NotFound);
      }
      if name.Some? {
        repository.UpdateName(h, name.value);
      }
      if activate {
        var target := repository.SetActiveMembership(u, h);
        assert target.Some?;
      }
      error := None;
    }

    /** Joining by a code: the household with that code, or the error when there is none. */
    method JoinHousehold(u: UserId, code: Text) returns (joined: Membership.Result<HouseholdId>)
      requires repository.store == store
      modifies store
      ensures joined.Ok? ==>
                && joined.value in old(store.households) && old(store.households)[joined.value].code == code
                && store.State() == Membership.Join(old(store.State()), u, joined.value)
      ensures joined.Err? ==>
                && joined.error == BadInviteCode && store.State() == old(store.State())
                && forall g :: g in old(store.households) ==> old(store.households)[g].code != code
      ensures joined.Ok? ==>
                var h := joined.value;
                && store.households == old(store.households)
                && ActiveOnlyIn(old(store.rows) + if Belongs(old(store.rows), h, u) then []
                                                  else [Row(h, u, Member, true)], u, h, store.rows)
    {
      var found := repository.GetByInviteCode(code);
      if found.None? {
        return Membership.Err(BadInviteCode);
      }
      var h := found.value;
      var membership := repository.GetMembership(h, u);
      if membership.Some? {
        var _ := repository.SetActiveMembership(u, h);
        return Membership.Ok(h);
      }
      repository.AddMember(h, u, Member);
      FindIn(store.rows, h, u);
      assert Row(h, u, Member, true) in store.rows;
      var _ := repository.SetActiveMembership(u, h);
      joined := Membership.Ok(h);
    }

    method LeaveHousehold(u: UserId, h: HouseholdId) returns (error: Option<Error>)
      requires repository.store == store
      modifies store
      ensures Performs(old(store.State()), Leave(old(store.State()), u, h), error, store.State())
      ensures error == if h in old(store.households) && Belongs(old(store.rows), h, u) then None else Some(NotFound)
      ensures error.Some? ==> store.State() == old(store.State())
      ensures error.None? ==> !Belongs(store.rows, h, u)
      ensures error.None? ==>
                (h !in store.households <==>
                   forall r :: r in old(store.rows) && r.household == h ==> r.user == u)
    {
      var membership := repository.GetMembership(h, u);
      if h !in store.households || membership.None? {
        return Some(NotFound);
      }
      LeavingTakesTheMember(store.State(), u, h);
      var wasActive := membership.value.active;
      var membersBefore := Of(store.rows, h);
      repository.RemoveMembership(h, u);
      var remaining := Others(membersBefore, u);
      OthersAreRest(old(store.rows), h, u);
      ghost var left := store.rows;
      OwnersSeen(left, h);
      if remaining == [] {
        repository.DeleteHousehold(h);
        return None;
      }
      SwitchAway(u, wasActive);
      ReactivateOwners(left, u, wasActive, h);
      if membership.value.role == Owner && !HasOwner(remaining) {
        repository.Promote(h, remaining[0].user);
      }
      error := None;
    }

    /** `heir` is the user the database lists first among the remaining members. */
    method RemoveMember(actor: UserId, h: HouseholdId, u: UserId, heir: UserId) returns (error: Option<Error>)
      requires repository.store == store
      modifies store
      ensures Performs(old(store.State()), Membership.RemoveMember(old(store.State()), actor, h, u, heir), error,
              store.State())
      ensures error.None? ==>
                && (exists r :: r in old(store.rows) && r.household == h && r.user == actor && r.role == Owner)
                && Belongs(old(store.rows), h, u)
      ensures error == Some(Forbidden) ==>
                exists r :: r in old(store.rows) && r.household == h && r.user == actor && r.role != Owner
      ensures error == Some(NotFound) ==> !Belongs(old(store.rows), h, actor) || !Belongs(old(store.rows), h, u)
      ensures error.None? || error == Some(Forbidden) || error == Some(NotFound)
      ensures error.Some? ==> store.State() == old(store.State())
      ensures error.None? ==> !Belongs(store.rows, h, u)
      ensures error.None? ==> Users(Of(store.rows, h)) == Users(Others(Of(old(store.rows), h), u))
    {
      RemovalOutcome(store.State(), actor, h, u, heir);
      RemovalTakesTheMember(store.State(), actor, h, u, heir);
      OthersAreRest(store.rows, h, u);
      var acting := repository.GetMembership(h, actor);
      if acting.None? {
        return Some(NotFound);
      }
      if acting.value.role != Owner {
        return Some(Forbidden);
      }
      var membership := repository.GetMembership(h, u);
      if membership.None? {
        return Some(NotFound);
      }
      TakeOut(actor, h, u, membership.value, heir);
      error := None;
    }

    /** What the removal does once it is allowed. */
    method TakeOut(ghost actor: UserId, h: HouseholdId, u: UserId, membership: Row, heir: UserId)
      requires repository.store == store && Find(store.rows, h, u) == Some(membership)
      requires Find(store.rows, h, actor).Some? && Find(store.rows, h, actor).value.role == Owner
      modifies store
      ensures Membership.RemoveMember(old(store.State()), actor, h, u, heir) == Membership.Ok(store.State())
    {
      repository.RemoveMembership(h, u);
      SwitchAway(u, membership.active);
      if h !in store.households {
        return;
      }
      var members := Of(store.rows, h);
      OwnersSeen(store.rows, h);
      if members == [] {
        repository.DeleteHousehold(h);
        return;
      }
      if membership.role == Owner && !HasOwner(members) {
        repository.Promote(h, heir);
      }
    }

    /** If the lost membership was the active one, the oldest remaining one becomes active. */
    method SwitchAway(u: UserId, wasActive: bool)
      requires repository.store == store
      modifies store`rows
      ensures store.rows == Reactivate(old(store.rows), u, wasActive)
    {
      if wasActive {
        var memberships := repository.ListMembershipsForUser(u);
        if memberships != [] {
          ByMembers(store.rows, u);
          assert memberships[0] in memberships;
          FindIn(store.rows, memberships[0].household, u);
          var _ := repository.SetActiveMembership(u, memberships[0].household);
        }
      }
    }

    /** Always names a household the user belongs to, creating their first one when they have none, and
        the active one whenever they have an active one. */
    method GetActiveHouseholdId(u: UserId, h: HouseholdId, name: Text, code: Text) returns (id: HouseholdId)
      requires repository.store == store
      modifies store
      ensures store.State() == EnsureDefault(old(store.State()), u, h, name, code)
      ensures exists r :: r in store.rows && Is(r, id, u) && (Actives(store.rows, u) > 0 ==> r.active)
      ensures (exists r :: r in old(store.rows) && r.user == u) ==> store.State() == old(store.State())
      ensures (forall r :: r in old(store.rows) ==> r.user != u) ==>
                && id == h && store.rows == old(store.rows) + [Row(h, u, Owner, true)]
                && store.households == old(store.households)[h := Household(name, code, 1)]
      ensures Actives(store.rows, u) == 0 ==>
                exists k :: 0 <= k < |store.rows| && store.rows[k].user == u && id == store.rows[k].household
                            && forall j :: 0 <= j < k ==> store.rows[j].user != u
    {
      ghost var oldest := FirstBy(store.rows, u);
      var memberships := repository.ListMembershipsForUser(u);
      ByMembers(store.rows, u);
      if memberships != [] {
        assert memberships[0] in memberships;
        FirstActiveIsActive(store.rows, u, memberships[0]);
        ghost var r := Current(memberships);
        id := Current(memberships).household;
        assert store.rows[oldest].user == u;
        assert r in store.rows && Is(r, id, u);
        return;
      }
      repository.Create(h, name, code, u);
      FindIn(store.rows, h, u);
      assert Row(h, u, Owner, true) in store.rows;
      var target := repository.SetActiveMembership(u, h);
      ghost var r := target.value;
      assert r in store.rows && Is(r, h, u);
      FirstHouseholdNeedsNoSwitch(old(store.State()), u, h, name, code);
      assert r == store.rows[|store.rows| - 1] && r.active;
      FirstActiveIsActive(store.rows, u, Row(h, u, Owner, false));
      id := h;
    }
  }

  /** The call reports and does what the specification says: an error leaves the tables as they were. */
  ghost predicate Performs(before: State, outcome: Membership.Result<State>, error: Option<Error>, after: State) {
    match outcome
    case Ok(s) => error.None? && after == s
    case Err(e) => error == Some(e) && after == before
  }
}
