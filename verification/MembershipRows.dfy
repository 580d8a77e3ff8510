/** What the membership operations do to the member rows, row by row. */
module MembershipRows {
  import opened Units
  import opened Membership

  ghost predicate Belongs(rows: seq<Row>, h: HouseholdId, u: UserId) {
    exists r :: r in rows && r.household == h && r.user == u
  }

  /** The rows after, when h is made u's active household: u's rows are active exactly in h, the others stay. */
  ghost predicate ActiveOnlyIn(before: seq<Row>, u: UserId, h: HouseholdId, after: seq<Row>) {
    && |after| == |before|
    && forall k :: 0 <= k < |after| ==>
         after[k] == if before[k].user == u
                     then Row(before[k].household, u, before[k].role, before[k].household == h) else before[k]
  }

  lemma {:induction false} ActivateAt(rows: seq<Row>, u: UserId, h: HouseholdId, k: nat)
    requires k < |rows|
    ensures Activate(rows, u, h)[k] ==
            if rows[k].user == u then rows[k].(active := rows[k].household == h) else rows[k]
  {
    if k > 0 {
      ActivateAt(rows[1..], u, h, k - 1);
    }
  }

  lemma ActivateIs(rows: seq<Row>, u: UserId, h: HouseholdId)
    ensures ActiveOnlyIn(rows, u, h, Activate(rows, u, h))
  {
    forall k | 0 <= k < |rows| ensures Activate(rows, u, h)[k] ==
            if rows[k].user == u then rows[k].(active := rows[k].household == h) else rows[k] {
      ActivateAt(rows, u, h, k);
    }
  }

  lemma Associates(a: seq<Row>, b: seq<Row>, c: seq<Row>)
    ensures a + (b + c) == (a + b) + c
  {
  }

  /** Members are listed in the order of the table. */
  lemma {:induction false} MembersInOrder(rows: seq<Row>, r: Row, h: HouseholdId)
    ensures Of([], h) == [] && Of(rows + [r], h) == Of(rows, h) + if r.household == h then [r] else []
  {
    if rows == [] {
      assert rows + [r] == [r] && [r][1..] == [];
    } else {
      MembersInOrder(rows[1..], r, h);
      assert (rows + [r])[0] == rows[0] && (rows + [r])[1..] == rows[1..] + [r];
      var first, more := if rows[0].household == h then [rows[0]] else [], if r.household == h then [r] else [];
      Associates(first, Of(rows[1..], h), more);
    }
  }

  /** So are memberships. */
  lemma {:induction false} MembershipsInOrder(rows: seq<Row>, r: Row, u: UserId)
    ensures By([], u) == [] && By(rows + [r], u) == By(rows, u) + if r.user == u then [r] else []
  {
    if rows == [] {
      assert rows + [r] == [r] && [r][1..] == [];
    } else {
      MembershipsInOrder(rows[1..], r, u);
      assert (rows + [r])[0] == rows[0] && (rows + [r])[1..] == rows[1..] + [r];
      var first, more := if rows[0].user == u then [rows[0]] else [], if r.user == u then [r] else [];
      Associates(first, By(rows[1..], u), more);
    }
  }

  /** Removing a pair leaves the other rows in their order. */
  lemma {:induction false} RemovalKeepsOrder(rows: seq<Row>, r: Row, h: HouseholdId, u: UserId)
    ensures Remove([], h, u) == []
    ensures Remove(rows + [r], h, u) == Remove(rows, h, u) + if r.household == h && r.user == u then [] else [r]
  {
    if rows == [] {
      assert rows + [r] == [r] && [r][1..] == [];
    } else {
      RemovalKeepsOrder(rows[1..], r, h, u);
      assert (rows + [r])[0] == rows[0] && (rows + [r])[1..] == rows[1..] + [r];
      var first, more := if Is(rows[0], h, u) then [] else [rows[0]], if Is(r, h, u) then [] else [r];
      Associates(first, Remove(rows[1..], h, u), more);
    }
  }

  /** The row found is the first of the pair. */
  lemma {:induction false} FindIsFirst(rows: seq<Row>, h: HouseholdId, u: UserId) returns (k: nat)
    ensures Find(rows, h, u).None? <==> !Belongs(rows, h, u)
    ensures Find(rows, h, u).Some? ==>
              && k < |rows| && Find(rows, h, u) == Some(rows[k]) && rows[k].household == h && rows[k].user == u
              && forall j :: 0 <= j < k ==> !(rows[j].household == h && rows[j].user == u)
  {
    k := 0;
    if rows != [] {
      if Is(rows[0], h, u) {
        assert rows[0] in rows;
      } else {
        var j := FindIsFirst(rows[1..], h, u);
        k := j + 1;
        assert rows == [rows[0]] + rows[1..];
      }
    }
  }

  /** The first member listed is the one whose row is oldest. */
  lemma {:induction false} FirstOf(rows: seq<Row>, h: HouseholdId) returns (k: nat)
    ensures Of(rows, h) == [] <==> forall j :: 0 <= j < |rows| ==> rows[j].household != h
    ensures Of(rows, h) != [] ==>
              && k < |rows| && Of(rows, h)[0] == rows[k] && rows[k].household == h
              && forall j :: 0 <= j < k ==> rows[j].household != h
  {
    k := 0;
    if rows != [] && rows[0].household != h {
      var j := FirstOf(rows[1..], h);
      k := j + 1;
      assert Of(rows, h) == Of(rows[1..], h);
      assert forall i :: 0 < i < |rows| ==> rows[i] == rows[1..][i - 1];
    }
  }

  /** And the first membership listed is the user's oldest. */
  lemma {:induction false} FirstBy(rows: seq<Row>, u: UserId) returns (k: nat)
    ensures By(rows, u) == [] <==> forall j :: 0 <= j < |rows| ==> rows[j].user != u
    ensures By(rows, u) != [] ==>
              && k < |rows| && By(rows, u)[0] == rows[k] && rows[k].user == u
              && forall j :: 0 <= j < k ==> rows[j].user != u
  {
    k := 0;
    if rows != [] && rows[0].user != u {
      var j := FirstBy(rows[1..], u);
      k := j + 1;
      assert By(rows, u) == By(rows[1..], u);
      assert forall i :: 0 < i < |rows| ==> rows[i] == rows[1..][i - 1];
    }
  }

  lemma {:induction false} NoOwnerIff(rows: seq<Row>, h: HouseholdId)
    ensures Owners(rows, h) == 0 <==> forall r :: r in rows && r.household == h ==> r.role != Owner
  {
    if rows != [] {
      NoOwnerIff(rows[1..], h);
      assert rows == [rows[0]] + rows[1..];
    }
  }

  // ----- After a member has gone -----

  /** The rows that are left become `after`: if u lost the active membership, u's oldest row i alone is active; if an
      owner of h went and h has none left, the heir's row in h gets the role; nothing else changes. */
  ghost predicate Settles(left: seq<Row>, u: UserId, wasActive: bool, i: nat, h: HouseholdId, gone: Role, heir: UserId,
                          after: seq<Row>) {
    && |after| == |left|
    && (forall k :: 0 <= k < |left| ==> after[k].household == left[k].household && after[k].user == left[k].user)
    && (forall k :: 0 <= k < |left| ==>
          (after[k].active <==>
             if wasActive && left[k].user == u && i < |left| then left[k].household == left[i].household
             else left[k].active))
    && (forall k :: 0 <= k < |left| ==>
          after[k].role == if gone == Owner && left[k].household == h && left[k].user == heir
                              && (forall r :: r in left && r.household == h ==> r.role != Owner)
                           then Owner else left[k].role)
  }

  /** i is u's oldest row, if u has any. */
  ghost predicate OldestBy(rows: seq<Row>, u: UserId, i: nat) {
    (forall j :: 0 <= j < |rows| ==> rows[j].user != u)
    || (i < |rows| && rows[i].user == u && forall j :: 0 <= j < i ==> rows[j].user != u)
  }

  lemma ReactivateIs(left: seq<Row>, u: UserId, wasActive: bool) returns (i: nat)
    ensures OldestBy(left, u, i)
    ensures |Reactivate(left, u, wasActive)| == |left|
    ensures forall k :: 0 <= k < |left| ==>
              Reactivate(left, u, wasActive)[k] ==
              if wasActive && left[k].user == u && i < |left|
              then left[k].(active := left[k].household == left[i].household)
              else left[k]
  {
    i := FirstBy(left, u);
    if By(left, u) != [] {
      ActivateIs(left, u, left[i].household);
    }
  }

  lemma ReactivateOwners(left: seq<Row>, u: UserId, wasActive: bool, h: HouseholdId)
    ensures Owners(Reactivate(left, u, wasActive), h) == Owners(left, h)
  {
    if wasActive && By(left, u) != [] {
      ActivateCounts(left, u, By(left, u)[0].household, h, u);
    }
  }

  lemma SucceedSettles(left: seq<Row>, u: UserId, wasActive: bool, h: HouseholdId, gone: Role, heir: UserId)
    returns (i: nat)
    ensures OldestBy(left, u, i)
    ensures Settles(left, u, wasActive, i, h, gone, heir, Succeed(Reactivate(left, u, wasActive), h, gone, heir))
  {
    i := ReactivateIs(left, u, wasActive);
    var back := Reactivate(left, u, wasActive);
    ReactivateOwners(left, u, wasActive, h);
    NoOwnerIff(left, h);
    if gone == Owner && Owners(back, h) == 0 {
      forall k | 0 <= k < |back| ensures Promote(back, h, heir)[k] ==
                if Is(back[k], h, heir) then back[k].(role := Owner) else back[k] {
        PromoteChangesRole(back, h, heir, k);
      }
    }
  }

  /** Leaving. With nobody else in it the household goes and every other row stays as it was, so a membership that
      was active is not replaced. Otherwise the household stays, u's oldest row becomes the active one if the lost one
      was, and the member with the oldest row, at j, becomes the owner if the household would have none. */
  lemma LeaveIs(s: State, u: UserId, h: HouseholdId, mine: Row) returns (i: nat, j: nat)
    requires h in s.households && Find(s.rows, h, u) == Some(mine)
    ensures var left := Remove(s.rows, h, u);
            && OldestBy(left, u, i)
            && ((forall r :: r in left ==> r.household != h) ==> Leave(s, u, h) == Ok(State(s.households - {h}, left)))
            && ((exists r :: r in left && r.household == h) ==>
                  && j < |left| && left[j].household == h && (forall k :: 0 <= k < j ==> left[k].household != h)
                  && Leave(s, u, h).Ok? && Leave(s, u, h).value.households == s.households
                  && Settles(left, u, mine.active, i, h, mine.role, left[j].user, Leave(s, u, h).value.rows))
  {
    var left := Remove(s.rows, h, u);
    j := FirstOf(left, h);
    if Of(left, h) == [] {
      i := FirstBy(left, u);
      DropNothing(left, h);
    } else {
      assert left[j] in left;
      i := SucceedSettles(left, u, mine.active, h, mine.role, left[j].user);
    }
  }

  lemma AfterRemoval(s: State, actor: UserId, h: HouseholdId, u: UserId, heir: UserId, theirs: Row)
    requires h in s.households && Find(s.rows, h, actor).Some? && Find(s.rows, h, actor).value.role == Owner
    requires Find(s.rows, h, u) == Some(theirs)
    ensures var left := Remove(s.rows, h, u); var back := Reactivate(left, u, theirs.active);
            RemoveMember(s, actor, h, u, heir) ==
              if Of(left, h) == [] then Ok(State(s.households - {h}, back))
              else Ok(s.(rows := Succeed(back, h, theirs.role, heir)))
  {
    var left := Remove(s.rows, h, u);
    ReactivateKeepsFind(left, u, theirs.active, h, heir);
    if Of(left, h) == [] {
      DropNothing(Reactivate(left, u, theirs.active), h);
    }
  }

  /** Removing a member: the same for the one removed, with whichever heir the database lists first. If nobody is
      left the household goes, after the switch to another membership. */
  lemma RemoveMemberIs(s: State, actor: UserId, h: HouseholdId, u: UserId, heir: UserId, theirs: Row)
    returns (i: nat)
    requires h in s.households && Find(s.rows, h, actor).Some? && Find(s.rows, h, actor).value.role == Owner
    requires Find(s.rows, h, u) == Some(theirs)
    ensures RemoveMember(s, actor, h, u, heir).Ok? && OldestBy(Remove(s.rows, h, u), u, i)
    ensures var left := Remove(s.rows, h, u); var after := RemoveMember(s, actor, h, u, heir).value;
            if exists r :: r in left && r.household == h
            then
              && after.households == s.households
              && Settles(left, u, theirs.active, i, h, theirs.role, heir, after.rows)
            else
              && after.households == s.households - {h}
              && Settles(left, u, theirs.active, i, h, Member, heir, after.rows)
  {
    var left := Remove(s.rows, h, u);
    AfterRemoval(s, actor, h, u, heir, theirs);
    OfMembers(left, h);
    if Of(left, h) == [] {
      i := SucceedSettles(left, u, theirs.active, h, Member, heir);
    } else {
      assert Of(left, h)[0] in Of(left, h);
      i := SucceedSettles(left, u, theirs.active, h, theirs.role, heir);
    }
  }

  /** Only an owner removes a member: in every state, an attempt by anyone else changes nothing. */
  lemma OnlyOwnersRemove(s: State, op: Op)
    requires op.DoRemove? && forall r :: r in s.rows && r.household == op.h && r.user == op.actor ==> r.role != Owner
    ensures Step(s, op) == s && Outcome(s, op).Err?
  {
    var k := FindIsFirst(s.rows, op.h, op.actor);
  }

  /** The outcomes of a removal: it is refused to a stranger and for one who is not a member, and forbidden to a
      member who is not an owner. */
  lemma RemovalOutcome(s: State, actor: UserId, h: HouseholdId, u: UserId, heir: UserId)
    ensures var outcome := RemoveMember(s, actor, h, u, heir);
            && (outcome.Ok? ==>
                  && (exists r :: r in s.rows && r.household == h && r.user == actor && r.role == Owner)
                  && Belongs(s.rows, h, u))
            && (outcome == Err(Forbidden) ==>
                  exists r :: r in s.rows && r.household == h && r.user == actor && r.role != Owner)
            && (outcome == Err(NotFound) ==> !Belongs(s.rows, h, actor) || !Belongs(s.rows, h, u))
            && outcome != Err(BadInviteCode)
  {
    var i := FindIsFirst(s.rows, h, actor);
    var j := FindIsFirst(s.rows, h, u);
    assert Find(s.rows, h, actor).Some? ==> s.rows[i] in s.rows;
    assert Find(s.rows, h, u).Some? ==> s.rows[j] in s.rows;
  }

  /** The steps of a run are the operations above, and only what the caller or the database cannot bring about is left
      out: an id or code in use for a new household, joining one that is not there, and an heir who is no member. */
  lemma StepsAreOperations(s: State, u: UserId, h: HouseholdId, v: UserId, heir: UserId, name: Text, code: Text,
                           rename: Option<Text>, activate: bool)
    ensures Outcome(s, DoCreate(u, h, name, code)) == Ok(Create(s, u, h, name, code))
    ensures Outcome(s, DoEnsure(u, h, name, code)) == Ok(EnsureDefault(s, u, h, name, code))
    ensures Outcome(s, DoUpdate(u, h, rename, activate)) == Update(s, u, h, rename, activate)
    ensures Outcome(s, DoJoin(u, h)) == Ok(Join(s, u, h)) && Outcome(s, DoLeave(u, h)) == Leave(s, u, h)
    ensures Outcome(s, DoRemove(u, h, v, heir)) == RemoveMember(s, u, h, v, heir)
    ensures Possible(s, DoUpdate(u, h, rename, activate)) && Possible(s, DoLeave(u, h))
    ensures Possible(s, DoCreate(u, h, name, code)) <==>
            h !in s.households && forall g :: g in s.households ==> s.households[g].code != code
    ensures Possible(s, DoEnsure(u, h, name, code)) <==> Possible(s, DoCreate(u, h, name, code))
    ensures Possible(s, DoJoin(u, h)) <==> h in s.households
    ensures heir != v && Belongs(s.rows, h, heir) ==> Possible(s, DoRemove(u, h, v, heir))
  {
    var k := FindIsFirst(s.rows, h, heir);
  }

  // ----- Who is left -----

  function Users(rows: seq<Row>): seq<UserId> {
    seq(|rows|, k requires 0 <= k < |rows| => rows[k].user)
  }

  /** Same pairs, row by row. */
  ghost predicate SamePairs(a: seq<Row>, b: seq<Row>) {
    |a| == |b| && forall k :: 0 <= k < |a| ==> a[k].household == b[k].household && a[k].user == b[k].user
  }

  lemma {:induction false} SamePairsSameUsers(a: seq<Row>, b: seq<Row>, h: HouseholdId)
    requires SamePairs(a, b)
    ensures Users(Of(a, h)) == Users(Of(b, h))
  {
    if a != [] {
      SamePairsSameUsers(a[1..], b[1..], h);
      var x, y := Of(a[1..], h), Of(b[1..], h);
      if a[0].household == h {
        assert Users([a[0]] + x) == [a[0].user] + Users(x) && Users([b[0]] + y) == [b[0].user] + Users(y);
      } else {
        assert Of(a, h) == x && Of(b, h) == y;
      }
    }
  }

  lemma SettledPairs(left: seq<Row>, u: UserId, wasActive: bool, h: HouseholdId, gone: Role, heir: UserId)
    ensures SamePairs(Succeed(Reactivate(left, u, wasActive), h, gone, heir), left)
  {
    var i := SucceedSettles(left, u, wasActive, h, gone, heir);
  }

  lemma SamePairsSameBelonging(a: seq<Row>, b: seq<Row>, h: HouseholdId, u: UserId)
    requires SamePairs(a, b)
    ensures Belongs(a, h, u) ==> Belongs(b, h, u)
  {
    if Belongs(a, h, u) {
      var r :| r in a && r.household == h && r.user == u;
      var k :| 0 <= k < |a| && a[k] == r;
      assert b[k] in b;
    }
  }

  /** After a removal the member is gone, and the household's other members are listed as before. */
  lemma RemovalTakesTheMember(s: State, actor: UserId, h: HouseholdId, u: UserId, heir: UserId)
    ensures var after := RemoveMember(s, actor, h, u, heir);
            after.Ok? ==>
              && !Belongs(after.value.rows, h, u)
              && Users(Of(after.value.rows, h)) == Users(Of(Remove(s.rows, h, u), h))
  {
    var after := RemoveMember(s, actor, h, u, heir);
    if after.Ok? {
      var theirs := Find(s.rows, h, u).value;
      var left := Remove(s.rows, h, u);
      RemoveMembers(s.rows, h, u);
      var back := Reactivate(left, u, theirs.active);
      if h in s.households {
        AfterRemoval(s, actor, h, u, heir, theirs);
      }
      assert after.value.rows == back || after.value.rows == Succeed(back, h, theirs.role, heir);
      SettledPairs(left, u, theirs.active, h, Member, heir);
      SettledPairs(left, u, theirs.active, h, theirs.role, heir);
      SamePairsSameUsers(after.value.rows, left, h);
      SamePairsSameBelonging(after.value.rows, left, h, u);
    }
  }

  /** After leaving, the member is gone, and the household is gone exactly if nobody else was in it. */
  lemma LeavingTakesTheMember(s: State, u: UserId, h: HouseholdId)
    ensures Leave(s, u, h).Ok? <==> h in s.households && Belongs(s.rows, h, u)
    ensures Leave(s, u, h).Ok? ==>
              && !Belongs(Leave(s, u, h).value.rows, h, u)
              && (h !in Leave(s, u, h).value.households <==>
                    forall r :: r in s.rows && r.household == h ==> r.user == u)
  {
    var k := FindIsFirst(s.rows, h, u);
    if Leave(s, u, h).Ok? {
      var left, mine := Remove(s.rows, h, u), Find(s.rows, h, u).value;
      RemoveMembers(s.rows, h, u);
      OfMembers(left, h);
      var i, j := LeaveIs(s, u, h, mine);
      if Of(left, h) == [] {
        assert forall r :: r in left ==> r.household != h;
      } else {
        assert Of(left, h)[0] in Of(left, h);
        SamePairsSameBelonging(Leave(s, u, h).value.rows, left, h, u);
      }
    }
  }
}
