/** What `reorder_roles` leaves behind, and what `list_roles` then shows. */
module RoleOrder {
  import opened Common
  import opened Permissions
  import opened Tables
  import opened Transitions
  import opened Invariants

  /** `list_roles`: every role of the server once, `ORDER BY position DESC`. */
  ghost predicate RoleListing(roles: map<RoleId, Role>, s: ServerId, rows: seq<RoleId>) {
    && Distinct(rows)
    && Elements(rows) == ServerRoles(roles, s)
    && forall i, j :: 0 <= i < j < |rows| && rows[i] in roles && rows[j] in roles ==>
         roles[rows[i]].position >= roles[rows[j]].position
  }

  ghost predicate Descending(roles: map<RoleId, Role>, rows: seq<RoleId>) {
    && (forall i :: 0 <= i < |rows| ==> rows[i] in roles)
    && (forall i, j :: 0 <= i < j < |rows| ==> roles[rows[i]].position > roles[rows[j]].position)
  }

  lemma {:induction false} EmptyElements<T>(xs: seq<T>)
    ensures Elements(xs) == {} <==> xs == []
  {
    if xs != [] {
      assert xs[0] in Elements(xs);
    }
  }

  lemma {:induction false} ElementsOfTail<T>(xs: seq<T>)
    requires xs != [] && Distinct(xs)
    ensures Elements(xs[1..]) == Elements(xs) - {xs[0]}
  {
    forall x
      ensures x in Elements(xs[1..]) <==> x in Elements(xs) - {xs[0]}
    {
      if x in Elements(xs) && x != xs[0] {
        var i :| 0 <= i < |xs| && xs[i] == x;
        assert xs[1..][i - 1] == x;
      }
    }
  }

  /** There is only one way to list the same roles from the highest position down. */
  lemma {:induction false} DescendingUnique(roles: map<RoleId, Role>, xs: seq<RoleId>, ys: seq<RoleId>)
    requires Descending(roles, xs) && Descending(roles, ys)
    requires Elements(xs) == Elements(ys)
    ensures xs == ys
  {
    EmptyElements(xs);
    EmptyElements(ys);
    if xs != [] {
      assert xs[0] in Elements(xs);
      var k :| 0 <= k < |ys| && ys[k] == xs[0];
      assert ys[0] in Elements(ys);
      var j :| 0 <= j < |xs| && xs[j] == ys[0];
      assert xs[0] == ys[0];
      ElementsOfTail(xs);
      ElementsOfTail(ys);
      DescendingUnique(roles, xs[1..], ys[1..]);
      assert xs == [xs[0]] + xs[1..] && ys == [ys[0]] + ys[1..];
    }
  }

  lemma {:induction false} RepositionedListing(
    servers: map<ServerId, Server>, roles: map<RoleId, Role>, s: ServerId, order: seq<RoleId>,
    everyone: RoleId, rows: seq<RoleId>)
    requires RolesOk(servers, roles)
    requires Distinct(order) && Elements(order) == NonDefaultRoles(roles, s)
    requires everyone in roles && roles[everyone].server == s && roles[everyone].isDefault
    requires RoleListing(Repositioned(roles, order), s, rows)
    ensures rows == order + [everyone]
  {
    var next := Repositioned(roles, order);
    RepositionedPositions(roles, order);
    RolesReorder(servers, roles, s, order);
    assert NonDefaultRoles(next, s) == NonDefaultRoles(roles, s);
    OrderThenDefault(servers, next, s, order, everyone);
    ListingDescends(servers, next, s, rows);
    DescendingUnique(next, rows, order + [everyone]);
  }

  /**
   After a successful reorder the non-default roles sit at exactly `n..1` in the
   order asked for, nothing else about any role has changed, and listing the roles
   gives that order followed by the default role.
   */
  lemma {:induction false} ReorderThenList(
    db: Db, now: Time, actor: AccountId, s: ServerId, order: seq<RoleId>, everyone: RoleId, rows: seq<RoleId>)
    requires Inv(db) && ReorderRoles(db, now, actor, s, order).Ok?
    requires everyone in db.roles && db.roles[everyone].server == s && db.roles[everyone].isDefault
    requires RoleListing(ReorderRoles(db, now, actor, s, order).value.roles, s, rows)
    ensures ReorderRoles(db, now, actor, s, order).value.roles.Keys == db.roles.Keys
    ensures forall i {:trigger order[i]} :: 0 <= i < |order| ==>
              order[i] in db.roles &&
              ReorderRoles(db, now, actor, s, order).value.roles[order[i]] ==
                db.roles[order[i]].(position := |order| - i)
    ensures forall r :: r in db.roles && r !in order ==>
              ReorderRoles(db, now, actor, s, order).value.roles[r] == db.roles[r]
    ensures rows == order + [everyone]
  {
    hide Inv, Gate;
    assert ReorderRoles(db, now, actor, s, order).value.roles == Repositioned(db.roles, order);
    RepositionedPositions(db.roles, order);
    assert RolesOk(db.servers, db.roles) by {
      InvRoles(db);
    }
    RepositionedListing(db.servers, db.roles, s, order, everyone, rows);
  }

  lemma InvRoles(db: Db)
    requires Inv(db)
    ensures RolesOk(db.servers, db.roles)
  {
  }

  lemma {:induction false} ListingDescends(
    servers: map<ServerId, Server>, roles: map<RoleId, Role>, s: ServerId, rows: seq<RoleId>)
    requires RolesOk(servers, roles) && RoleListing(roles, s, rows)
    ensures Descending(roles, rows)
    ensures Elements(rows) == ServerRoles(roles, s)
  {
    forall i | 0 <= i < |rows|
      ensures rows[i] in ServerRoles(roles, s)
    {
      assert rows[i] in Elements(rows);
    }
  }

  lemma {:induction false} OrderThenDefault(
    servers: map<ServerId, Server>, roles: map<RoleId, Role>, s: ServerId, order: seq<RoleId>, everyone: RoleId)
    requires RolesOk(servers, roles)
    requires everyone in roles && roles[everyone].server == s && roles[everyone].isDefault
    requires Elements(order) == NonDefaultRoles(roles, s)
    requires forall i :: 0 <= i < |order| ==> order[i] in roles && roles[order[i]].position == |order| - i
    ensures Descending(roles, order + [everyone])
    ensures Elements(order + [everyone]) == ServerRoles(roles, s)
  {
    forall r
      ensures r in Elements(order + [everyone]) <==> r in ServerRoles(roles, s)
    {
      if r in ServerRoles(roles, s) && r != everyone {
        assert r in NonDefaultRoles(roles, s);
      }
      assert r in order + [everyone] <==> r in Elements(order) || r == everyone;
    }
  }

  // ---- positions fit their column ----

  lemma {:induction false} DistinctCount<T>(xs: seq<T>)
    ensures |Elements(xs)| <= |xs|
    ensures |Elements(xs)| == |xs| <==> Distinct(xs)
  {
    if xs == [] {
    } else {
      var rest := xs[..|xs| - 1];
      var last := xs[|xs| - 1];
      DistinctCount(rest);
      assert forall x :: x in Elements(xs) <==> x in Elements(rest) || x == last;
      assert Elements(xs) == Elements(rest) + {last};
      if last in rest {
        assert Elements(xs) == Elements(rest);
        assert !Distinct(xs);
      } else {
        assert last !in Elements(rest);
        assert Distinct(xs) <==> Distinct(rest);
      }
    }
  }

  ghost predicate PositionsUpTo(roles: map<RoleId, Role>, n: int) {
    forall r :: r in roles ==> roles[r].position <= n
  }

  lemma {:induction false} ReorderPositions(
    servers: map<ServerId, Server>, roles: map<RoleId, Role>, s: ServerId, order: seq<RoleId>, n: int)
    requires RolesOk(servers, roles) && RoleLimitOk(roles) && PositionsUpTo(roles, n) && n >= MAX_ROLES_PER_SERVER
    requires Distinct(order) && Elements(order) == NonDefaultRoles(roles, s)
    ensures PositionsUpTo(Repositioned(roles, order), n)
  {
    DistinctCount(order);
    assert |ServerRoles(roles, s)| <= MAX_ROLES_PER_SERVER;
    SubsetNoLarger(Elements(order), ServerRoles(roles, s));
    RolesReorder(servers, roles, s, order);
    forall r | r in roles
      ensures Repositioned(roles, order)[r].position <= n
    {
      var i := RepositionedRow(roles, s, order, r);
    }
  }

  lemma StepPositions(db: Db, now: Time, op: Op, n: int)
    requires Inv(db) && PositionsUpTo(db.roles, n) && n >= MAX_ROLES_PER_SERVER
    ensures PositionsUpTo(Next(db, now, op).roles, n + 1)
  {
    hide RosterOk, RolesOk, DefaultsOk, AssignmentsOk, ChannelsOk, GrantsOk, RoleLimitOk, ChannelLimitOk,
      ParticipantsOk,
      Context, Gate;
    if op.OpReorderRoles? && Apply(db, now, op).Ok? {
      ReorderPositions(db.servers, db.roles, op.server, op.order, n);
    } else if op.EditsRoster() {
      RosterCallsKeepTables(db, now, op);
      hide Apply;
    } else if op.EditsChannels() {
      ChannelCallsKeepTables(db, now, op);
      hide Apply;
    }
  }

  lemma {:induction false} RunPositions(db: Db, calls: seq<Call>, n: int)
    requires Inv(db) && PositionsUpTo(db.roles, n) && n >= MAX_ROLES_PER_SERVER
    ensures PositionsUpTo(Final(db, calls).roles, n + |calls|)
    decreases calls
  {
    hide Inv, PositionsUpTo;
    if calls == [] {
    } else {
      StepPositions(db, calls[0].now, calls[0].op, n);
      StepKeepsInv(db, calls[0].now, calls[0].op);
      RunPositions(Next(db, calls[0].now, calls[0].op), calls[1..], n + 1);
    }
  }

  /**
   Positions live in a 32-bit column and every new role takes the highest one plus
   one. From empty tables they cannot leave the column before 2^31 - 251 calls.
   */
  lemma {:induction false} PositionsFitColumn(calls: seq<Call>, r: RoleId)
    requires |calls| < 0x8000_0000 - MAX_ROLES_PER_SERVER
    requires r in Final(EMPTY, calls).roles
    ensures 0 <= Final(EMPTY, calls).roles[r].position < 0x8000_0000
  {
    EmptyInv();
    RunPositions(EMPTY, calls, MAX_ROLES_PER_SERVER);
    ReachableStatesSatisfyInv(calls, |calls|);
  }
}
