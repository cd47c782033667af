/**
 The domain service itself: the tables are fields it changes in place, and every
 loop over fetched rows is a loop here. Each method is proved against the operation
 of the same name in `Transitions`, or against the access gate.
 */
module Service {
  import opened Common
  import opened Permissions
  import opened Tables
  import opened Transitions
  import opened Invariants
  import Access
  import Answers
  import Effects
  import RoleOrder
  import Tombstones

  /** What the caller is told about an operation that changes the tables. */
  function Status(r: Result<Db>): Outcome {
    match r
    case Ok(_) => Pass
    case Err(e) => Fail(e)
  }

  /** `top` is the highest position among `ids`, absent when there are none. */
  ghost predicate IsTop(roles: map<RoleId, Role>, ids: set<RoleId>, top: Option<int>)
    requires ids <= roles.Keys
  {
    && (top.None? <==> ids == {})
    && (top.Some? ==> exists r :: r in ids && roles[r].position == top.value)
    && (forall r :: r in ids ==> top.Some? && roles[r].position <= top.value)
  }

  lemma {:induction false} MaxPositionIs(roles: map<RoleId, Role>, ids: set<RoleId>, top: Option<int>)
    requires ids <= roles.Keys && IsTop(roles, ids, top)
    ensures MaxPosition(roles, ids) == top.GetOr(0)
  {
  }

  lemma IsTopAdd(roles: map<RoleId, Role>, ids: set<RoleId>, top: Option<int>, r: RoleId)
    requires ids <= roles.Keys && IsTop(roles, ids, top) && r in roles
    ensures IsTop(roles, ids + {r},
                  if top.Some? && top.value > roles[r].position then top else Some(roles[r].position))
  {
    if top.Some? {
      var q :| q in ids && roles[q].position == top.value;
      assert q in ids + {r};
    }
    assert r in ids + {r};
  }

  lemma AllBitsAdd(roles: map<RoleId, Role>, ids: set<RoleId>, r: RoleId)
    requires r in roles
    ensures AllBits(roles, ids + {r}) == AllBits(roles, ids) + roles[r].permissions
  {
  }

  lemma {:induction false} AllBitsOneMore(roles: map<RoleId, Role>, rows: seq<RoleId>, r: RoleId)
    requires r in roles
    ensures AllBits(roles, Elements(rows + [r])) == AllBits(roles, Elements(rows)) + roles[r].permissions
  {
    assert Elements(rows + [r]) == Elements(rows) + {r};
    AllBitsAdd(roles, Elements(rows), r);
  }

  /**
   The integers behind `FoldRows`: OR-ing the 64-bit masks of the fetched rows, from 0,
   represents the bits of those rows, and `has` on the result decides each of them.
   */
  lemma {:induction false} FoldedMasksDecideBits(
    roles: map<RoleId, Role>, rows: seq<RoleId>, masks: seq<bv64>, bit: bv64)
    requires |rows| == |masks| && IsSingle(bit)
    requires forall i :: 0 <= i < |rows| ==> rows[i] in roles && Represents(roles[rows[i]].permissions, masks[i])
    ensures Represents(AllBits(roles, Elements(rows)), OrAll(masks))
    ensures Has(OrAll(masks), bit) <==> Bit(bit) in AllBits(roles, Elements(rows))
  {
    hide Represents, AllBits, Has, IsSingle;
    if rows == [] {
      NoBitsRepresentZero();
      assert AllBits(roles, Elements(rows)) == {} by {
        assert Elements(rows) == {};
        NoRows(roles);
      }
    } else {
      var n := |rows| - 1;
      FoldedMasksDecideBits(roles, rows[..n], masks[..n], bit);
      assert rows == rows[..n] + [rows[n]];
      AllBitsOneMore(roles, rows[..n], rows[n]);
      OrRepresentsUnion(
        AllBits(roles, Elements(rows[..n])), OrAll(masks[..n]), roles[rows[n]].permissions, masks[n]);
    }
    HasIsMembership(AllBits(roles, Elements(rows)), OrAll(masks), bit);
  }

  lemma UnionAssociates(a: Mask, b: Mask, c: Mask)
    ensures (a + b) + c == a + (b + c)
  {
  }

  lemma ServerRoleOrNot(roles: map<RoleId, Role>, s: ServerId, done: set<RoleId>, r: RoleId)
    ensures ServerRoles(roles, s) * (done + {r}) ==
            ServerRoles(roles, s) * done + (if r in roles && roles[r].server == s then {r} else {})
  {
  }

  lemma NoRows(roles: map<RoleId, Role>)
    ensures AllBits(roles, {}) == {} && IsTop(roles, {}, None)
  {
  }

  /** The first `i` roles of `order` have their new position, the rest are as they were. */
  ghost predicate Written(before: map<RoleId, Role>, roles: map<RoleId, Role>, order: seq<RoleId>, i: nat)
    requires i <= |order|
  {
    && roles.Keys == before.Keys
    && (forall k :: 0 <= k < i ==>
          order[k] in before && roles[order[k]] == before[order[k]].(position := NewPosition(order, k)))
    && (forall r :: r in before && r !in order[..i] ==> roles[r] == before[r])
  }

  lemma {:induction false} NothingWritten(roles: map<RoleId, Role>, order: seq<RoleId>)
    ensures Written(roles, roles, order, 0)
  {
  }

  lemma {:induction false} WriteOne(before: map<RoleId, Role>, roles: map<RoleId, Role>, order: seq<RoleId>, i: nat)
    requires i < |order| && Distinct(order) && Elements(order) <= before.Keys
    requires Written(before, roles, order, i)
    ensures order[i] in roles
    ensures Written(before, roles[order[i] := roles[order[i]].(position := |order| - i)], order, i + 1)
  {
    assert order[i] in Elements(order);
    assert order[i] !in order[..i];
    var next := roles[order[i] := roles[order[i]].(position := |order| - i)];
    assert next[order[i]] == before[order[i]].(position := NewPosition(order, i));
    forall k | 0 <= k < i
      ensures next[order[k]] == before[order[k]].(position := NewPosition(order, k))
    {
      assert order[k] != order[i];
    }
    hide Distinct, Elements, NewPosition;
    assert order[..i + 1] == order[..i] + [order[i]];
    forall r | r in before && r !in order[..i + 1]
      ensures next[r] == before[r]
    {
      assert r !in order[..i] && r != order[i];
    }
  }

  lemma {:induction false} AllWritten(before: map<RoleId, Role>, roles: map<RoleId, Role>, order: seq<RoleId>)
    requires Distinct(order) && Elements(order) <= before.Keys
    requires Written(before, roles, order, |order|)
    ensures roles == Repositioned(before, order)
  {
    hide Repositioned;
    RepositionedPositions(before, order);
    assert order[..|order|] == order;
    var last := Repositioned(before, order);
    forall r | r in before
      ensures roles[r] == last[r]
    {
      if r in order {
        var k :| 0 <= k < |order| && order[k] == r;
      }
    }
  }

  /** The rows of `done` carry their snapshot, the others are as they were. */
  ghost predicate Snapshotted(
    before: map<ChannelId, Channel>, channels: map<ChannelId, Channel>, done: set<ChannelId>, visibility: Visibility)
  {
    && channels.Keys == before.Keys
    && (forall c :: c in before ==>
          channels[c] == if c in done then Snapshot(before, c, visibility) else before[c])
  }

  /** `UPDATE .. WHERE public_tombstone_eligible IS NULL` on one row. */
  function Marked(row: Channel, eligible: bool): Channel {
    if row.tombstone.None? then row.(tombstone := Some(eligible)) else row
  }

  /** A snapshot in progress does not change what the next one sees. */
  lemma SnapshotOne(
    before: map<ChannelId, Channel>, channels: map<ChannelId, Channel>, done: set<ChannelId>, visibility: Visibility,
    d: ChannelId)
    requires Snapshotted(before, channels, done, visibility) && d in before && d !in done
    ensures d in channels
    ensures Snapshotted(
              before, channels[d := Marked(channels[d], TombstoneEligible(channels, d, visibility))],
              done + {d}, visibility)
  {
    assert TombstoneEligible(channels, d, visibility) == TombstoneEligible(before, d, visibility);
    hide TombstoneEligible;
  }

  lemma SnapshotNone(channels: map<ChannelId, Channel>, visibility: Visibility)
    ensures Snapshotted(channels, channels, {}, visibility)
  {
  }

  /** The threads `lock_descendant_threads` returns, none for a thread. */
  function ThreadsUnder(channels: map<ChannelId, Channel>, target: ChannelId): set<ChannelId>
    requires target in channels
  {
    if channels[target].parent.None?
    then set c | c in channels && channels[c].kind == Thread && channels[c].parent == Some(target)
    else {}
  }

  lemma SnapshotAll(
    before: map<ChannelId, Channel>, channels: map<ChannelId, Channel>, target: ChannelId, visibility: Visibility)
    requires target in before && Snapshotted(before, channels, {target} + ThreadsUnder(before, target), visibility)
    ensures target in channels
    ensures channels[target := channels[target].(deleted := true)] == Deleted(before, target, visibility)
  {
    hide Snapshot;
    var next := channels[target := channels[target].(deleted := true)];
    var expected := Deleted(before, target, visibility);
    forall c | c in before
      ensures next[c] == expected[c]
    {
    }
  }

  lemma AdmittedMeans(db: Db)
    requires Inv(db)
    ensures forall a, c :: Access.Admitted(db, a, c) <==> Answers.Sees(db, a, c)
  {
    hide Inv, RequireChannelAccess, Answers.Sees;
    forall a, c
      ensures Access.Admitted(db, a, c) <==> Answers.Sees(db, a, c)
    {
      Answers.AccessMeans(db, a, c);
    }
  }

  /** What `Answers` and `Effects` say of the call, in terms of its status. */
  lemma CallMeans(db: Db, now: Time, op: Op)
    requires Inv(db)
    ensures Status(Apply(db, now, op)) == Answers.Expected(db, now, op)
    ensures Apply(db, now, op).Ok? ==> Effects.Does(db, Next(db, now, op), op)
  {
    hide Inv, Apply, Next, Answers.Expected, Effects.Does;
    Answers.AnswersAsExpected(db, now, op);
    Effects.EveryCallDoesThis(db, now, op);
  }

  class DomainService {
    var servers: map<ServerId, Server>
    var members: map<(ServerId, AccountId), Member>
    var roles: map<RoleId, Role>
    var bans: set<(ServerId, AccountId)>
    var channels: map<ChannelId, Channel>
    var grants: map<(ChannelId, RoleId), Mask>
    var participants: set<(ChannelId, AccountId)>

    ghost function State(): Db
      reads this
    {
      Db(servers, members, roles, bans, channels, grants, participants)
    }

    ghost predicate Valid()
      reads this
    {
      Inv(State())
    }

    constructor ()
      ensures Valid() && State() == EMPTY
    {
      servers, members, roles, bans := map[], map[], map[], {};
      channels, grants, participants := map[], map[], {};
      new;
      EmptyInv();
    }

    // ---- gates ----

    /** `member_context`: folds the masks and takes the highest position of the fetched rows, in any order. */
    method MemberContextOf(s: ServerId, a: AccountId) returns (ctx: Result<MemberContext>)
      ensures ctx == Transitions.MemberContextOf(State(), s, a)
    {
      if (s, a) !in members {
        return Err(ServerNotFound);
      }
      var rows := Held(roles, s, members[(s, a)].roles);
      var permissions, top := FoldRows(rows);
      return Ok(MemberContext(members[(s, a)].isOwner, permissions, top, rows));
    }

    /** The fold over masks and the maximum over positions, rows taken in any order. */
    method FoldRows(rows: set<RoleId>) returns (permissions: Mask, topPosition: int)
      requires rows <= roles.Keys
      ensures permissions == AllBits(roles, rows)
      ensures topPosition == MaxPosition(roles, rows)
    {
      hide AllBits, IsTop, MaxPosition;
      permissions := {};
      var top: Option<int> := None;
      var todo := rows;
      ghost var done: set<RoleId> := {};
      assert AllBits(roles, {}) == {} && IsTop(roles, {}, None) by {
        NoRows(roles);
      }
      while todo != {}
        invariant done <= rows && todo == rows - done
        invariant permissions == AllBits(roles, done)
        invariant IsTop(roles, done, top)
        decreases |todo|
      {
        var r :| r in todo;
        AllBitsAdd(roles, done, r);
        IsTopAdd(roles, done, top, r);
        permissions := permissions + roles[r].permissions;
        top := if top.Some? && top.value > roles[r].position then top else Some(roles[r].position);
        todo, done := todo - {r}, done + {r};
      }
      assert done == rows;
      MaxPositionIs(roles, rows, top);
      topPosition := top.GetOr(0);
    }

    /** `require_permission`, then `require_not_timed_out`. */
    method RequireGate(now: Time, s: ServerId, a: AccountId, bit: Bit) returns (ctx: Result<MemberContext>)
      ensures ctx == Gate(State(), now, s, a, bit)
    {
      hide Context;
      ctx := MemberContextOf(s, a);
      if ctx.Err? {
        return;
      }
      if !ctx.value.isOwner && ADMIN !in ctx.value.permissions && bit !in ctx.value.permissions {
        return Err(MissingPermission);
      }
      if TimedOut(members[(s, a)], now) {
        return Err(MemberTimedOut);
      }
    }

    method TopPositionOf(s: ServerId, a: AccountId) returns (top: int)
      requires (s, a) in members
      ensures top == TopPosition(State(), s, a)
    {
      var _, topPosition := FoldRows(Held(roles, s, members[(s, a)].roles));
      top := topPosition;
    }

    // ---- roles ----

    method CreateRole(now: Time, actor: AccountId, s: ServerId, id: RoleId, name: string) returns (outcome: Outcome)
      requires Valid()
      modifies this`roles
      ensures Valid() && State() == Next(old(State()), now, OpCreateRole(actor, s, id, name))
      ensures outcome == Status(Apply(old(State()), now, OpCreateRole(actor, s, id, name)))
    {
      hide Inv, Context, Gate;
      StepKeepsInv(State(), now, OpCreateRole(actor, s, id, name));
      var ctx := RequireGate(now, s, actor, MANAGE_ROLES);
      if ctx.Err? {
        return Fail(ctx.error);
      }
      var existing := ServerRoles(roles, s);
      if |existing| >= MAX_ROLES_PER_SERVER {
        return Fail(RoleLimitReached);
      }
      if id in roles {
        return Fail(Conflict);
      }
      var _, top := FoldRows(existing);
      roles := roles[id := Role(s, name, None, {}, top + 1, false, false)];
      return Pass;
    }

    method UpdateRole(now: Time, actor: AccountId, s: ServerId, id: RoleId, patch: RolePatch)
      returns (outcome: Outcome)
      requires Valid()
      modifies this`roles
      ensures Valid() && State() == Next(old(State()), now, OpUpdateRole(actor, s, id, patch))
      ensures outcome == Status(Apply(old(State()), now, OpUpdateRole(actor, s, id, patch)))
    {
      hide Inv, Context, Gate;
      StepKeepsInv(State(), now, OpUpdateRole(actor, s, id, patch));
      var gate := RequireGate(now, s, actor, MANAGE_ROLES);
      if gate.Err? {
        return Fail(gate.error);
      }
      var ctx := gate.value;
      if id !in roles || roles[id].server != s {
        return Fail(RoleNotFound);
      }
      var role := roles[id];
      if role.isDefault && (patch.name.Some? || patch.color.Some? || patch.mentionable.Some?) {
        return Fail(CannotModifyDefaultRole);
      }
      if role.isDefault && !ctx.isOwner && ADMIN !in ctx.permissions {
        return Fail(MissingPermission);
      }
      if !ctx.isOwner && role.position >= ctx.topPosition {
        return Fail(InsufficientHierarchy);
      }
      if patch.name.Some? {
        role := role.(name := patch.name.value);
      }
      if patch.color.Some? {
        role := role.(color := patch.color);
      }
      var permissions := patch.permissions.GetOr(role.permissions) * KNOWN;
      if !ctx.isOwner {
        permissions := permissions * ctx.permissions;
      }
      role := role.(permissions := permissions, mentionable := patch.mentionable.GetOr(role.mentionable));
      roles := roles[id := role];
      return Pass;
    }

    method DeleteRole(now: Time, actor: AccountId, s: ServerId, id: RoleId) returns (outcome: Outcome)
      requires Valid()
      modifies this
      ensures Valid() && State() == Next(old(State()), now, OpDeleteRole(actor, s, id))
      ensures outcome == Status(Apply(old(State()), now, OpDeleteRole(actor, s, id)))
    {
      hide Inv, Context, Gate;
      StepKeepsInv(State(), now, OpDeleteRole(actor, s, id));
      var gate := RequireGate(now, s, actor, MANAGE_ROLES);
      if gate.Err? {
        return Fail(gate.error);
      }
      if id !in roles || roles[id].server != s {
        return Fail(RoleNotFound);
      }
      if roles[id].isDefault {
        return Fail(CannotModifyDefaultRole);
      }
      if !gate.value.isOwner && roles[id].position >= gate.value.topPosition {
        return Fail(InsufficientHierarchy);
      }
      roles := roles - {id};
      members := map k | k in members :: members[k].(roles := members[k].roles - {id});
      grants := map k | k in grants && k.1 != id :: grants[k];
      return Pass;
    }

    /** Validates the whole list, checks every move against the hierarchy, then writes one position at a time. */
    method ReorderRoles(now: Time, actor: AccountId, s: ServerId, order: seq<RoleId>) returns (outcome: Outcome)
      requires Valid()
      modifies this`roles
      ensures Valid() && State() == Next(old(State()), now, OpReorderRoles(actor, s, order))
      ensures outcome == Status(Apply(old(State()), now, OpReorderRoles(actor, s, order)))
    {
      hide Inv, Context, Gate, Repositioned, Distinct;
      StepKeepsInv(State(), now, OpReorderRoles(actor, s, order));
      var gate := RequireGate(now, s, actor, MANAGE_ROLES);
      if gate.Err? {
        return Fail(gate.error);
      }
      var ctx := gate.value;
      var provided := Elements(order);
      RoleOrder.DistinctCount(order);
      if |provided| != |order| || provided != NonDefaultRoles(roles, s) {
        return Fail(Validation);
      }
      assert forall k :: 0 <= k < |order| ==> order[k] in provided;
      var top := |order|;
      var i := 0;
      while i < |order|
        invariant 0 <= i <= |order|
        invariant forall k :: 0 <= k < i ==>
                    Outranks(ctx, roles[order[k]].position) && Outranks(ctx, NewPosition(order, k))
      {
        if !ctx.isOwner && roles[order[i]].position >= ctx.topPosition {
          return Fail(InsufficientHierarchy);
        }
        if !ctx.isOwner && top - i >= ctx.topPosition {
          return Fail(InsufficientHierarchy);
        }
        i := i + 1;
      }
      WritePositions(order);
      return Pass;
    }

    /** The `UPDATE`s of the reorder transaction, first role first. */
    method WritePositions(order: seq<RoleId>)
      requires Distinct(order) && Elements(order) <= roles.Keys
      modifies this`roles
      ensures roles == Repositioned(old(roles), order)
    {
      hide Elements, Distinct, Repositioned, Written;
      NothingWritten(roles, order);
      var i := 0;
      while i < |order|
        invariant 0 <= i <= |order|
        invariant Written(old(roles), roles, order, i)
      {
        WriteOne(old(roles), roles, order, i);
        var position := |order| - i;
        roles := roles[order[i] := roles[order[i]].(position := position)];
        i := i + 1;
      }
      AllWritten(old(roles), roles, order);
    }

    /** Replaces the explicit assignments of one member; every role on either side of the change is checked. */
    method SetMemberRoles(now: Time, actor: AccountId, s: ServerId, target: AccountId, next: set<RoleId>)
      returns (outcome: Outcome)
      requires Valid()
      modifies this`members
      ensures Valid() && State() == Next(old(State()), now, OpSetMemberRoles(actor, s, target, next))
      ensures outcome == Status(Apply(old(State()), now, OpSetMemberRoles(actor, s, target, next)))
    {
      hide Inv, Context, Gate;
      StepKeepsInv(State(), now, OpSetMemberRoles(actor, s, target, next));
      var gate := RequireGate(now, s, actor, MANAGE_ROLES);
      if gate.Err? {
        return Fail(gate.error);
      }
      if (s, target) !in members {
        return Fail(AccountNotFound);
      }
      var current := members[(s, target)].roles;
      CurrentAssigned(s, target);
      var checked := CheckRoleChange(gate.value, s, current, next);
      if checked.Fail? {
        return checked;
      }
      ReplaceAssignments(s, target, next);
      return Pass;
    }

    lemma CurrentAssigned(s: ServerId, target: AccountId)
      requires Valid() && (s, target) in members
      ensures forall r :: r in members[(s, target)].roles ==>
                r in roles && roles[r].server == s && !roles[r].isDefault
    {
    }

    /** The three loops of `set_member_roles` that may refuse the change. */
    method CheckRoleChange(ctx: MemberContext, s: ServerId, current: set<RoleId>, next: set<RoleId>)
      returns (outcome: Outcome)
      requires forall r :: r in current ==> r in roles && roles[r].server == s && !roles[r].isDefault
      ensures outcome == Fail(RoleNotFound) <==> exists r :: r in next && !(r in roles && roles[r].server == s)
      ensures outcome == Fail(CannotModifyDefaultRole) <==>
                (forall r :: r in next ==> r in roles && roles[r].server == s) &&
                exists r :: r in next && roles[r].isDefault
      ensures outcome == Fail(InsufficientHierarchy) <==>
                (forall r :: r in next ==> r in roles && roles[r].server == s && !roles[r].isDefault) &&
                exists r :: r in (current - next) + (next - current) && !Outranks(ctx, roles[r].position)
      ensures outcome == Pass <==>
                (forall r :: r in next ==> r in roles && roles[r].server == s && !roles[r].isDefault) &&
                forall r :: r in (current - next) + (next - current) ==> Outranks(ctx, roles[r].position)
    {
      var known := AllOfServer(s, next);
      if !known {
        return Fail(RoleNotFound);
      }
      var difference := (current - next) + (next - current);
      var touched: set<RoleId> := {};
      while touched != difference
        invariant touched <= difference
        invariant forall r :: r in touched ==> !roles[r].isDefault
        decreases |difference - touched|
      {
        var r :| r in difference - touched;
        if roles[r].isDefault {
          return Fail(CannotModifyDefaultRole);
        }
        touched := touched + {r};
      }
      var allowed := OutranksAll(ctx, difference);
      return if allowed then Pass else Fail(InsufficientHierarchy);
    }

    method AllOfServer(s: ServerId, next: set<RoleId>) returns (known: bool)
      ensures known <==> forall r :: r in next ==> r in roles && roles[r].server == s
    {
      var todo := next;
      while todo != {}
        invariant todo <= next
        invariant forall r :: r in next - todo ==> r in roles && roles[r].server == s
        decreases |todo|
      {
        var r :| r in todo;
        if r !in roles || roles[r].server != s {
          return false;
        }
        todo := todo - {r};
      }
      return true;
    }

    method OutranksAll(ctx: MemberContext, touched: set<RoleId>) returns (allowed: bool)
      requires touched <= roles.Keys
      ensures allowed <==> forall r :: r in touched ==> Outranks(ctx, roles[r].position)
    {
      var todo := touched;
      while todo != {}
        invariant todo <= touched
        invariant forall r :: r in touched - todo ==> Outranks(ctx, roles[r].position)
        decreases |todo|
      {
        var r :| r in todo;
        if !ctx.isOwner && roles[r].position >= ctx.topPosition {
          return false;
        }
        todo := todo - {r};
      }
      return true;
    }

    /** `clear_membership_roles`, then one insert per role. */
    method ReplaceAssignments(s: ServerId, target: AccountId, next: set<RoleId>)
      requires (s, target) in members
      modifies this`members
      ensures members == old(members)[(s, target) := old(members)[(s, target)].(roles := next)]
    {
      var key := (s, target);
      members := members[key := members[key].(roles := {})];
      var todo := next;
      assert next - todo == {};
      while todo != {}
        invariant todo <= next
        invariant members == old(members)[key := old(members)[key].(roles := next - todo)]
        decreases |todo|
      {
        var r :| r in todo;
        assert (next - todo) + {r} == next - (todo - {r});
        members := members[key := members[key].(roles := members[key].roles + {r})];
        todo := todo - {r};
      }
      assert next - todo == next;
    }

    // ---- roster ----

    method JoinViaInvite(now: Time, actor: AccountId, s: ServerId) returns (outcome: Outcome)
      requires Valid()
      modifies this`members
      ensures Valid() && State() == Next(old(State()), now, OpJoin(actor, s))
      ensures outcome == Status(Apply(old(State()), now, OpJoin(actor, s)))
      ensures outcome == Answers.Expected(old(State()), now, OpJoin(actor, s))
      ensures outcome.Pass? ==> Effects.Does(old(State()), State(), OpJoin(actor, s))
    {
      hide Inv;
      StepKeepsInv(State(), now, OpJoin(actor, s));
      hide Answers.Expected, Effects.Does;
      CallMeans(State(), now, OpJoin(actor, s));
      if s !in servers {
        return Fail(InvalidInvite);
      }
      if (s, actor) in members {
        return Fail(AlreadyMember);
      }
      if (s, actor) in bans {
        return Fail(Banned);
      }
      members := members[(s, actor) := Member(false, {}, None)];
      return Pass;
    }

    /** The checks kick and ban share once the caller passed the gate. */
    method CheckTarget(ctx: MemberContext, s: ServerId, target: AccountId) returns (outcome: Outcome)
      ensures outcome == Targetable(State(), ctx, s, target)
    {
      hide Context;
      if (s, target) !in members {
        return Fail(AccountNotFound);
      }
      if members[(s, target)].isOwner {
        return Fail(CannotActOnOwner);
      }
      var top := TopPositionOf(s, target);
      if !ctx.isOwner && top >= ctx.topPosition {
        return Fail(InsufficientHierarchy);
      }
      return Pass;
    }

    method KickMember(now: Time, actor: AccountId, s: ServerId, target: AccountId) returns (outcome: Outcome)
      requires Valid()
      modifies this`members
      ensures Valid() && State() == Next(old(State()), now, OpKick(actor, s, target))
      ensures outcome == Status(Apply(old(State()), now, OpKick(actor, s, target)))
      ensures outcome == Answers.Expected(old(State()), now, OpKick(actor, s, target))
      ensures outcome.Pass? ==> Effects.Does(old(State()), State(), OpKick(actor, s, target))
    {
      hide Inv, Context, Gate, TopPosition;
      StepKeepsInv(State(), now, OpKick(actor, s, target));
      hide Answers.Expected, Effects.Does;
      CallMeans(State(), now, OpKick(actor, s, target));
      if actor == target {
        return Fail(CannotActOnSelf);
      }
      var gate := RequireGate(now, s, actor, KICK);
      if gate.Err? {
        return Fail(gate.error);
      }
      outcome := CheckTarget(gate.value, s, target);
      if outcome.Pass? {
        members := members - {(s, target)};
      }
    }

    method BanMember(now: Time, actor: AccountId, s: ServerId, target: AccountId) returns (outcome: Outcome)
      requires Valid()
      modifies this`members, this`bans
      ensures Valid() && State() == Next(old(State()), now, OpBan(actor, s, target))
      ensures outcome == Status(Apply(old(State()), now, OpBan(actor, s, target)))
      ensures outcome == Answers.Expected(old(State()), now, OpBan(actor, s, target))
      ensures outcome.Pass? ==> Effects.Does(old(State()), State(), OpBan(actor, s, target))
    {
      hide Inv, Context, Gate, TopPosition;
      StepKeepsInv(State(), now, OpBan(actor, s, target));
      hide Answers.Expected, Effects.Does;
      CallMeans(State(), now, OpBan(actor, s, target));
      if actor == target {
        return Fail(CannotActOnSelf);
      }
      var gate := RequireGate(now, s, actor, BAN);
      if gate.Err? {
        return Fail(gate.error);
      }
      if (s, target) in bans {
        return Fail(AlreadyBanned);
      }
      outcome := CheckTarget(gate.value, s, target);
      if outcome.Pass? {
        bans := bans + {(s, target)};
        members := members - {(s, target)};
      }
    }

    // ---- channel access ----

    method CanViewChannel(s: ServerId, a: AccountId, grantChannel: ChannelId) returns (allowed: Result<bool>)
      ensures allowed == if (s, a) in members then Ok(MemberCanView(State(), s, a, grantChannel))
                          else Err(ServerNotFound)
    {
      hide Context;
      var ctx := MemberContextOf(s, a);
      if ctx.Err? {
        return Err(ctx.error);
      }
      if ctx.value.isOwner || ADMIN in ctx.value.permissions {
        return Ok(true);
      }
      return Ok(exists r :: r in ctx.value.roleIds && Grants(grants, grantChannel, r));
    }

    method RequireAccess(a: AccountId, c: ChannelId) returns (row: Result<AccessRow>)
      ensures row == RequireChannelAccess(State(), a, c)
      ensures Valid() ==> (row.Ok? <==> Answers.Sees(State(), a, c))
    {
      hide Inv, MemberCanView, Answers.Sees;
      if Valid() {
        Answers.AccessMeans(State(), a, c);
      }
      row := LookupChannel(Db(servers, members, roles, bans, channels, grants, participants), c);
      if row.Err? {
        return;
      }
      var access := row.value;
      if IsServerKind(access.kind) {
        if access.server.None? || (access.server.value, a) !in members {
          return Err(ChannelNotFound);
        }
      } else {
        if (c, a) !in participants {
          return Err(ChannelNotFound);
        }
      }
      if access.restricted {
        if access.server.None? {
          return Err(ChannelNotFound);
        }
        var allowed := CanViewChannel(access.server.value, a, access.parent.GetOr(c));
        if allowed.Err? {
          return Err(allowed.error);
        }
        if !allowed.value {
          return Err(ChannelNotFound);
        }
      }
    }

    /**
     `rows` is what the query returns, the live channels of the server, in its
     `ORDER BY`. The caller gets exactly those the gate admits it to, in that order.
     */
    method ListChannels(a: AccountId, s: ServerId, rows: seq<ChannelId>) returns (r: Result<seq<ChannelId>>)
      requires Valid()
      requires forall c :: c in rows <==> Live(channels, c) && channels[c].server == Some(s)
      ensures r == if (s, a) in members then Ok(Access.AdmittedRows(State(), a, rows)) else Err(ServerNotFound)
      ensures r.Ok? ==> forall c :: c in r.value <==> c in rows && Answers.Sees(State(), a, c)
    {
      hide Answers.Sees;
      AdmittedMeans(State());
      RowsAreAdmitted(a, rows);
      hide Inv, Context, Access.Admitted, Access.InListing, Access.InSearch, Access.InViewers, Access.InAccessible;
      forall c | Live(channels, c) && channels[c].server == Some(s)
        ensures Access.InListing(State(), a, s, c) <==> Access.Admitted(State(), a, c)
      {
        Access.FormsAgree(State(), a, s, c);
      }
      var gate := MemberContextOf(s, a);
      if gate.Err? {
        return Err(gate.error);
      }
      var visible := FilterVisible(a, s, gate.value);
      var kept := KeepRows(a, rows, visible);
      return Ok(kept);
    }

    lemma RowsAreAdmitted(a: AccountId, rows: seq<ChannelId>)
      ensures forall c :: c in Access.AdmittedRows(State(), a, rows) <==> c in rows && Access.Admitted(State(), a, c)
    {
      forall c
        ensures c in Access.AdmittedRows(State(), a, rows) <==> c in rows && Access.Admitted(State(), a, c)
      {
        Access.AdmittedRowsAreAdmitted(State(), a, rows, c);
      }
    }

    method KeepRows(a: AccountId, rows: seq<ChannelId>, visible: set<ChannelId>) returns (kept: seq<ChannelId>)
      requires forall c :: c in rows ==> (c in visible <==> Access.Admitted(State(), a, c))
      ensures kept == Access.AdmittedRows(State(), a, rows)
    {
      hide Access.Admitted;
      kept := [];
      var n := 0;
      while n < |rows|
        invariant 0 <= n <= |rows|
        invariant kept == Access.AdmittedRows(State(), a, rows[..n])
      {
        assert rows[..n + 1][..n] == rows[..n];
        if rows[n] in visible {
          kept := kept + [rows[n]];
        }
        n := n + 1;
      }
      assert rows[..n] == rows;
    }

    /** The three batched queries of `list_channels`: rows, parent flags, grants. */
    method FilterVisible(a: AccountId, s: ServerId, ctx: MemberContext) returns (visible: set<ChannelId>)
      requires (s, a) in members && ctx == Context(State(), s, a)
      ensures forall c :: c in visible <==>
                (Live(channels, c) && channels[c].server == Some(s) && Access.InListing(State(), a, s, c))
    {
      hide Context;
      var rows := set c | c in channels && channels[c].server == Some(s) && Live(channels, c);
      if ctx.isOwner || ADMIN in ctx.permissions {
        return rows;
      }
      var parentIds := set c | c in rows && channels[c].parent.Some? :: channels[c].parent.value;
      var parentRestricted := map p | p in channels && p in parentIds :: channels[p].restricted;
      assert forall c :: c in rows && channels[c].parent.Some? ==> channels[c].parent.value in parentIds;
      var resolved := map c | c in rows ::
        if channels[c].parent.Some?
        then channels[c].parent.value in parentRestricted && parentRestricted[channels[c].parent.value]
        else channels[c].restricted;
      assert forall c :: c in rows ==>
        resolved[c] == Access.ParentOrOwnRestricted(State(), c);
      var restrictedGrantIds := set c | c in rows && resolved[c] :: channels[c].parent.GetOr(c);
      var granted := set g | g in restrictedGrantIds && exists r :: r in ctx.roleIds && Grants(grants, g, r);
      assert forall c :: c in rows && resolved[c] ==> channels[c].parent.GetOr(c) in restrictedGrantIds;
      visible := set c | c in rows && (!resolved[c] || channels[c].parent.GetOr(c) in granted);
    }

    /** Everyone who may see a server channel. */
    method ChannelViewerAccountIds(c: ChannelId, expected: Option<ServerId>) returns (r: Result<set<AccountId>>)
      requires Valid()
      ensures (!Live(channels, c) || channels[c].server.None? ||
               (expected.Some? && channels[c].server != expected)) ==> r == Err(ChannelNotFound)
      ensures (Live(channels, c) && channels[c].server.Some? && (expected.Some? ==> channels[c].server == expected)) ==>
                r.Ok? && forall a :: a in r.value <==> Answers.Sees(State(), a, c)
    {
      hide Inv, Context, Access.Admitted, Access.InViewers, Answers.Sees;
      AdmittedMeans(State());
      var access := LookupChannel(Db(servers, members, roles, bans, channels, grants, participants), c);
      if access.Err? {
        return Err(access.error);
      }
      if access.value.server.None? || (expected.Some? && access.value.server != expected) {
        return Err(ChannelNotFound);
      }
      forall a
        ensures Access.InViewers(State(), a, c) <==> Access.Admitted(State(), a, c)
      {
        Access.ViewersMatchGate(State(), a, c);
      }
      var viewers := CollectViewers(c, access.value.server.value, access.value);
      return Ok(viewers);
    }

    method CollectViewers(c: ChannelId, s: ServerId, access: AccessRow) returns (viewers: set<AccountId>)
      requires Valid() && Live(channels, c) && channels[c].server == Some(s)
      requires access == LookupChannel(State(), c).value
      ensures forall a :: a in viewers <==> Access.InViewers(State(), a, c)
    {
      hide Inv, Access.RowSees;
      var all := set k | k in members && k.0 == s :: k.1;
      assert forall a :: a in all <==> (s, a) in members;
      if !access.restricted {
        return all;
      }
      var target := access.parent.GetOr(c);
      var grantSet := set k | k in grants && k.0 == target && VIEW_CHANNEL in grants[k] :: k.1;
      assert forall r :: r in grantSet <==> Grants(grants, target, r);
      if exists d :: d in ServerRoles(roles, s) && roles[d].isDefault && d in grantSet {
        return all;
      }
      assert !Access.DefaultGranted(State(), s, target);
      viewers := FilterMembers(s, all, target, grantSet);
    }

    /** The loop over the member rows. */
    method FilterMembers(s: ServerId, all: set<AccountId>, target: ChannelId, grantSet: set<RoleId>)
      returns (viewers: set<AccountId>)
      requires Valid()
      requires forall a :: a in all ==> (s, a) in members
      requires forall r :: r in grantSet <==> Grants(grants, target, r)
      ensures forall a :: a in viewers <==> a in all && Access.RowSees(State(), s, a, target)
    {
      hide Inv, Grants, Access.RowSees;
      var defaultBits := DefaultBitsOf(s);
      viewers := {};
      var todo := all;
      while todo != {}
        invariant todo <= all
        invariant forall a :: a in viewers <==> a in all - todo && Access.RowSees(State(), s, a, target)
        decreases |todo|
      {
        var a :| a in todo;
        var sees := MemberSees(s, a, defaultBits, target, grantSet);
        if sees {
          viewers := viewers + {a};
        }
        todo := todo - {a};
      }
    }

    method MemberSees(s: ServerId, a: AccountId, defaultBits: Mask, target: ChannelId, grantSet: set<RoleId>)
      returns (sees: bool)
      requires (s, a) in members && defaultBits == Access.DefaultBits(State(), s)
      requires forall r :: r in grantSet <==> Grants(grants, target, r)
      ensures sees <==> Access.RowSees(State(), s, a, target)
    {
      hide Access.DefaultBits, AllBits, Grants;
      if members[(s, a)].isOwner {
        return true;
      }
      var explicit := members[(s, a)].roles;
      var permissions := FoldBits(s, defaultBits, explicit);
      if ADMIN in permissions {
        return true;
      }
      return exists r :: r in explicit && r in grantSet;
    }

    /** The mask of the first default role of the listing, or 0. */
    method DefaultBitsOf(s: ServerId) returns (bits: Mask)
      requires Valid()
      ensures bits == Access.DefaultBits(State(), s)
    {
      OneDefault(s);
      hide Inv;
      bits := {};
      var todo := ServerRoles(roles, s);
      while todo != {}
        invariant todo <= ServerRoles(roles, s)
        invariant forall r :: r in ServerRoles(roles, s) - todo ==> !roles[r].isDefault
        invariant bits == {}
        decreases |todo|
      {
        var r :| r in todo;
        if roles[r].isDefault {
          assert HasDefault(roles, s);
          return roles[r].permissions;
        }
        todo := todo - {r};
      }
      assert forall r :: r in roles && roles[r].server == s ==> r in ServerRoles(roles, s);
    }

    lemma OneDefault(s: ServerId)
      requires Valid()
      ensures forall r, q ::
                (r in roles && q in roles && roles[r].server == s && roles[q].server == s &&
                 roles[r].isDefault && roles[q].isDefault) ==> r == q
    {
      hide RosterOk, DefaultsOk, AssignmentsOk, ChannelsOk, GrantsOk, RoleLimitOk, ChannelLimitOk, ParticipantsOk;
    }

    /** ORs the masks of the explicitly assigned roles that exist on the server onto `bits`. */
    method FoldBits(s: ServerId, bits: Mask, explicit: set<RoleId>) returns (permissions: Mask)
      ensures permissions == bits + AllBits(roles, ServerRoles(roles, s) * explicit)
    {
      hide AllBits, ServerRoles;
      permissions := bits;
      var todo := explicit;
      ghost var mine: set<RoleId> := {};
      assert mine == ServerRoles(roles, s) * (explicit - todo);
      NoRows(roles);
      while todo != {}
        invariant todo <= explicit
        invariant mine == ServerRoles(roles, s) * (explicit - todo)
        invariant permissions == bits + AllBits(roles, mine)
        decreases |todo|
      {
        var r :| r in todo;
        ServerRoleOrNot(roles, s, explicit - todo, r);
        assert explicit - (todo - {r}) == explicit - todo + {r};
        if r in roles && roles[r].server == s {
          AllBitsAdd(roles, mine, r);
          UnionAssociates(bits, AllBits(roles, mine), roles[r].permissions);
          permissions := permissions + roles[r].permissions;
          mine := mine + {r};
        }
        todo := todo - {r};
      }
      assert explicit - todo == explicit;
    }

    /** Every channel the account may receive events for. None of its three error exits is ever taken. */
    method AccessibleChannelIds(a: AccountId) returns (r: Result<set<ChannelId>>)
      requires Valid()
      ensures r.Ok? && forall c :: c in r.value <==> Answers.Sees(State(), a, c)
    {
      hide Inv, Access.Admitted, Access.InAccessible, Answers.Sees;
      AdmittedMeans(State());
      forall c
        ensures Access.InAccessible(State(), a, c) <==> Access.Admitted(State(), a, c)
      {
        Access.AccessibleMatchesGate(State(), a, c);
      }
      var accessible := FilterAccessible(a);
      return Ok(accessible);
    }

    method FilterAccessible(a: AccountId) returns (accessible: set<ChannelId>)
      requires Valid()
      ensures forall c :: c in accessible <==> Access.InAccessible(State(), a, c)
    {
      hide Inv, MemberCanView;
      var ids := (set c | c in channels && IsServerKind(channels[c].kind) && channels[c].server.Some? &&
                   (channels[c].server.value, a) in members && Live(channels, c))
        + (set c | c in channels && (c, a) in participants && !channels[c].deleted);
      accessible := {};
      var todo := ids;
      while todo != {}
        invariant todo <= ids
        invariant forall c :: c in accessible <==> c in ids - todo && Access.InAccessible(State(), a, c)
        decreases |todo|
      {
        var c :| c in todo;
        Access.ChannelShape(State(), c);
        var access := LookupChannel(Db(servers, members, roles, bans, channels, grants, participants), c);
        assert access.Ok?;
        if !access.value.restricted {
          accessible := accessible + {c};
        } else {
          assert access.value.server.Some?;
          var allowed := CanViewChannel(access.value.server.value, a, access.value.parent.GetOr(c));
          assert allowed.Ok?;
          if allowed.value {
            accessible := accessible + {c};
          }
        }
        todo := todo - {c};
      }
    }

    // ---- channel lifecycle ----

    /** Checks, then snapshots the target and its threads, then soft-deletes the target. */
    method DeleteChannel(now: Time, actor: AccountId, s: ServerId, c: ChannelId) returns (outcome: Outcome)
      requires Valid()
      modifies this`channels
      ensures Valid() && State() == Next(old(State()), now, OpDeleteChannel(actor, s, c))
      ensures outcome == Status(Apply(old(State()), now, OpDeleteChannel(actor, s, c)))
    {
      hide Inv, Context, Gate, RequireChannelAccess, Deleted;
      StepKeepsInv(State(), now, OpDeleteChannel(actor, s, c));
      var gate := RequireGate(now, s, actor, MANAGE_CHANNELS);
      if gate.Err? {
        return Fail(gate.error);
      }
      var found := LockTarget(s, c);
      if found.Err? {
        return Fail(found.error);
      }
      var access := RequireAccess(actor, c);
      if access.Err? {
        return Fail(access.error);
      }
      SnapshotAndDelete(c, servers[s].visibility);
      return Pass;
    }

    /** The row locks of the deletion: server, then parent, then target, each still live. */
    method LockTarget(s: ServerId, c: ChannelId) returns (found: Result<Channel>)
      ensures found.Ok? <==>
                (s in servers && c in channels && channels[c].server == Some(s) && !channels[c].deleted &&
                 (channels[c].parent.Some? ==>
                    channels[c].parent.value in channels && channels[channels[c].parent.value].server == Some(s) &&
                    !channels[channels[c].parent.value].deleted))
      ensures found.Ok? ==> found.value == channels[c]
      ensures found.Err? ==> found.error == ChannelNotFound
    {
      var parentId := if c in channels && channels[c].server == Some(s) then channels[c].parent else None;
      if s !in servers {
        return Err(ChannelNotFound);
      }
      if parentId.Some? {
        var p := parentId.value;
        if p !in channels || channels[p].server != Some(s) || channels[p].deleted {
          return Err(ChannelNotFound);
        }
      }
      if c !in channels || channels[c].server != Some(s) || channels[c].deleted {
        return Err(ChannelNotFound);
      }
      return Ok(channels[c]);
    }

    /** Writes the tombstone of one row unless it already has one. */
    method WriteSnapshot(c: ChannelId, eligible: bool)
      requires c in channels
      modifies this`channels
      ensures channels == old(channels)[c := Marked(old(channels)[c], eligible)]
    {
      if channels[c].tombstone.None? {
        channels := channels[c := channels[c].(tombstone := Some(eligible))];
      } else {
        assert channels == channels[c := channels[c]];
      }
    }

    method SnapshotAndDelete(target: ChannelId, visibility: Visibility)
      requires target in channels
      modifies this`channels
      ensures channels == Deleted(old(channels), target, visibility)
    {
      hide TombstoneEligible, Snapshotted, Marked, Deleted;
      ghost var before := channels;
      var threads := ThreadsUnder(channels, target);
      SnapshotNone(channels, visibility);
      SnapshotOne(before, channels, {}, visibility, target);
      WriteSnapshot(target, TombstoneEligible(channels, target, visibility));
      var todo := threads - {target};
      ghost var done := {target};
      assert {} + {target} == done;
      while todo != {}
        invariant todo <= threads && todo !! done && done + todo == {target} + threads
        invariant Snapshotted(before, channels, done, visibility)
        decreases |todo|
      {
        var d :| d in todo;
        SnapshotOne(before, channels, done, visibility, d);
        WriteSnapshot(d, TombstoneEligible(channels, d, visibility));
        todo, done := todo - {d}, done + {d};
      }
      assert done == {target} + threads;
      SnapshotAll(before, channels, target, visibility);
      channels := channels[target := channels[target].(deleted := true)];
    }

    /** `rows` is what the query returns, newest first; the sitemap lists exactly the listed ones, in that order. */
    method ListPublicThreads(rows: seq<ChannelId>) returns (threads: seq<ChannelId>)
      requires forall t :: t in rows <==>
                 Tombstones.LiveThread(Db(servers, members, roles, bans, channels, grants, participants), t) &&
                 channels[t].slug.Some?
      ensures threads == Tombstones.ListedRows(State(), rows)
      ensures forall t :: t in threads <==> Tombstones.Listed(State(), t)
    {
      threads := [];
      var n := 0;
      while n < |rows|
        invariant 0 <= n <= |rows|
        invariant threads == Tombstones.ListedRows(State(), rows[..n])
      {
        var t := rows[n];
        assert rows[..n + 1][..n] == rows[..n];
        assert t in rows;
        n := n + 1;
        var row := channels[t];
        if row.server.None? || row.server.value !in servers {
          continue;
        }
        var effective := EffectiveVisibility(
          row.visibility, channels[row.parent.value].visibility, servers[row.server.value].visibility);
        if effective != Public {
          continue;
        }
        var access := Tombstones.ResolveAnonymous(
          Db(servers, members, roles, bans, channels, grants, participants), t);
        if access.Ok? {
          threads := threads + [t];
        }
      }
      assert rows[..n] == rows;
      forall t
        ensures t in threads <==> Tombstones.Listed(State(), t)
      {
        Tombstones.ListedRowsAreListed(State(), rows, t);
      }
    }
  }
}
