/**
 What members who are not the owner can never do to a server, over any run of
 their calls: move the highest role any of them holds up, touch a role at or above
 it, or add a permission bit the server's roles did not already carry.
 */
module Hierarchy {
  import opened Common
  import opened Permissions
  import opened Tables
  import opened Transitions
  import opened Invariants

  function NonOwners(db: Db, s: ServerId): set<AccountId> {
    set k | k in db.members && k.0 == s && !db.members[k].isOwner :: k.1
  }

  ghost function HighestTop(db: Db, s: ServerId, accounts: set<AccountId>): (m: int)
    requires forall a :: a in accounts ==> (s, a) in db.members
    ensures m >= 0
    ensures forall a :: a in accounts ==> TopPosition(db, s, a) <= m
    ensures m == 0 || exists a :: a in accounts && TopPosition(db, s, a) == m
  {
    if accounts == {} then 0
    else
      var a := Pick(accounts);
      var m := HighestTop(db, s, accounts - {a});
      var top := TopPosition(db, s, a);
      if m < top then top else m
  }

  /** The highest top position among the members of `s` that do not own it. */
  ghost function Ceiling(db: Db, s: ServerId): int {
    HighestTop(db, s, NonOwners(db, s))
  }

  /** No non-owner holds a role above position `m`. */
  ghost predicate Bounded(
    members: map<(ServerId, AccountId), Member>, roles: map<RoleId, Role>, s: ServerId, m: int)
  {
    forall a, r :: (s, a) in members && !members[(s, a)].isOwner && r in members[(s, a)].roles && r in roles ==>
      roles[r].position <= m
  }

  lemma {:induction false} TopWithin(db: Db, s: ServerId, a: AccountId, m: int)
    requires RolesOk(db.servers, db.roles) && m >= 0
    requires Bounded(db.members, db.roles, s, m)
    requires (s, a) in db.members && !db.members[(s, a)].isOwner
    ensures TopPosition(db, s, a) <= m
  {
    var held := Held(db.roles, s, db.members[(s, a)].roles);
    var top := MaxPosition(db.roles, held);
    if held != {} {
      var r :| r in held && db.roles[r].position == top;
    }
  }

  lemma {:induction false} CeilingBounds(db: Db, s: ServerId)
    requires AssignmentsOk(db.members, db.roles)
    ensures Bounded(db.members, db.roles, s, Ceiling(db, s))
  {
    forall a, r | (s, a) in db.members && !db.members[(s, a)].isOwner && r in db.members[(s, a)].roles && r in db.roles
      ensures db.roles[r].position <= Ceiling(db, s)
    {
      assert a in NonOwners(db, s);
      assert r in Held(db.roles, s, db.members[(s, a)].roles);
      assert db.roles[r].position <= TopPosition(db, s, a);
    }
  }

  lemma {:induction false} CeilingIsLeast(db: Db, s: ServerId, m: int)
    requires RolesOk(db.servers, db.roles) && m >= 0
    requires Bounded(db.members, db.roles, s, m)
    ensures Ceiling(db, s) <= m
  {
    if Ceiling(db, s) != 0 {
      var a :| a in NonOwners(db, s) && TopPosition(db, s, a) == Ceiling(db, s);
      TopWithin(db, s, a, m);
    }
  }

  /** What a step leaves intact on server `s`, for a bound `m` on its non-owners. */
  ghost predicate Unharmed(db: Db, next: Db, s: ServerId, m: int) {
    && s in db.servers && s in next.servers && next.servers[s].owner == db.servers[s].owner
    && RolesKeptFrom(db.roles, next.roles, s, m)
    && NoneNewlyAssigned(db, next, s, m)
    && Bounded(next.members, next.roles, s, m)
    && BitsOf(next.roles, s) <= BitsOf(db.roles, s)
  }

  ghost predicate RolesKeptFrom(roles: map<RoleId, Role>, next: map<RoleId, Role>, s: ServerId, m: int) {
    forall r :: r in roles && roles[r].server == s && roles[r].position >= m ==> r in next && next[r] == roles[r]
  }

  /** Whoever holds a role at `m` or above afterwards held it before. */
  ghost predicate NoneNewlyAssigned(db: Db, next: Db, s: ServerId, m: int) {
    forall a, r ::
      ((s, a) in next.members && r in next.members[(s, a)].roles &&
       r in db.roles && db.roles[r].server == s && db.roles[r].position >= m) ==>
        (s, a) in db.members && r in db.members[(s, a)].roles
  }

  /** The bits some role of the server carries. */
  function BitsOf(roles: map<RoleId, Role>, s: ServerId): Mask {
    AllBits(roles, ServerRoles(roles, s))
  }

  // ---- one step ----

  /** The facts a successful gate gives about a caller who does not own the server. */
  lemma GatedCaller(db: Db, now: Time, s: ServerId, a: AccountId, bit: Bit, m: int)
    requires Inv(db) && s in db.servers && db.servers[s].owner != a
    requires m >= 0 && Bounded(db.members, db.roles, s, m)
    requires Gate(db, now, s, a, bit).Ok?
    ensures !Context(db, s, a).isOwner
    ensures Context(db, s, a).topPosition <= m
    ensures Context(db, s, a).permissions <= BitsOf(db.roles, s)
  {
    hide DefaultsOk, AssignmentsOk, ChannelsOk, GrantsOk, RoleLimitOk, ChannelLimitOk, ParticipantsOk;
    TopWithin(db, s, a, m);
  }

  lemma SameRolesAndMembers(db: Db, next: Db, s: ServerId, m: int)
    requires s in db.servers && s in next.servers && next.servers[s].owner == db.servers[s].owner
    requires Bounded(db.members, db.roles, s, m)
    requires next.roles == db.roles
    requires forall a :: (s, a) in next.members ==> (s, a) in db.members || next.members[(s, a)].roles == {}
    requires forall a :: (s, a) in next.members && (s, a) in db.members ==>
               next.members[(s, a)].roles == db.members[(s, a)].roles &&
               next.members[(s, a)].isOwner == db.members[(s, a)].isOwner
    ensures Unharmed(db, next, s, m)
  {
  }

  /** The roles and the members of `s` are the same before and after. */
  ghost predicate SameOn(db: Db, next: Db, s: ServerId) {
    && (forall r :: r in db.roles && db.roles[r].server == s ==> r in next.roles && next.roles[r] == db.roles[r])
    && (forall r :: r in next.roles && next.roles[r].server == s ==> r in db.roles && db.roles[r].server == s)
    && (forall a :: (s, a) in next.members ==> (s, a) in db.members && next.members[(s, a)] == db.members[(s, a)])
  }

  lemma OtherServerChanged(db: Db, next: Db, s: ServerId, m: int)
    requires s in db.servers && s in next.servers && next.servers[s].owner == db.servers[s].owner
    requires AssignmentsOk(db.members, db.roles) && Bounded(db.members, db.roles, s, m)
    requires SameOn(db, next, s)
    ensures Unharmed(db, next, s, m)
  {
    forall b | b in BitsOf(next.roles, s)
      ensures b in BitsOf(db.roles, s)
    {
      var r :| r in ServerRoles(next.roles, s) && b in next.roles[r].permissions;
      assert r in ServerRoles(db.roles, s);
    }
  }

  lemma CreateRoleUnharmed(db: Db, s: ServerId, id: RoleId, row: Role, m: int)
    requires AssignmentsOk(db.members, db.roles) && Bounded(db.members, db.roles, s, m)
    requires s in db.servers && id !in db.roles && row.permissions == {}
    ensures Unharmed(db, db.(roles := db.roles[id := row]), s, m)
  {
    var next := db.roles[id := row];
    forall b | b in BitsOf(next, s)
      ensures b in BitsOf(db.roles, s)
    {
      var r :| r in ServerRoles(next, s) && b in next[r].permissions;
      assert r in ServerRoles(db.roles, s);
    }
  }

  lemma UpdateRoleUnharmed(
    db: Db, s: ServerId, id: RoleId, ctx: MemberContext, patch: RolePatch, m: int)
    requires Bounded(db.members, db.roles, s, m)
    requires s in db.servers && id in db.roles && db.roles[id].server == s && db.roles[id].position < m
    requires !ctx.isOwner && ctx.permissions <= BitsOf(db.roles, s)
    ensures Unharmed(db, db.(roles := db.roles[id := Patched(ctx, db.roles[id], patch)]), s, m)
  {
    var next := db.roles[id := Patched(ctx, db.roles[id], patch)];
    assert ServerRoles(next, s) == ServerRoles(db.roles, s);
    forall b | b in BitsOf(next, s)
      ensures b in BitsOf(db.roles, s)
    {
      var r :| r in ServerRoles(next, s) && b in next[r].permissions;
      if r == id {
        assert b in ctx.permissions;
      }
    }
  }

  lemma DeleteRoleUnharmed(db: Db, s: ServerId, id: RoleId, m: int)
    requires Bounded(db.members, db.roles, s, m)
    requires s in db.servers && id in db.roles && db.roles[id].server == s && db.roles[id].position < m
    ensures Unharmed(db, WithoutRole(db, id), s, m)
  {
  }

  lemma SetMemberRolesUnharmed(
    db: Db, now: Time, actor: AccountId, s: ServerId, target: AccountId, next: set<RoleId>, m: int)
    requires Bounded(db.members, db.roles, s, m)
    requires s in db.servers && SetMemberRoles(db, now, actor, s, target, next).Ok?
    requires !Context(db, s, actor).isOwner && Context(db, s, actor).topPosition <= m
    ensures Unharmed(db, SetMemberRoles(db, now, actor, s, target, next).value, s, m)
  {
    forall r | r in next && r !in db.members[(s, target)].roles
      ensures r in db.roles && db.roles[r].position < m
    {
    }
  }

  /** A complete reorder list contains the role a member's top position comes from. */
  lemma {:induction false} TopRoleListed(db: Db, s: ServerId, a: AccountId, order: seq<RoleId>) returns (i: int)
    requires RolesOk(db.servers, db.roles) && (s, a) in db.members
    requires Elements(order) == NonDefaultRoles(db.roles, s) && TopPosition(db, s, a) > 0
    ensures 0 <= i < |order| && order[i] in db.roles
    ensures db.roles[order[i]].position == TopPosition(db, s, a)
  {
    var held := Held(db.roles, s, db.members[(s, a)].roles);
    var r :| r in held && db.roles[r].position == TopPosition(db, s, a);
    assert r in NonDefaultRoles(db.roles, s);
    assert r in Elements(order);
    i :| 0 <= i < |order| && order[i] == r;
  }

  /**
   A caller who does not own the server gets `reorder_roles` through only when
   there is nothing to reorder. `OnlyTheOwnerMovesRoles` draws the conclusion.
   */
  lemma {:induction false} NonOwnerReorderIsEmpty(db: Db, now: Time, actor: AccountId, s: ServerId, order: seq<RoleId>)
    requires Inv(db) && s in db.servers && db.servers[s].owner != actor
    requires ReorderRoles(db, now, actor, s, order).Ok?
    ensures order == [] && NonDefaultRoles(db.roles, s) == {}
    ensures ReorderRoles(db, now, actor, s, order).value == db
  {
    hide RolesOk, DefaultsOk, AssignmentsOk, ChannelsOk, GrantsOk, RoleLimitOk, ChannelLimitOk, ParticipantsOk;
    var ctx := Context(db, s, actor);
    assert !ctx.isOwner;
    if order != [] {
      assert order[0] in Elements(order);
      assert Outranks(ctx, NewPosition(order, 0));
      var i := TopRoleListed(db, s, actor, order);
    }
  }

  /** Role and roster calls on the server itself. */
  lemma OwnServerStepUnharmed(db: Db, now: Time, op: Op, s: ServerId, m: int)
    requires Inv(db) && s in db.servers && db.servers[s].owner != op.actor
    requires m >= 0 && Bounded(db.members, db.roles, s, m)
    requires op.EditsRoles() && op.server == s && Apply(db, now, op).Ok?
    ensures Unharmed(db, Apply(db, now, op).value, s, m)
  {
    hide Unharmed, Bounded, RosterOk, RolesOk, DefaultsOk, AssignmentsOk, ChannelsOk, GrantsOk, RoleLimitOk,
      ChannelLimitOk, ParticipantsOk;
    GatedCaller(db, now, s, op.actor, MANAGE_ROLES, m);
    match op
    case OpCreateRole(a, _, r, name) =>
      CreateRoleUnharmed(db, s, r, Apply(db, now, op).value.roles[r], m);
    case OpUpdateRole(a, _, r, patch) =>
      UpdateRoleUnharmed(db, s, r, Context(db, s, a), patch, m);
    case OpDeleteRole(a, _, r) =>
      DeleteRoleUnharmed(db, s, r, m);
    case OpReorderRoles(a, _, order) =>
      NonOwnerReorderIsEmpty(db, now, a, s, order);
      SameRolesAndMembers(db, db, s, m);
    case OpSetMemberRoles(a, _, t, next) =>
      SetMemberRolesUnharmed(db, now, a, s, t, next, m);
  }

  /** Role calls on another server. */
  lemma OtherServerRolesSame(db: Db, now: Time, op: Op, s: ServerId)
    requires Inv(db) && op.EditsRoles() && op.server != s && Apply(db, now, op).Ok?
    ensures SameOn(db, Apply(db, now, op).value, s)
  {
    hide Context, Gate, SameOn, RosterOk, RolesOk, DefaultsOk, AssignmentsOk, ChannelsOk, GrantsOk, RoleLimitOk,
      ChannelLimitOk, ParticipantsOk;
    match op {
      case OpCreateRole(_, t, r, _) =>
        RoleWrittenElsewhere(db, s, r, Apply(db, now, op).value.roles[r]);
      case OpUpdateRole(a, t, r, patch) =>
        RoleWrittenElsewhere(db, s, r, Patched(Context(db, t, a), db.roles[r], patch));
      case OpDeleteRole(_, t, r) =>
        RoleDeletedElsewhere(db, s, r);
      case OpReorderRoles(_, t, order) =>
        RolesMovedElsewhere(db, s, t, order);
      case OpSetMemberRoles(_, t, target, next) =>
        MemberWrittenElsewhere(db, s, t, target, db.members[(t, target)].(roles := next));
    }
  }

  lemma RoleWrittenElsewhere(db: Db, s: ServerId, r: RoleId, row: Role)
    requires row.server != s && (r in db.roles ==> db.roles[r].server != s)
    ensures SameOn(db, db.(roles := db.roles[r := row]), s)
  {
  }

  lemma {:induction false} RolesMovedElsewhere(db: Db, s: ServerId, t: ServerId, order: seq<RoleId>)
    requires RolesOk(db.servers, db.roles) && s != t
    requires Distinct(order) && Elements(order) == NonDefaultRoles(db.roles, t)
    ensures SameOn(db, db.(roles := Repositioned(db.roles, order)), s)
  {
    ReorderElsewhere(db.servers, db.roles, s, t, order);
    hide Repositioned, RolesOk;
  }

  lemma MemberWrittenElsewhere(db: Db, s: ServerId, t: ServerId, target: AccountId, row: Member)
    requires s != t
    ensures SameOn(db, db.(members := db.members[(t, target) := row]), s)
  {
  }

  /** An assignment names roles of its own server, so only that server's members lose it. */
  lemma RoleDeletedElsewhere(db: Db, s: ServerId, r: RoleId)
    requires Inv(db) && r in db.roles && db.roles[r].server != s
    ensures SameOn(db, WithoutRole(db, r), s)
  {
    hide RosterOk, RolesOk, DefaultsOk, ChannelsOk, GrantsOk, RoleLimitOk, ChannelLimitOk, ParticipantsOk;
    forall a | (s, a) in db.members
      ensures db.members[(s, a)].roles - {r} == db.members[(s, a)].roles
    {
    }
  }

  lemma OtherServerRolesUnharmed(db: Db, now: Time, op: Op, s: ServerId, m: int)
    requires Inv(db) && s in db.servers && Bounded(db.members, db.roles, s, m)
    requires op.EditsRoles() && op.server != s && Apply(db, now, op).Ok?
    ensures Unharmed(db, Apply(db, now, op).value, s, m)
  {
    hide Unharmed, Bounded, Context, Gate, SameOn, RosterOk, RolesOk, DefaultsOk, AssignmentsOk, ChannelsOk, GrantsOk,
      RoleLimitOk,
      ChannelLimitOk, ParticipantsOk;
    OtherServerRolesSame(db, now, op, s);
    OtherServerChanged(db, Apply(db, now, op).value, s, m);
  }

  lemma {:induction false} ReorderElsewhere(
    servers: map<ServerId, Server>, roles: map<RoleId, Role>, s: ServerId, t: ServerId, order: seq<RoleId>)
    requires RolesOk(servers, roles) && s != t
    requires Distinct(order) && Elements(order) == NonDefaultRoles(roles, t)
    ensures Repositioned(roles, order).Keys == roles.Keys
    ensures forall r :: r in roles ==> Repositioned(roles, order)[r].server == roles[r].server
    ensures forall r :: r in roles && roles[r].server == s ==> Repositioned(roles, order)[r] == roles[r]
  {
    RolesReorder(servers, roles, t, order);
    forall r | r in roles && roles[r].server == s
      ensures Repositioned(roles, order)[r] == roles[r]
    {
      var i := RepositionedRow(roles, t, order, r);
    }
  }

  /** Creating or deleting another server. */
  lemma ServerStepUnharmed(db: Db, now: Time, op: Op, s: ServerId, m: int)
    requires Inv(db) && s in db.servers && db.servers[s].owner != op.actor
    requires Bounded(db.members, db.roles, s, m)
    requires (op.OpCreateServer? || op.OpDeleteServer?) && Apply(db, now, op).Ok?
    ensures Unharmed(db, Apply(db, now, op).value, s, m)
  {
    hide Unharmed, Bounded, RosterOk, RolesOk, DefaultsOk, ChannelsOk, GrantsOk, RoleLimitOk, ChannelLimitOk,
      ParticipantsOk;
    OtherServerChanged(db, Apply(db, now, op).value, s, m);
  }

  /** Roster calls give no role to anyone. */
  lemma RosterStepUnharmed(db: Db, now: Time, op: Op, s: ServerId, m: int)
    requires s in db.servers && Bounded(db.members, db.roles, s, m)
    requires op.EditsRoster() && Apply(db, now, op).Ok?
    ensures Unharmed(db, Apply(db, now, op).value, s, m)
  {
    hide Unharmed, Bounded, Context;
    SameRolesAndMembers(db, Apply(db, now, op).value, s, m);
  }

  lemma ChannelStepUnharmed(db: Db, now: Time, op: Op, s: ServerId, m: int)
    requires s in db.servers && Bounded(db.members, db.roles, s, m)
    requires (op.EditsChannels() || op.OpUpdateServerVisibility?) && Apply(db, now, op).Ok?
    ensures Unharmed(db, Apply(db, now, op).value, s, m)
  {
    hide Unharmed, Bounded, Context;
    SameRolesAndMembers(db, Apply(db, now, op).value, s, m);
  }

  lemma StepUnharmed(db: Db, now: Time, op: Op, s: ServerId, m: int)
    requires Inv(db) && s in db.servers && db.servers[s].owner != op.actor
    requires m >= 0 && Bounded(db.members, db.roles, s, m)
    ensures Unharmed(db, Next(db, now, op), s, m)
  {
    hide Unharmed, Bounded, Inv;
    if Apply(db, now, op).Err? {
      SameRolesAndMembers(db, db, s, m);
    } else if op.EditsRoles() && op.server == s {
      OwnServerStepUnharmed(db, now, op, s, m);
    } else if op.EditsRoles() {
      OtherServerRolesUnharmed(db, now, op, s, m);
    } else if op.OpCreateServer? || op.OpDeleteServer? {
      ServerStepUnharmed(db, now, op, s, m);
    } else if op.EditsRoster() {
      RosterStepUnharmed(db, now, op, s, m);
    } else {
      ChannelStepUnharmed(db, now, op, s, m);
    }
  }

  // ---- every run ----

  ghost predicate NoOwnerCall(calls: seq<Call>, owner: AccountId) {
    forall i :: 0 <= i < |calls| ==> calls[i].op.actor != owner
  }

  /**
   Along any run without a call by the owner of `s`, for every bound `m` on the
   top positions of its other members: the bound keeps holding, a role at `m` or
   above is neither edited, moved, deleted nor newly given to anyone, and the
   server's roles gain no permission bit.
   */
  lemma {:induction false} RunUnharmed(db: Db, calls: seq<Call>, s: ServerId, m: int)
    requires Inv(db) && s in db.servers && NoOwnerCall(calls, db.servers[s].owner)
    requires m >= 0 && Bounded(db.members, db.roles, s, m)
    ensures Unharmed(db, Final(db, calls), s, m)
    decreases calls
  {
    hide Inv;
    if calls == [] {
      SameRolesAndMembers(db, db, s, m);
    } else {
      var next := Next(db, calls[0].now, calls[0].op);
      StepUnharmed(db, calls[0].now, calls[0].op, s, m);
      StepKeepsInv(db, calls[0].now, calls[0].op);
      assert NoOwnerCall(calls[1..], db.servers[s].owner);
      RunUnharmed(next, calls[1..], s, m);
      UnharmedTransitive(db, next, Final(next, calls[1..]), s, m);
    }
  }

  lemma UnharmedTransitive(db: Db, mid: Db, last: Db, s: ServerId, m: int)
    requires Unharmed(db, mid, s, m) && Unharmed(mid, last, s, m)
    ensures Unharmed(db, last, s, m)
  {
  }

  /** The ceiling never rises without the owner, and everything at it or above it stays as it was. */
  lemma {:induction false} CeilingNeverRises(db: Db, calls: seq<Call>, s: ServerId)
    requires Inv(db) && s in db.servers && NoOwnerCall(calls, db.servers[s].owner)
    ensures Ceiling(Final(db, calls), s) <= Ceiling(db, s)
    ensures RolesKeptFrom(db.roles, Final(db, calls).roles, s, Ceiling(db, s))
    ensures NoneNewlyAssigned(db, Final(db, calls), s, Ceiling(db, s))
  {
    CeilingBounds(db, s);
    RunUnharmed(db, calls, s, Ceiling(db, s));
    RunKeepsInv(db, calls, |calls|);
    CeilingIsLeast(Final(db, calls), s, Ceiling(db, s));
  }

  /** Without the owner, no permission bit appears on a server that none of its roles carried. */
  lemma {:induction false} NoBitAppears(db: Db, calls: seq<Call>, s: ServerId)
    requires Inv(db) && s in db.servers && NoOwnerCall(calls, db.servers[s].owner)
    ensures BitsOf(Final(db, calls).roles, s) <= BitsOf(db.roles, s)
  {
    CeilingBounds(db, s);
    RunUnharmed(db, calls, s, Ceiling(db, s));
  }

  /** Every stored mask of every reachable state is within the known bits. */
  lemma {:induction false} StoredBitsKnown(calls: seq<Call>, r: RoleId)
    requires r in Final(EMPTY, calls).roles
    ensures Final(EMPTY, calls).roles[r].permissions <= KNOWN
  {
    ReachableStatesSatisfyInv(calls, |calls|);
  }

  // ---- holders of the highest roles ----

  /** `a` is a member of `s` with role `r`, timed out until `until` if at all. */
  ghost predicate Holds(
    members: map<(ServerId, AccountId), Member>, s: ServerId, a: AccountId, r: RoleId, until: Option<Time>)
  {
    (s, a) in members && r in members[(s, a)].roles && members[(s, a)].timeoutUntil == until
  }

  predicate Leaves(op: Op, s: ServerId, a: AccountId) {
    op.OpLeave? && op.server == s && op.actor == a
  }

  lemma {:induction false} HeldRoleCountsForTop(db: Db, s: ServerId, a: AccountId, r: RoleId)
    requires AssignmentsOk(db.members, db.roles) && (s, a) in db.members && r in db.members[(s, a)].roles
    ensures r in db.roles && db.roles[r].position <= TopPosition(db, s, a)
  {
    assert r in Held(db.roles, s, db.members[(s, a)].roles);
  }

  predicate Targets(op: Op, s: ServerId, a: AccountId) {
    (op.OpKick? || op.OpBan? || op.OpTimeout? || op.OpClearTimeout?) && op.server == s && op.target == a
  }

  function TargetBit(op: Op): Bit {
    if op.OpKick? then KICK else if op.OpBan? then BAN else TIMEOUT_MEMBERS
  }

  /** A roster call leaves every other membership row alone. */
  lemma RosterStepIsAimed(db: Db, now: Time, op: Op, s: ServerId, a: AccountId)
    requires op.EditsRoster() && Apply(db, now, op).Ok? && (s, a) in db.members
    requires !Targets(op, s, a) && !Leaves(op, s, a)
    ensures (s, a) in Apply(db, now, op).value.members
    ensures Apply(db, now, op).value.members[(s, a)] == db.members[(s, a)]
  {
    hide Context, Gate;
  }

  /** Kicks, bans and timeouts stop at the caller's own top position. */
  lemma TargetIsOutranked(db: Db, now: Time, op: Op, s: ServerId, a: AccountId)
    requires Targets(op, s, a) && Apply(db, now, op).Ok?
    ensures (s, op.actor) in db.members && (s, a) in db.members
    ensures Gate(db, now, s, op.actor, TargetBit(op)).Ok?
    ensures Outranks(Context(db, s, op.actor), TopPosition(db, s, a))
  {
    hide Context;
  }

  lemma RosterStepSparesHolder(
    db: Db, now: Time, op: Op, s: ServerId, m: int, a: AccountId, r: RoleId, until: Option<Time>)
    requires Inv(db) && s in db.servers && db.servers[s].owner != op.actor
    requires m >= 0 && Bounded(db.members, db.roles, s, m)
    requires Holds(db.members, s, a, r, until) && r in db.roles && db.roles[r].position >= m
    requires op.EditsRoster() && Apply(db, now, op).Ok? && !Leaves(op, s, a)
    ensures Holds(Apply(db, now, op).value.members, s, a, r, until)
  {
    HeldRoleCountsForTop(db, s, a, r);
    hide Inv, Bounded, Context, Gate, Leaves, Targets, Op.EditsRoster;
    if Targets(op, s, a) {
      TargetIsOutranked(db, now, op, s, a);
      GatedCaller(db, now, s, op.actor, TargetBit(op), m);
    } else {
      RosterStepIsAimed(db, now, op, s, a);
    }
  }

  /** Role calls take nothing at or above the caller's top position from anyone. */
  lemma RoleStepSparesHolder(
    db: Db, now: Time, op: Op, s: ServerId, m: int, a: AccountId, r: RoleId, until: Option<Time>)
    requires Inv(db) && s in db.servers && db.servers[s].owner != op.actor
    requires m >= 0 && Bounded(db.members, db.roles, s, m)
    requires Holds(db.members, s, a, r, until) && r in db.roles && db.roles[r].position >= m && db.roles[r].server == s
    requires op.EditsRoles() && Apply(db, now, op).Ok?
    ensures Holds(Apply(db, now, op).value.members, s, a, r, until)
  {
    hide RosterOk, RolesOk, DefaultsOk, AssignmentsOk, ChannelsOk, GrantsOk, RoleLimitOk, ChannelLimitOk,
      ParticipantsOk,
      Bounded, Context, Gate;
    if op.server == s {
      GatedCaller(db, now, s, op.actor, MANAGE_ROLES, m);
    }
  }

  lemma StepSparesHolder(
    db: Db, now: Time, op: Op, s: ServerId, m: int, a: AccountId, r: RoleId, until: Option<Time>)
    requires Inv(db) && s in db.servers && db.servers[s].owner != op.actor
    requires m >= 0 && Bounded(db.members, db.roles, s, m)
    requires Holds(db.members, s, a, r, until) && r in db.roles && db.roles[r].position >= m && db.roles[r].server == s
    requires !Leaves(op, s, a)
    ensures Holds(Next(db, now, op).members, s, a, r, until)
  {
    hide Inv, Bounded, Leaves, Context, Apply;
    if Apply(db, now, op).Err? {
    } else if op.EditsRoster() {
      RosterStepSparesHolder(db, now, op, s, m, a, r, until);
    } else if op.EditsRoles() {
      RoleStepSparesHolder(db, now, op, s, m, a, r, until);
    } else {
      OtherStepsKeepMembers(db, now, op, s, a);
    }
  }

  /** Channel calls, and server calls by others than the owner of `s`. */
  lemma OtherStepsKeepMembers(db: Db, now: Time, op: Op, s: ServerId, a: AccountId)
    requires s in db.servers && db.servers[s].owner != op.actor && (s, a) in db.members
    requires (op.EditsServers() || op.EditsChannels()) && Apply(db, now, op).Ok?
    ensures (s, a) in Apply(db, now, op).value.members
    ensures Apply(db, now, op).value.members[(s, a)] == db.members[(s, a)]
  {
    hide Context, Gate, RequireChannelAccess;
  }

  /**
   Whoever holds a role at the ceiling cannot be kicked, banned, timed out, pardoned
   or stripped of that role by anyone but the owner, over any run in which it does
   not itself leave.
   */
  lemma {:induction false} HoldersAtTheTopStay(
    db: Db, calls: seq<Call>, s: ServerId, m: int, a: AccountId, r: RoleId, until: Option<Time>)
    requires Inv(db) && s in db.servers && NoOwnerCall(calls, db.servers[s].owner)
    requires m >= 0 && Bounded(db.members, db.roles, s, m)
    requires Holds(db.members, s, a, r, until) && r in db.roles && db.roles[r].position >= m && db.roles[r].server == s
    requires forall i :: 0 <= i < |calls| ==> !Leaves(calls[i].op, s, a)
    ensures Holds(Final(db, calls).members, s, a, r, until)
    decreases calls
  {
    hide Inv, Holds, Bounded, Leaves, RolesKeptFrom, NoneNewlyAssigned;
    if calls != [] {
      var next := Next(db, calls[0].now, calls[0].op);
      StepUnharmed(db, calls[0].now, calls[0].op, s, m);
      StepKeepsInv(db, calls[0].now, calls[0].op);
      StepSparesHolder(db, calls[0].now, calls[0].op, s, m, a, r, until);
      assert r in next.roles && next.roles[r] == db.roles[r] by {
        KeptRole(db.roles, next.roles, s, m, r);
      }
      assert NoOwnerCall(calls[1..], db.servers[s].owner);
      HoldersAtTheTopStay(next, calls[1..], s, m, a, r, until);
    }
  }

  lemma KeptRole(roles: map<RoleId, Role>, next: map<RoleId, Role>, s: ServerId, m: int, r: RoleId)
    requires RolesKeptFrom(roles, next, s, m) && r in roles && roles[r].server == s && roles[r].position >= m
    ensures r in next && next[r] == roles[r]
  {
  }

  // ---- positions ----

  /** A role of `s` that stays keeps its position. */
  ghost predicate PositionsKept(roles: map<RoleId, Role>, next: map<RoleId, Role>, s: ServerId) {
    forall r :: r in roles && roles[r].server == s && r in next ==>
      next[r].server == s && next[r].position == roles[r].position
  }

  /** Calls that are not about roles write no role row. */
  lemma RolesTableKept(db: Db, now: Time, op: Op, s: ServerId)
    requires !op.EditsRoles()
    ensures PositionsKept(db.roles, Next(db, now, op).roles, s)
  {
    if op.EditsRoster() {
      RosterCallsKeepTables(db, now, op);
      hide Apply;
    } else if op.EditsChannels() {
      ChannelCallsKeepTables(db, now, op);
      hide Apply;
    }
  }

  /** Creating, editing, deleting and assigning move no role either. */
  lemma RoleEditsKeepPositions(db: Db, now: Time, op: Op, s: ServerId)
    requires op.EditsRoles() && !op.OpReorderRoles?
    ensures PositionsKept(db.roles, Next(db, now, op).roles, s)
  {
    hide Context, Gate, SetMemberRoles;
    if op.OpSetMemberRoles? {
      AssigningWritesNoRole(db, now, op);
    }
  }

  lemma AssigningWritesNoRole(db: Db, now: Time, op: Op)
    requires op.OpSetMemberRoles?
    ensures Next(db, now, op).roles == db.roles
  {
    hide Context, Gate;
  }

  lemma OwnServerPositions(db: Db, now: Time, op: Op, s: ServerId)
    requires Inv(db) && s in db.servers && db.servers[s].owner != op.actor
    requires op.EditsRoles() && op.server == s && Apply(db, now, op).Ok?
    ensures PositionsKept(db.roles, Apply(db, now, op).value.roles, s)
  {
    hide Inv, Context, Gate, ReorderRoles, UpdateRole, CreateRole, DeleteRole, SetMemberRoles;
    if op.OpReorderRoles? {
      NonOwnerReorderIsEmpty(db, now, op.actor, s, op.order);
    } else {
      RoleEditsKeepPositions(db, now, op, s);
    }
  }

  /** One call by anybody but the owner, of any kind: no role of the server moves. */
  lemma StepKeepsPositions(db: Db, now: Time, op: Op, s: ServerId)
    requires Inv(db) && s in db.servers && db.servers[s].owner != op.actor
    ensures PositionsKept(db.roles, Next(db, now, op).roles, s)
  {
    hide Inv, Apply;
    if Apply(db, now, op).Err? {
    } else if op.EditsRoles() && op.server == s {
      OwnServerPositions(db, now, op, s);
    } else if op.EditsRoles() {
      OtherServerRolesSame(db, now, op, s);
    } else {
      RolesTableKept(db, now, op, s);
    }
  }

  /** Only the owner ever changes a position: along any run without it, a role whose row stays does not move. */
  lemma {:induction false} OnlyTheOwnerMovesRoles(db: Db, calls: seq<Call>, s: ServerId, r: RoleId)
    requires Inv(db) && s in db.servers && NoOwnerCall(calls, db.servers[s].owner)
    requires r in db.roles && db.roles[r].server == s
    requires forall i :: 0 <= i <= |calls| ==> r in Run(db, calls)[i].roles
    ensures Final(db, calls).roles[r].server == s
    ensures Final(db, calls).roles[r].position == db.roles[r].position
    decreases calls
  {
    hide Inv, Next;
    if calls != [] {
      var next := Next(db, calls[0].now, calls[0].op);
      StepKeepsPositions(db, calls[0].now, calls[0].op, s);
      StepKeepsInv(db, calls[0].now, calls[0].op);
      CeilingBounds(db, s) by {
        InvAssignments(db);
      }
      StepUnharmed(db, calls[0].now, calls[0].op, s, Ceiling(db, s));
      assert NoOwnerCall(calls[1..], db.servers[s].owner);
      assert forall i :: 0 <= i <= |calls[1..]| ==> Run(next, calls[1..])[i] == Run(db, calls)[i + 1];
      assert r in next.roles by {
        assert Run(db, calls)[1] == next;
      }
      OnlyTheOwnerMovesRoles(next, calls[1..], s, r);
    }
  }

  lemma InvAssignments(db: Db)
    requires Inv(db)
    ensures AssignmentsOk(db.members, db.roles)
  {
  }
}
