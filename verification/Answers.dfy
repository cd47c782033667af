/**
 What every call answers and does, read off the rows of the tables: no gate, no
 context, no query of the service appears in these definitions.
 */
module Answers {
  import opened Common
  import opened Permissions
  import opened Tables
  import opened Transitions
  import opened Invariants

  // ---- who may do what, by rows ----

  predicate MemberOf(db: Db, s: ServerId, a: AccountId) {
    (s, a) in db.members
  }

  predicate Owns(db: Db, s: ServerId, a: AccountId) {
    (s, a) in db.members && db.members[(s, a)].isOwner
  }

  /** `r` is a role of the server that `a` was given, or the one everybody has. */
  predicate Carries(db: Db, s: ServerId, a: AccountId, r: RoleId) {
    && (s, a) in db.members && r in db.roles && db.roles[r].server == s
    && (db.roles[r].isDefault || r in db.members[(s, a)].roles)
  }

  ghost predicate HasBit(db: Db, s: ServerId, a: AccountId, bit: Bit) {
    exists r :: Carries(db, s, a, r) && bit in db.roles[r].permissions
  }

  ghost predicate May(db: Db, s: ServerId, a: AccountId, bit: Bit) {
    Owns(db, s, a) || HasBit(db, s, a, ADMIN) || HasBit(db, s, a, bit)
  }

  predicate Silenced(db: Db, now: Time, s: ServerId, a: AccountId) {
    (s, a) in db.members && db.members[(s, a)].timeoutUntil.Some? && now < db.members[(s, a)].timeoutUntil.value
  }

  /** The owner is above everything, anybody else above what is lower than one of its roles. */
  ghost predicate Above(db: Db, s: ServerId, a: AccountId, position: int) {
    Owns(db, s, a) || exists r :: Carries(db, s, a, r) && position < db.roles[r].position
  }

  /** One of its roles is higher than every role of the other. */
  ghost predicate AboveMember(db: Db, s: ServerId, a: AccountId, other: AccountId) {
    Owns(db, s, a) ||
    exists r :: Carries(db, s, a, r) &&
                forall q :: Carries(db, s, other, q) ==> db.roles[q].position < db.roles[r].position
  }

  /** Neither the channel nor the channel it is a thread of has been deleted. */
  predicate Stands(db: Db, c: ChannelId) {
    && c in db.channels && !db.channels[c].deleted
    && (db.channels[c].parent.Some? && db.channels[c].parent.value in db.channels ==>
          !db.channels[db.channels[c].parent.value].deleted)
  }

  predicate Closed(db: Db, c: ChannelId)
    requires c in db.channels
  {
    || db.channels[c].restricted
    || (db.channels[c].parent.Some? && db.channels[c].parent.value in db.channels &&
        db.channels[db.channels[c].parent.value].restricted)
  }

  /** Grants hang off the channel itself, or the channel a thread is under. */
  function GrantChannel(db: Db, c: ChannelId): ChannelId
    requires c in db.channels
  {
    if db.channels[c].parent.Some? then db.channels[c].parent.value else c
  }

  /** A role the account carries has the `VIEW_CHANNEL` bit in its mask for channel `g`. */
  ghost predicate Granted(db: Db, s: ServerId, a: AccountId, g: ChannelId) {
    exists r :: Carries(db, s, a, r) && (g, r) in db.grants && VIEW_CHANNEL in db.grants[(g, r)]
  }

  /** Who sees a channel: its participants, or the members, and of a restricted one those a role lets in. */
  ghost predicate Sees(db: Db, a: AccountId, c: ChannelId) {
    && Stands(db, c)
    && match db.channels[c].server
       case None => (c, a) in db.participants
       case Some(s) =>
         && MemberOf(db, s, a)
         && (Closed(db, c) ==>
               Owns(db, s, a) || HasBit(db, s, a, ADMIN) || Granted(db, s, a, GrantChannel(db, c)))
  }

  // ---- the gates say the same ----

  lemma HeldIsCarried(db: Db, s: ServerId, a: AccountId)
    requires MemberOf(db, s, a)
    ensures forall r :: r in Context(db, s, a).roleIds <==> Carries(db, s, a, r)
    ensures Context(db, s, a).isOwner <==> Owns(db, s, a)
    ensures forall b :: b in Context(db, s, a).permissions <==> HasBit(db, s, a, b)
  {
    var ctx := Context(db, s, a);
    forall b
      ensures b in ctx.permissions <==> HasBit(db, s, a, b)
    {
      if HasBit(db, s, a, b) {
        var r :| Carries(db, s, a, r) && b in db.roles[r].permissions;
        assert r in ctx.roleIds;
      }
      if b in ctx.permissions {
        var r :| r in ctx.roleIds && r in db.roles && b in db.roles[r].permissions;
        assert Carries(db, s, a, r);
      }
    }
  }

  ghost function GateAnswer(db: Db, now: Time, s: ServerId, a: AccountId, bit: Bit): Outcome {
    if !MemberOf(db, s, a) then Fail(ServerNotFound)
    else if !May(db, s, a, bit) then Fail(MissingPermission)
    else if Silenced(db, now, s, a) then Fail(MemberTimedOut)
    else Pass
  }

  function Answer<T>(r: Result<T>): Outcome {
    if r.Ok? then Pass else Fail(r.error)
  }

  lemma GateMeans(db: Db, now: Time, s: ServerId, a: AccountId, bit: Bit)
    ensures Answer(Gate(db, now, s, a, bit)) == GateAnswer(db, now, s, a, bit)
  {
    if MemberOf(db, s, a) {
      HeldIsCarried(db, s, a);
    }
    hide Context, HasBit;
  }

  /** Everybody carries the default role, so the highest position is one that somebody's role has. */
  lemma {:induction false} TopIsCarried(db: Db, s: ServerId, a: AccountId) returns (top: RoleId)
    requires Inv(db) && MemberOf(db, s, a)
    ensures Carries(db, s, a, top) && db.roles[top].position == TopPosition(db, s, a)
    ensures forall r :: Carries(db, s, a, r) ==> db.roles[r].position <= TopPosition(db, s, a)
  {
    hide RolesOk, AssignmentsOk, ChannelsOk, GrantsOk, RoleLimitOk, ChannelLimitOk, ParticipantsOk;
    HeldIsCarried(db, s, a);
    var held := Held(db.roles, s, db.members[(s, a)].roles);
    assert HasDefault(db.roles, s);
    var d :| d in db.roles && db.roles[d].server == s && db.roles[d].isDefault;
    assert d in held;
    top :| top in held && db.roles[top].position == MaxPosition(db.roles, held);
  }

  lemma OutranksMeans(db: Db, s: ServerId, a: AccountId, position: int)
    requires Inv(db) && MemberOf(db, s, a)
    ensures Outranks(Context(db, s, a), position) <==> Above(db, s, a, position)
  {
    HeldIsCarried(db, s, a);
    var top := TopIsCarried(db, s, a);
    hide Inv, Carries, HasBit;
  }

  lemma OutranksMemberMeans(db: Db, s: ServerId, a: AccountId, other: AccountId)
    requires Inv(db) && MemberOf(db, s, a) && MemberOf(db, s, other)
    ensures Outranks(Context(db, s, a), TopPosition(db, s, other)) <==> AboveMember(db, s, a, other)
  {
    HeldIsCarried(db, s, a);
    var top := TopIsCarried(db, s, a);
    var his := TopIsCarried(db, s, other);
    hide Inv, Carries, HasBit;
    if AboveMember(db, s, a, other) && !Owns(db, s, a) {
      var r :| Carries(db, s, a, r) &&
            forall q :: Carries(db, s, other, q) ==> db.roles[q].position < db.roles[r].position;
      assert db.roles[his].position < db.roles[r].position;
    }
  }

  /** The access gate is `Sees`, and it has one refusal. */
  lemma AccessMeans(db: Db, a: AccountId, c: ChannelId)
    requires Inv(db)
    ensures RequireChannelAccess(db, a, c).Ok? <==> Sees(db, a, c)
    ensures RequireChannelAccess(db, a, c).Err? ==> RequireChannelAccess(db, a, c).error == ChannelNotFound
  {
    hide RosterOk, RolesOk, DefaultsOk, AssignmentsOk, GrantsOk, RoleLimitOk, ChannelLimitOk;
    if c in db.channels {
      assert ChannelOk(db.servers, db.channels, c);
      var row := db.channels[c];
      if row.server.Some? && MemberOf(db, row.server.value, a) {
        HeldIsCarried(db, row.server.value, a);
        GrantedMeans(db, row.server.value, a, GrantChannel(db, c));
      }
    }
    hide Inv, Context, HasBit, Granted, Carries, MemberCanView, Owns;
  }

  lemma GrantedMeans(db: Db, s: ServerId, a: AccountId, g: ChannelId)
    requires MemberOf(db, s, a)
    ensures MemberCanView(db, s, a, g) <==> Owns(db, s, a) || HasBit(db, s, a, ADMIN) || Granted(db, s, a, g)
  {
    HeldIsCarried(db, s, a);
    hide Context, Carries, HasBit, Owns;
  }

  // ---- what each call answers ----

  ghost function TargetAnswer(db: Db, s: ServerId, a: AccountId, target: AccountId): Outcome {
    if !MemberOf(db, s, target) then Fail(AccountNotFound)
    else if Owns(db, s, target) then Fail(CannotActOnOwner)
    else if !AboveMember(db, s, a, target) then Fail(InsufficientHierarchy)
    else Pass
  }

  predicate RoleOf(db: Db, s: ServerId, r: RoleId) {
    r in db.roles && db.roles[r].server == s
  }

  predicate ChannelOf(db: Db, s: ServerId, c: ChannelId) {
    c in db.channels && db.channels[c].server == Some(s) && !db.channels[c].deleted
  }

  /** The order names every role of the server but the default one, and none twice. */
  ghost predicate OrdersAll(db: Db, s: ServerId, order: seq<RoleId>) {
    && (forall i, j :: 0 <= i < j < |order| ==> order[i] != order[j])
    && (forall r :: r in order <==> RoleOf(db, s, r) && !db.roles[r].isDefault)
  }

  /** Every role is below the caller where it is, and where it would be. */
  ghost predicate MayReorder(db: Db, s: ServerId, a: AccountId, order: seq<RoleId>) {
    forall i :: 0 <= i < |order| && order[i] in db.roles ==>
      Above(db, s, a, db.roles[order[i]].position) && Above(db, s, a, |order| - i)
  }

  /** `r` is given or taken when the member's roles become `next`. */
  predicate Changes(db: Db, s: ServerId, target: AccountId, next: set<RoleId>, r: RoleId) {
    MemberOf(db, s, target) && (r in next <==> r !in db.members[(s, target)].roles)
  }

  predicate Below(v: Visibility, w: Visibility) {
    v == w || v == Private || w == Public
  }

  ghost function JoinAnswer(db: Db, a: AccountId, s: ServerId): Outcome {
    if s !in db.servers then Fail(InvalidInvite)
    else if MemberOf(db, s, a) then Fail(AlreadyMember)
    else if (s, a) in db.bans then Fail(Banned)
    else Pass
  }

  ghost function LeaveAnswer(db: Db, a: AccountId, s: ServerId): Outcome {
    if !MemberOf(db, s, a) then Fail(ServerNotFound)
    else if Owns(db, s, a) then Fail(OwnerCannotLeave)
    else Pass
  }

  ghost function KickAnswer(db: Db, now: Time, a: AccountId, s: ServerId, t: AccountId): Outcome {
    var gate := GateAnswer(db, now, s, a, KICK);
    if a == t then Fail(CannotActOnSelf)
    else if gate.Fail? then gate
    else TargetAnswer(db, s, a, t)
  }

  ghost function BanAnswer(db: Db, now: Time, a: AccountId, s: ServerId, t: AccountId): Outcome {
    var gate := GateAnswer(db, now, s, a, BAN);
    if a == t then Fail(CannotActOnSelf)
    else if gate.Fail? then gate
    else if (s, t) in db.bans then Fail(AlreadyBanned)
    else TargetAnswer(db, s, a, t)
  }

  ghost function UnbanAnswer(db: Db, now: Time, a: AccountId, s: ServerId, t: AccountId): Outcome {
    var gate := GateAnswer(db, now, s, a, BAN);
    if gate.Fail? then gate
    else if (s, t) !in db.bans then Fail(AccountNotFound)
    else Pass
  }

  ghost function TimeoutAnswer(db: Db, now: Time, a: AccountId, s: ServerId, t: AccountId, until: Time): Outcome {
    var gate := GateAnswer(db, now, s, a, TIMEOUT_MEMBERS);
    if a == t then Fail(CannotActOnSelf)
    else if until <= now then Fail(Validation)
    else if gate.Fail? then gate
    else TargetAnswer(db, s, a, t)
  }

  ghost function ClearTimeoutAnswer(db: Db, now: Time, a: AccountId, s: ServerId, t: AccountId): Outcome {
    var gate := GateAnswer(db, now, s, a, TIMEOUT_MEMBERS);
    if gate.Fail? then gate
    else if !MemberOf(db, s, t) then Fail(AccountNotFound)
    else if !AboveMember(db, s, a, t) then Fail(InsufficientHierarchy)
    else Pass
  }

  ghost function CreateRoleAnswer(db: Db, now: Time, a: AccountId, s: ServerId, r: RoleId): Outcome {
    var gate := GateAnswer(db, now, s, a, MANAGE_ROLES);
    if gate.Fail? then gate
    else if |set q | q in db.roles && db.roles[q].server == s| >= 250 then Fail(RoleLimitReached)
    else if r in db.roles then Fail(Conflict)
    else Pass
  }

  ghost function UpdateRoleAnswer(db: Db, now: Time, a: AccountId, s: ServerId, r: RoleId, patch: RolePatch): Outcome {
    var gate := GateAnswer(db, now, s, a, MANAGE_ROLES);
    if gate.Fail? then gate
    else if !RoleOf(db, s, r) then Fail(RoleNotFound)
    else if db.roles[r].isDefault && (patch.name.Some? || patch.color.Some? || patch.mentionable.Some?)
    then Fail(CannotModifyDefaultRole)
    else if db.roles[r].isDefault && !May(db, s, a, ADMIN) then Fail(MissingPermission)
    else if !Above(db, s, a, db.roles[r].position) then Fail(InsufficientHierarchy)
    else Pass
  }

  ghost function DeleteRoleAnswer(db: Db, now: Time, a: AccountId, s: ServerId, r: RoleId): Outcome {
    var gate := GateAnswer(db, now, s, a, MANAGE_ROLES);
    if gate.Fail? then gate
    else if !RoleOf(db, s, r) then Fail(RoleNotFound)
    else if db.roles[r].isDefault then Fail(CannotModifyDefaultRole)
    else if !Above(db, s, a, db.roles[r].position) then Fail(InsufficientHierarchy)
    else Pass
  }

  ghost function ReorderAnswer(db: Db, now: Time, a: AccountId, s: ServerId, order: seq<RoleId>): Outcome {
    var gate := GateAnswer(db, now, s, a, MANAGE_ROLES);
    if gate.Fail? then gate
    else if !OrdersAll(db, s, order) then Fail(Validation)
    else if !MayReorder(db, s, a, order) then Fail(InsufficientHierarchy)
    else Pass
  }

  ghost function SetRolesAnswer(
    db: Db, now: Time, a: AccountId, s: ServerId, t: AccountId, next: set<RoleId>): Outcome
  {
    var gate := GateAnswer(db, now, s, a, MANAGE_ROLES);
    if gate.Fail? then gate
    else if !MemberOf(db, s, t) then Fail(AccountNotFound)
    else if exists r :: r in next && !RoleOf(db, s, r) then Fail(RoleNotFound)
    else if exists r :: r in next && RoleOf(db, s, r) && db.roles[r].isDefault then Fail(CannotModifyDefaultRole)
    else if exists r :: RoleOf(db, s, r) && Changes(db, s, t, next, r) && !Above(db, s, a, db.roles[r].position)
    then Fail(InsufficientHierarchy)
    else Pass
  }

  ghost function CreateChannelAnswer(db: Db, now: Time, a: AccountId, s: ServerId, c: ChannelId, kind: Kind): Outcome {
    var gate := GateAnswer(db, now, s, a, MANAGE_CHANNELS);
    if gate.Fail? then gate
    else if kind != Text && kind != Voice then Fail(Validation)
    else if |set d | d in db.channels && ChannelOf(db, s, d) && db.channels[d].kind != Thread| >= 500
    then Fail(ChannelLimitReached)
    else if c in db.channels then Fail(Conflict)
    else Pass
  }

  ghost function CreateThreadAnswer(db: Db, now: Time, a: AccountId, p: ChannelId, c: ChannelId): Outcome {
    if !Sees(db, a, p) then Fail(ChannelNotFound)
    else if db.channels[p].kind != Text && db.channels[p].kind != Voice then Fail(Validation)
    else if exists s :: db.channels[p].server == Some(s) && Silenced(db, now, s, a) then Fail(MemberTimedOut)
    else if c in db.channels then Fail(Conflict)
    else Pass
  }

  ghost function DeleteChannelAnswer(db: Db, now: Time, a: AccountId, s: ServerId, c: ChannelId): Outcome {
    var gate := GateAnswer(db, now, s, a, MANAGE_CHANNELS);
    if gate.Fail? then gate
    else if !ChannelOf(db, s, c) || !Sees(db, a, c) then Fail(ChannelNotFound)
    else Pass
  }

  ghost function VisibilityAnswer(
    db: Db, now: Time, a: AccountId, s: ServerId, c: ChannelId, v: Option<Visibility>): Outcome
  {
    var gate := GateAnswer(db, now, s, a, MANAGE_VISIBILITY);
    if gate.Fail? then gate
    else if s in db.servers && v.Some? && !Below(v.value, db.servers[s].visibility) then Fail(Validation)
    else if !ChannelOf(db, s, c) then Fail(ChannelNotFound)
    else Pass
  }

  ghost function RestrictedAnswer(db: Db, now: Time, a: AccountId, s: ServerId, c: ChannelId): Outcome {
    var gate := GateAnswer(db, now, s, a, MANAGE_CHANNELS);
    if gate.Fail? then gate
    else if !Stands(db, c) then Fail(ChannelNotFound)
    else if db.channels[c].kind == Thread then Fail(Validation)
    else if db.channels[c].server != Some(s) then Fail(ChannelNotFound)
    else Pass
  }

  ghost function GrantAnswer(db: Db, now: Time, a: AccountId, s: ServerId, c: ChannelId, r: RoleId): Outcome {
    var channel := RestrictedAnswer(db, now, a, s, c);
    if channel.Fail? then channel
    else if !RoleOf(db, s, r) then Fail(RoleNotFound)
    else Pass
  }

  ghost function OwnerAnswer(db: Db, a: AccountId, s: ServerId): Outcome {
    if !MemberOf(db, s, a) then Fail(ServerNotFound)
    else if !Owns(db, s, a) then Fail(MissingPermission)
    else Pass
  }

  ghost function Expected(db: Db, now: Time, op: Op): Outcome {
    match op
    case OpCreateServer(_, s, r, _) => if s in db.servers || r in db.roles then Fail(Conflict) else Pass
    case OpDeleteServer(a, s) => OwnerAnswer(db, a, s)
    case OpUpdateServerVisibility(a, s, _) => OwnerAnswer(db, a, s)
    case OpJoin(a, s) => JoinAnswer(db, a, s)
    case OpLeave(a, s) => LeaveAnswer(db, a, s)
    case OpKick(a, s, t) => KickAnswer(db, now, a, s, t)
    case OpBan(a, s, t) => BanAnswer(db, now, a, s, t)
    case OpUnban(a, s, t) => UnbanAnswer(db, now, a, s, t)
    case OpTimeout(a, s, t, until) => TimeoutAnswer(db, now, a, s, t, until)
    case OpClearTimeout(a, s, t) => ClearTimeoutAnswer(db, now, a, s, t)
    case OpCreateRole(a, s, r, _) => CreateRoleAnswer(db, now, a, s, r)
    case OpUpdateRole(a, s, r, patch) => UpdateRoleAnswer(db, now, a, s, r, patch)
    case OpDeleteRole(a, s, r) => DeleteRoleAnswer(db, now, a, s, r)
    case OpReorderRoles(a, s, order) => ReorderAnswer(db, now, a, s, order)
    case OpSetMemberRoles(a, s, t, next) => SetRolesAnswer(db, now, a, s, t, next)
    case OpCreateChannel(a, s, c, kind) => CreateChannelAnswer(db, now, a, s, c, kind)
    case OpCreateThread(a, p, c, _) => CreateThreadAnswer(db, now, a, p, c)
    case OpDeleteChannel(a, s, c) => DeleteChannelAnswer(db, now, a, s, c)
    case OpUpdateChannelVisibility(a, s, c, v) => VisibilityAnswer(db, now, a, s, c, v)
    case OpUpdateChannelRestricted(a, s, c, _) => RestrictedAnswer(db, now, a, s, c)
    case OpSetChannelRolePermission(a, s, c, r, _) => GrantAnswer(db, now, a, s, c, r)
    case OpOpenDm(_, c, _) => if c in db.channels then Fail(Conflict) else Pass
  }

  lemma TargetMeans(db: Db, s: ServerId, a: AccountId, target: AccountId)
    requires Inv(db) && MemberOf(db, s, a)
    ensures Targetable(db, Context(db, s, a), s, target) == TargetAnswer(db, s, a, target)
  {
    if MemberOf(db, s, target) {
      OutranksMemberMeans(db, s, a, target);
    }
    hide Inv, Context, Outranks, AboveMember;
  }

  lemma {:induction false} OrderMeans(db: Db, s: ServerId, order: seq<RoleId>)
    ensures OrdersAll(db, s, order) <==> Distinct(order) && Elements(order) == NonDefaultRoles(db.roles, s)
  {
    if OrdersAll(db, s, order) {
      forall r
        ensures r in Elements(order) <==> r in NonDefaultRoles(db.roles, s)
      {
      }
    }
    if Distinct(order) && Elements(order) == NonDefaultRoles(db.roles, s) {
      forall r
        ensures r in order <==> RoleOf(db, s, r) && !db.roles[r].isDefault
      {
        assert r in order <==> r in Elements(order);
      }
    }
  }

  lemma {:induction false} ReorderMeans(db: Db, s: ServerId, a: AccountId, order: seq<RoleId>)
    requires Inv(db) && MemberOf(db, s, a)
    ensures MayReorder(db, s, a, order) <==>
              forall i :: 0 <= i < |order| && order[i] in db.roles ==>
                Outranks(Context(db, s, a), db.roles[order[i]].position) &&
                Outranks(Context(db, s, a), NewPosition(order, i))
  {
    forall i | 0 <= i < |order| && order[i] in db.roles
      ensures Above(db, s, a, db.roles[order[i]].position) <==>
                Outranks(Context(db, s, a), db.roles[order[i]].position)
      ensures Above(db, s, a, |order| - i) <==> Outranks(Context(db, s, a), NewPosition(order, i))
    {
      OutranksMeans(db, s, a, db.roles[order[i]].position);
      OutranksMeans(db, s, a, |order| - i);
    }
    hide Inv, Above, Outranks, Context;
  }

  lemma ServersExist(db: Db)
    requires Inv(db)
    ensures forall s, a :: MemberOf(db, s, a) ==> s in db.servers
  {
  }

  /** A channel of a server hangs off a channel of the same one, if off any. */
  lemma ChannelRow(db: Db, c: ChannelId)
    requires Inv(db) && c in db.channels
    ensures ChannelOk(db.servers, db.channels, c)
  {
    hide RosterOk, RolesOk, DefaultsOk, AssignmentsOk, GrantsOk, RoleLimitOk, ChannelLimitOk, ParticipantsOk, ChannelOk;
  }

  lemma CountMeans(db: Db, s: ServerId)
    requires Inv(db)
    ensures CountedChannels(db.channels, s) ==
            set d | d in db.channels && ChannelOf(db, s, d) && db.channels[d].kind != Thread
  {
    forall d | d in db.channels
      ensures db.channels[d].server == Some(s) ==> IsServerKind(db.channels[d].kind)
    {
      ChannelRow(db, d);
    }
    hide Inv;
  }

  lemma ServerAnswers(db: Db, a: AccountId, s: ServerId)
    requires Inv(db)
    ensures forall v :: Answer(UpdateServerVisibility(db, a, s, v)) == OwnerAnswer(db, a, s)
    ensures Answer(DeleteServer(db, a, s)) == OwnerAnswer(db, a, s)
  {
    hide DefaultsOk, AssignmentsOk, ChannelsOk, GrantsOk, RoleLimitOk, ChannelLimitOk, ParticipantsOk, RolesOk;
    ServersExist(db);
  }

  lemma KickAnswers(db: Db, now: Time, a: AccountId, s: ServerId, t: AccountId)
    requires Inv(db)
    ensures Answer(KickMember(db, now, a, s, t)) == KickAnswer(db, now, a, s, t)
  {
    hide Inv, Context, AboveMember, Gate, GateAnswer, Outranks, TopPosition;
    GateMeans(db, now, s, a, KICK);
    if MemberOf(db, s, a) {
      TargetMeans(db, s, a, t);
    }
  }

  lemma BanAnswers(db: Db, now: Time, a: AccountId, s: ServerId, t: AccountId)
    requires Inv(db)
    ensures Answer(BanMember(db, now, a, s, t)) == BanAnswer(db, now, a, s, t)
  {
    hide Inv, Context, AboveMember, Gate, GateAnswer, Outranks, TopPosition;
    GateMeans(db, now, s, a, BAN);
    if MemberOf(db, s, a) {
      TargetMeans(db, s, a, t);
    }
  }

  lemma UnbanAnswers(db: Db, now: Time, a: AccountId, s: ServerId, t: AccountId)
    ensures Answer(UnbanMember(db, now, a, s, t)) == UnbanAnswer(db, now, a, s, t)
  {
    hide Gate, GateAnswer;
    GateMeans(db, now, s, a, BAN);
  }

  lemma TimeoutAnswers(db: Db, now: Time, a: AccountId, s: ServerId, t: AccountId, until: Time)
    requires Inv(db)
    ensures Answer(TimeoutMember(db, now, a, s, t, until)) == TimeoutAnswer(db, now, a, s, t, until)
  {
    hide Inv, Context, AboveMember, Gate, GateAnswer, Outranks, TopPosition;
    GateMeans(db, now, s, a, TIMEOUT_MEMBERS);
    if MemberOf(db, s, a) {
      TargetMeans(db, s, a, t);
    }
  }

  lemma ClearTimeoutAnswers(db: Db, now: Time, a: AccountId, s: ServerId, t: AccountId)
    requires Inv(db)
    ensures Answer(ClearTimeout(db, now, a, s, t)) == ClearTimeoutAnswer(db, now, a, s, t)
  {
    hide Inv, Context, AboveMember, Gate, GateAnswer, Outranks, TopPosition;
    GateMeans(db, now, s, a, TIMEOUT_MEMBERS);
    if MemberOf(db, s, a) && MemberOf(db, s, t) {
      OutranksMemberMeans(db, s, a, t);
    }
  }

  lemma CreateRoleAnswers(db: Db, now: Time, a: AccountId, s: ServerId, r: RoleId, name: string)
    ensures Answer(CreateRole(db, now, a, s, r, name)) == CreateRoleAnswer(db, now, a, s, r)
  {
    assert ServerRoles(db.roles, s) == set q | q in db.roles && db.roles[q].server == s;
    hide Context, Gate, GateAnswer, ServerRoles;
    GateMeans(db, now, s, a, MANAGE_ROLES);
  }

  lemma UpdateRoleAnswers(db: Db, now: Time, a: AccountId, s: ServerId, r: RoleId, patch: RolePatch)
    requires Inv(db)
    ensures Answer(UpdateRole(db, now, a, s, r, patch)) == UpdateRoleAnswer(db, now, a, s, r, patch)
  {
    GateMeans(db, now, s, a, MANAGE_ROLES);
    hide Inv, Carries, HasBit, Above, Patched;
    if MemberOf(db, s, a) {
      HeldIsCarried(db, s, a);
      if r in db.roles {
        OutranksMeans(db, s, a, db.roles[r].position);
      }
    }
    hide Inv, Context, Outranks, Above, Gate, GateAnswer, HasBit, Owns, Patched;
  }

  lemma DeleteRoleAnswers(db: Db, now: Time, a: AccountId, s: ServerId, r: RoleId)
    requires Inv(db)
    ensures Answer(DeleteRole(db, now, a, s, r)) == DeleteRoleAnswer(db, now, a, s, r)
  {
    hide Inv, Context, Outranks, Above, Gate, GateAnswer, HasBit, Owns;
    GateMeans(db, now, s, a, MANAGE_ROLES);
    if MemberOf(db, s, a) && r in db.roles {
      OutranksMeans(db, s, a, db.roles[r].position);
    }
  }

  lemma {:induction false} ReorderAnswers(db: Db, now: Time, a: AccountId, s: ServerId, order: seq<RoleId>)
    requires Inv(db)
    ensures Answer(ReorderRoles(db, now, a, s, order)) == ReorderAnswer(db, now, a, s, order)
  {
    hide Inv, Context, Outranks, Above, Gate, GateAnswer, OrdersAll, MayReorder, Distinct, Elements, NonDefaultRoles;
    GateMeans(db, now, s, a, MANAGE_ROLES);
    OrderMeans(db, s, order);
    if MemberOf(db, s, a) {
      ReorderMeans(db, s, a, order);
    }
  }

  lemma ChangeMeans(db: Db, s: ServerId, a: AccountId, t: AccountId, next: set<RoleId>, touched: set<RoleId>)
    requires Inv(db) && MemberOf(db, s, a) && MemberOf(db, s, t)
    requires forall r :: r in next ==> RoleOf(db, s, r)
    requires touched == (db.members[(s, t)].roles - next) + (next - db.members[(s, t)].roles)
    ensures forall r :: r in next + touched ==> RoleOf(db, s, r)
    ensures (forall r :: r in touched ==> RoleOf(db, s, r) && !db.roles[r].isDefault) <==>
              !exists r :: r in next && RoleOf(db, s, r) && db.roles[r].isDefault
    ensures (forall r :: r in touched ==> RoleOf(db, s, r) && Outranks(Context(db, s, a), db.roles[r].position)) <==>
              !exists r :: RoleOf(db, s, r) && Changes(db, s, t, next, r) && !Above(db, s, a, db.roles[r].position)
  {
    hide Inv, Context, Outranks, Above;
    AssignedRoles(db, s, t);
    forall r | r in db.roles
      ensures Above(db, s, a, db.roles[r].position) <==> Outranks(Context(db, s, a), db.roles[r].position)
    {
      OutranksMeans(db, s, a, db.roles[r].position);
    }
    assert forall r :: r in touched <==> Changes(db, s, t, next, r);
  }

  lemma SetRolesAnswers(
    db: Db, now: Time, a: AccountId, s: ServerId, t: AccountId, next: set<RoleId>)
    requires Inv(db)
    ensures Answer(SetMemberRoles(db, now, a, s, t, next)) == SetRolesAnswer(db, now, a, s, t, next)
  {
    hide Inv, Context, Outranks, Above, Gate, GateAnswer, Changes;
    GateMeans(db, now, s, a, MANAGE_ROLES);
    if MemberOf(db, s, a) && MemberOf(db, s, t) && forall r :: r in next ==> RoleOf(db, s, r) {
      var current := db.members[(s, t)].roles;
      ChangeMeans(db, s, a, t, next, (current - next) + (next - current));
    }
  }

  lemma AssignedRoles(db: Db, s: ServerId, t: AccountId)
    requires Inv(db) && MemberOf(db, s, t)
    ensures forall r :: r in db.members[(s, t)].roles ==> RoleOf(db, s, r) && !db.roles[r].isDefault
  {
  }

  lemma CreateChannelAnswers(db: Db, now: Time, a: AccountId, s: ServerId, c: ChannelId, kind: Kind)
    requires Inv(db)
    ensures Answer(CreateChannel(db, now, a, s, c, kind)) == CreateChannelAnswer(db, now, a, s, c, kind)
  {
    hide Inv, Context, Gate, GateAnswer, CountedChannels;
    GateMeans(db, now, s, a, MANAGE_CHANNELS);
    CountMeans(db, s);
  }

  lemma CreateThreadAnswers(db: Db, now: Time, a: AccountId, p: ChannelId, c: ChannelId, slug: string)
    requires Inv(db)
    ensures Answer(CreateThread(db, now, a, p, c, slug)) == CreateThreadAnswer(db, now, a, p, c)
  {
    hide Inv, HasBit, Granted, MemberCanView;
    AccessMeans(db, a, p);
    if p in db.channels {
      ChannelRow(db, p);
    }
  }

  lemma SeenStands(db: Db, a: AccountId, c: ChannelId)
    ensures Sees(db, a, c) ==> Stands(db, c)
  {
    hide HasBit, Granted;
  }

  lemma DeleteChannelAnswers(db: Db, now: Time, a: AccountId, s: ServerId, c: ChannelId)
    requires Inv(db)
    ensures Answer(DeleteChannel(db, now, a, s, c)) == DeleteChannelAnswer(db, now, a, s, c)
  {
    hide Inv, Gate, May, RequireChannelAccess, Sees;
    SeenStands(db, a, c);
    GateMeans(db, now, s, a, MANAGE_CHANNELS);
    AccessMeans(db, a, c);
    ServersExist(db);
    if c in db.channels {
      ChannelRow(db, c);
    }
  }

  lemma VisibilityAnswers(db: Db, now: Time, a: AccountId, s: ServerId, c: ChannelId, v: Option<Visibility>)
    requires Inv(db)
    ensures Answer(UpdateChannelVisibility(db, now, a, s, c, v)) == VisibilityAnswer(db, now, a, s, c, v)
  {
    hide Inv, Gate, May;
    GateMeans(db, now, s, a, MANAGE_VISIBILITY);
    ServersExist(db);
  }

  lemma RestrictedAnswers(db: Db, now: Time, a: AccountId, s: ServerId, c: ChannelId, restricted: bool)
    ensures Answer(UpdateChannelRestricted(db, now, a, s, c, restricted)) == RestrictedAnswer(db, now, a, s, c)
  {
    hide Gate, GateAnswer;
    GateMeans(db, now, s, a, MANAGE_CHANNELS);
  }

  lemma GrantAnswers(db: Db, now: Time, a: AccountId, s: ServerId, c: ChannelId, r: RoleId, bits: Mask)
    ensures Answer(SetChannelRolePermission(db, now, a, s, c, r, bits)) == GrantAnswer(db, now, a, s, c, r)
  {
    hide Gate, GateAnswer;
    GateMeans(db, now, s, a, MANAGE_CHANNELS);
  }

  lemma PeopleAnswers(db: Db, now: Time, op: Op)
    requires Inv(db) && (op.EditsRoster() || op.EditsServers())
    ensures Answer(Apply(db, now, op)) == Expected(db, now, op)
  {
    hide Inv, BanAnswer, ClearTimeoutAnswer, CreateChannelAnswer, CreateRoleAnswer, CreateThreadAnswer,
      DeleteChannelAnswer, DeleteRoleAnswer, GrantAnswer, KickAnswer, OwnerAnswer, ReorderAnswer, RestrictedAnswer,
      SetRolesAnswer, TimeoutAnswer, UnbanAnswer, UpdateRoleAnswer, VisibilityAnswer;
    hide DeleteServer, UpdateServerVisibility, KickMember, BanMember, UnbanMember, TimeoutMember, ClearTimeout,
      CreateRole, UpdateRole, DeleteRole, ReorderRoles, SetMemberRoles, CreateChannel, CreateThread, DeleteChannel,
      UpdateChannelVisibility, UpdateChannelRestricted, SetChannelRolePermission;
    match op {
      case OpCreateServer(_, s, r, _) =>
      case OpDeleteServer(a, s) => ServerAnswers(db, a, s);
      case OpUpdateServerVisibility(a, s, _) => ServerAnswers(db, a, s);
      case OpJoin(a, s) =>
      case OpLeave(a, s) =>
      case OpKick(a, s, t) => KickAnswers(db, now, a, s, t);
      case OpBan(a, s, t) => BanAnswers(db, now, a, s, t);
      case OpUnban(a, s, t) => UnbanAnswers(db, now, a, s, t);
      case OpTimeout(a, s, t, until) => TimeoutAnswers(db, now, a, s, t, until);
      case OpClearTimeout(a, s, t) => ClearTimeoutAnswers(db, now, a, s, t);
    }
  }

  lemma ThingAnswers(db: Db, now: Time, op: Op)
    requires Inv(db) && (op.EditsRoles() || op.EditsChannels())
    ensures Answer(Apply(db, now, op)) == Expected(db, now, op)
  {
    hide Inv, BanAnswer, ClearTimeoutAnswer, CreateChannelAnswer, CreateRoleAnswer, CreateThreadAnswer,
      DeleteChannelAnswer, DeleteRoleAnswer, GrantAnswer, KickAnswer, OwnerAnswer, ReorderAnswer, RestrictedAnswer,
      SetRolesAnswer, TimeoutAnswer, UnbanAnswer, UpdateRoleAnswer, VisibilityAnswer;
    hide DeleteServer, UpdateServerVisibility, KickMember, BanMember, UnbanMember, TimeoutMember, ClearTimeout,
      CreateRole, UpdateRole, DeleteRole, ReorderRoles, SetMemberRoles, CreateChannel, CreateThread, DeleteChannel,
      UpdateChannelVisibility, UpdateChannelRestricted, SetChannelRolePermission;
    match op {
      case OpCreateRole(a, s, r, _) => CreateRoleAnswers(db, now, a, s, r, op.name);
      case OpUpdateRole(a, s, r, patch) => UpdateRoleAnswers(db, now, a, s, r, patch);
      case OpDeleteRole(a, s, r) => DeleteRoleAnswers(db, now, a, s, r);
      case OpReorderRoles(a, s, order) => ReorderAnswers(db, now, a, s, order);
      case OpSetMemberRoles(a, s, t, next) => SetRolesAnswers(db, now, a, s, t, next);
      case OpCreateChannel(a, s, c, kind) => CreateChannelAnswers(db, now, a, s, c, kind);
      case OpCreateThread(a, p, c, _) => CreateThreadAnswers(db, now, a, p, c, op.slug);
      case OpDeleteChannel(a, s, c) => DeleteChannelAnswers(db, now, a, s, c);
      case OpUpdateChannelVisibility(a, s, c, v) => VisibilityAnswers(db, now, a, s, c, v);
      case OpUpdateChannelRestricted(a, s, c, _) => RestrictedAnswers(db, now, a, s, c, op.restricted);
      case OpSetChannelRolePermission(a, s, c, r, _) => GrantAnswers(db, now, a, s, c, r, op.bits);
      case OpOpenDm(_, c, _) =>
    }
  }

  /** Every call answers as the rows say, errors and their order included, in every state that keeps the invariant. */
  lemma AnswersAsExpected(db: Db, now: Time, op: Op)
    requires Inv(db)
    ensures Answer(Apply(db, now, op)) == Expected(db, now, op)
  {
    hide Inv, Apply, Expected;
    if op.EditsRoster() || op.EditsServers() {
      PeopleAnswers(db, now, op);
    } else {
      ThingAnswers(db, now, op);
    }
  }
}
