/**
 Every operation of the domain service that writes the modelled tables, as a
 function from the tables before to the tables after, and runs of them. A failed
 call writes nothing. New ids come from outside and are refused if taken.
 */
module Transitions {
  import opened Common
  import opened Permissions
  import opened Tables

  // ---- gates ----

  ghost function MemberContextOf(db: Db, s: ServerId, a: AccountId): Result<MemberContext> {
    if (s, a) in db.members then Ok(Context(db, s, a)) else Err(ServerNotFound)
  }

  /** Owner and `ADMIN` bypass the bit, never the hierarchy. */
  ghost function RequirePermission(db: Db, s: ServerId, a: AccountId, bit: Bit): Result<MemberContext> {
    var ctx :- MemberContextOf(db, s, a);
    :- Need(ctx.Bypasses() || bit in ctx.permissions, MissingPermission);
    Ok(ctx)
  }

  predicate TimedOut(member: Member, now: Time) {
    member.timeoutUntil.Some? && member.timeoutUntil.value > now
  }

  /** `require_permission` followed by `require_not_timed_out`. */
  ghost function Gate(db: Db, now: Time, s: ServerId, a: AccountId, bit: Bit): (ctx: Result<MemberContext>)
    ensures ctx.Ok? ==> (s, a) in db.members && ctx.value == Context(db, s, a)
  {
    var ctx :- RequirePermission(db, s, a, bit);
    :- Need(!TimedOut(db.members[(s, a)], now), MemberTimedOut);
    Ok(ctx)
  }

  predicate Outranks(ctx: MemberContext, position: int) {
    ctx.isOwner || position < ctx.topPosition
  }

  // ---- servers and roster ----

  function CreateServer(db: Db, actor: AccountId, s: ServerId, everyone: RoleId, v: Visibility): Result<Db> {
    if s in db.servers || everyone in db.roles then Err(Conflict)
    else
      Ok(db.(servers := db.servers[s := Server(actor, v)],
             members := db.members[(s, actor) := Member(true, {}, None)],
             roles := db.roles[everyone := Role(s, "everyone", None, {}, 0, true, false)]))
  }

  /** One `DELETE` on the server row; every dependent row cascades from it. */
  function WithoutServer(db: Db, s: ServerId): Db {
    Db(db.servers - {s},
       map k | k in db.members && k.0 != s :: db.members[k],
       map r | r in db.roles && db.roles[r].server != s :: db.roles[r],
       set k | k in db.bans && k.0 != s,
       map c | c in db.channels && db.channels[c].server != Some(s) :: db.channels[c],
       map k | k in db.grants && (k.0 in db.channels ==> db.channels[k.0].server != Some(s)) :: db.grants[k],
       db.participants)
  }

  function DeleteServer(db: Db, actor: AccountId, s: ServerId): Result<Db> {
    if s !in db.servers || (s, actor) !in db.members then Err(ServerNotFound)
    else
      :- Need(db.servers[s].owner == actor, MissingPermission);
      Ok(WithoutServer(db, s))
  }

  function UpdateServerVisibility(db: Db, actor: AccountId, s: ServerId, v: Visibility): Result<Db> {
    if s !in db.servers || (s, actor) !in db.members then Err(ServerNotFound)
    else
      :- Need(db.servers[s].owner == actor, MissingPermission);
      Ok(db.(servers := db.servers[s := db.servers[s].(visibility := v)]))
  }

  /** `s` is the server the presented invite code resolves to, if any. */
  function JoinViaInvite(db: Db, actor: AccountId, s: ServerId): Result<Db> {
    if s !in db.servers then Err(InvalidInvite)
    else
      :- Need((s, actor) !in db.members, AlreadyMember);
      :- Need((s, actor) !in db.bans, Banned);
      Ok(db.(members := db.members[(s, actor) := Member(false, {}, None)]))
  }

  function RemoveMember(db: Db, s: ServerId, target: AccountId): Result<Db> {
    if (s, target) !in db.members then Err(AccountNotFound)
    else
      Ok(db.(members := db.members - {(s, target)}))
  }

  function LeaveServer(db: Db, actor: AccountId, s: ServerId): Result<Db> {
    if (s, actor) !in db.members then Err(ServerNotFound)
    else
      :- Need(!db.members[(s, actor)].isOwner, OwnerCannotLeave);
      RemoveMember(db, s, actor)
  }

  /** The checks kick, ban and timeout share once the caller passed the gate. */
  ghost function Targetable(db: Db, ctx: MemberContext, s: ServerId, target: AccountId): Outcome {
    if (s, target) !in db.members then Fail(AccountNotFound)
    else if db.members[(s, target)].isOwner then Fail(CannotActOnOwner)
    else if !Outranks(ctx, TopPosition(db, s, target)) then Fail(InsufficientHierarchy)
    else Pass
  }

  ghost function KickMember(db: Db, now: Time, actor: AccountId, s: ServerId, target: AccountId): Result<Db> {
    if actor == target then Err(CannotActOnSelf)
    else
      var ctx :- Gate(db, now, s, actor, KICK);
      :- Targetable(db, ctx, s, target);
      RemoveMember(db, s, target)
  }

  ghost function BanMember(db: Db, now: Time, actor: AccountId, s: ServerId, target: AccountId): Result<Db> {
    if actor == target then Err(CannotActOnSelf)
    else
      var ctx :- Gate(db, now, s, actor, BAN);
      :- Need((s, target) !in db.bans, AlreadyBanned);
      :- Targetable(db, ctx, s, target);
      RemoveMember(db.(bans := db.bans + {(s, target)}), s, target)
  }

  ghost function UnbanMember(db: Db, now: Time, actor: AccountId, s: ServerId, target: AccountId): Result<Db> {
    var _ :- Gate(db, now, s, actor, BAN);
    :- Need((s, target) in db.bans, AccountNotFound);
    Ok(db.(bans := db.bans - {(s, target)}))
  }

  function SetTimeout(db: Db, s: ServerId, target: AccountId, until: Option<Time>): Db
    requires (s, target) in db.members
  {
    db.(members := db.members[(s, target) := db.members[(s, target)].(timeoutUntil := until)])
  }

  ghost function TimeoutMember(
    db: Db, now: Time, actor: AccountId, s: ServerId, target: AccountId, until: Time): Result<Db>
  {
    if actor == target then Err(CannotActOnSelf)
    else
      :- Need(until > now, Validation);
      var ctx :- Gate(db, now, s, actor, TIMEOUT_MEMBERS);
      :- Targetable(db, ctx, s, target);
      Ok(SetTimeout(db, s, target, Some(until)))
  }

  ghost function ClearTimeout(db: Db, now: Time, actor: AccountId, s: ServerId, target: AccountId): Result<Db> {
    var ctx :- Gate(db, now, s, actor, TIMEOUT_MEMBERS);
    :- Need((s, target) in db.members, AccountNotFound);
    :- Need(Outranks(ctx, TopPosition(db, s, target)), InsufficientHierarchy);
    Ok(SetTimeout(db, s, target, None))
  }

  // ---- roles ----

  ghost function CreateRole(db: Db, now: Time, actor: AccountId, s: ServerId, id: RoleId, name: string): Result<Db> {
    var _ :- Gate(db, now, s, actor, MANAGE_ROLES);
    var existing := ServerRoles(db.roles, s);
    :- Need(|existing| < MAX_ROLES_PER_SERVER, RoleLimitReached);
    :- Need(id !in db.roles, Conflict);
    Ok(db.(roles := db.roles[id := Role(s, name, None, {}, MaxPosition(db.roles, existing) + 1, false, false)]))
  }

  function FindRole(db: Db, s: ServerId, r: RoleId): Result<Role> {
    if r in db.roles && db.roles[r].server == s then Ok(db.roles[r]) else Err(RoleNotFound)
  }

  /** The fields a role update may leave out. */
  datatype RolePatch = RolePatch(
    name: Option<string>,
    color: Option<string>,
    permissions: Option<Mask>,
    mentionable: Option<bool>)

  /** Bits this build knows; a caller who is not the owner grants only bits it holds. */
  function GrantableBits(ctx: MemberContext, raw: Mask): Mask {
    if ctx.isOwner then raw * KNOWN else raw * KNOWN * ctx.permissions
  }

  function Patched(ctx: MemberContext, role: Role, patch: RolePatch): Role {
    role.(name := patch.name.GetOr(role.name),
          color := if patch.color.Some? then patch.color else role.color,
          permissions := GrantableBits(ctx, patch.permissions.GetOr(role.permissions)),
          mentionable := patch.mentionable.GetOr(role.mentionable))
  }

  ghost function UpdateRole(
    db: Db, now: Time, actor: AccountId, s: ServerId, id: RoleId, patch: RolePatch): Result<Db>
  {
    var ctx :- Gate(db, now, s, actor, MANAGE_ROLES);
    var role :- FindRole(db, s, id);
    :- Need(role.isDefault ==> patch.name.None? && patch.color.None? && patch.mentionable.None?,
        CannotModifyDefaultRole);
    :- Need(role.isDefault ==> ctx.Bypasses(), MissingPermission);
    :- Need(Outranks(ctx, role.position), InsufficientHierarchy);
    Ok(db.(roles := db.roles[id := Patched(ctx, role, patch)]))
  }

  /** One `DELETE` on the role row; assignments and channel grants cascade from it. */
  function WithoutRole(db: Db, id: RoleId): Db {
    db.(roles := db.roles - {id},
        members := map k | k in db.members :: db.members[k].(roles := db.members[k].roles - {id}),
        grants := map k | k in db.grants && k.1 != id :: db.grants[k])
  }

  ghost function DeleteRole(db: Db, now: Time, actor: AccountId, s: ServerId, id: RoleId): Result<Db> {
    var ctx :- Gate(db, now, s, actor, MANAGE_ROLES);
    var role :- FindRole(db, s, id);
    :- Need(!role.isDefault, CannotModifyDefaultRole);
    :- Need(Outranks(ctx, role.position), InsufficientHierarchy);
    Ok(WithoutRole(db, id))
  }

  function NonDefaultRoles(roles: map<RoleId, Role>, s: ServerId): set<RoleId> {
    set r | r in roles && roles[r].server == s && !roles[r].isDefault
  }

  predicate Distinct<T(==)>(xs: seq<T>) {
    forall i, j :: 0 <= i < j < |xs| ==> xs[i] != xs[j]
  }

  function Elements<T>(xs: seq<T>): set<T> {
    set x | x in xs
  }

  /** The position of `order[i]`: the first of the list is the highest. */
  function NewPosition(order: seq<RoleId>, i: nat): int {
    |order| - i
  }

  function Repositioned(roles: map<RoleId, Role>, order: seq<RoleId>): map<RoleId, Role>
    decreases order
  {
    if order == [] then roles
    else
      var rest := Repositioned(roles, order[1..]);
      if order[0] in rest then rest[order[0] := rest[order[0]].(position := |order|)] else rest
  }

  ghost function ReorderRoles(db: Db, now: Time, actor: AccountId, s: ServerId, order: seq<RoleId>): Result<Db> {
    var ctx :- Gate(db, now, s, actor, MANAGE_ROLES);
    :- Need(Distinct(order) && Elements(order) == NonDefaultRoles(db.roles, s), Validation);
    :- Need(forall i :: 0 <= i < |order| && order[i] in db.roles ==>
              Outranks(ctx, db.roles[order[i]].position) && Outranks(ctx, NewPosition(order, i)),
            InsufficientHierarchy);
    Ok(db.(roles := Repositioned(db.roles, order)))
  }

  ghost function SetMemberRoles(
    db: Db, now: Time, actor: AccountId, s: ServerId, target: AccountId, next: set<RoleId>): Result<Db>
  {
    var ctx :- Gate(db, now, s, actor, MANAGE_ROLES);
    :- Need((s, target) in db.members, AccountNotFound);
    var current := db.members[(s, target)].roles;
    var touched := (current - next) + (next - current);
    :- Need(forall r :: r in next + touched ==> r in db.roles && db.roles[r].server == s, RoleNotFound);
    :- Need(forall r :: r in touched ==> !db.roles[r].isDefault, CannotModifyDefaultRole);
    :- Need(forall r :: r in touched ==> Outranks(ctx, db.roles[r].position), InsufficientHierarchy);
    Ok(db.(members := db.members[(s, target) := db.members[(s, target)].(roles := next)]))
  }

  // ---- channels ----

  ghost function CreateChannel(
    db: Db, now: Time, actor: AccountId, s: ServerId, id: ChannelId, kind: Kind): Result<Db>
  {
    var _ :- Gate(db, now, s, actor, MANAGE_CHANNELS);
    :- Need(kind == Text || kind == Voice, Validation);
    :- Need(|CountedChannels(db.channels, s)| < MAX_CHANNELS_PER_SERVER, ChannelLimitReached);
    :- Need(id !in db.channels, Conflict);
    Ok(db.(channels := db.channels[id := Channel(Some(s), kind, None, None, false, None, false, None)]))
  }

  ghost function CreateThread(
    db: Db, now: Time, actor: AccountId, parent: ChannelId, id: ChannelId, slug: string): Result<Db>
  {
    var row :- RequireChannelAccess(db, actor, parent);
    :- Need(row.kind == Text || row.kind == Voice, Validation);
    :- Need(!TimedOut(db.members[(row.server.value, actor)], now), MemberTimedOut);
    :- Need(id !in db.channels, Conflict);
    var thread := Channel(row.server, Thread, Some(parent), None, false, Some(slug), false, None);
    Ok(db.(channels := db.channels[id := thread]))
  }

  /** Whether deleting `c` now would leave a public tombstone behind. */
  predicate TombstoneEligible(channels: map<ChannelId, Channel>, c: ChannelId, server: Visibility)
    requires c in channels
  {
    channels[c].kind == Thread && !channels[c].restricted && !ParentRestricted(channels, c) &&
    EffectiveVisibility(channels[c].visibility, ParentVisibility(channels, c), server) == Public
  }

  /** Write-once: a snapshot already taken is kept. */
  function Snapshot(channels: map<ChannelId, Channel>, c: ChannelId, server: Visibility): Channel
    requires c in channels
  {
    if channels[c].tombstone.None?
    then channels[c].(tombstone := Some(TombstoneEligible(channels, c, server)))
    else channels[c]
  }

  /** Snapshots the target and, for a top-level channel, every thread under it; then soft-deletes the target. */
  function Deleted(channels: map<ChannelId, Channel>, target: ChannelId, server: Visibility): map<ChannelId, Channel>
    requires target in channels
  {
    map c | c in channels ::
      if c == target then Snapshot(channels, c, server).(deleted := true)
      else if channels[target].parent.None? && channels[c].kind == Thread && channels[c].parent == Some(target)
      then Snapshot(channels, c, server)
      else channels[c]
  }

  ghost function DeleteChannel(db: Db, now: Time, actor: AccountId, s: ServerId, c: ChannelId): Result<Db> {
    var _ :- Gate(db, now, s, actor, MANAGE_CHANNELS);
    :- Need(s in db.servers, ChannelNotFound);
    :- Need(c in db.channels && db.channels[c].server == Some(s) && !db.channels[c].deleted, ChannelNotFound);
    var parent := db.channels[c].parent;
    :- Need(parent.Some? ==>
              parent.value in db.channels && db.channels[parent.value].server == Some(s) &&
              !db.channels[parent.value].deleted, ChannelNotFound);
    var _ :- RequireChannelAccess(db, actor, c);
    Ok(db.(channels := Deleted(db.channels, c, db.servers[s].visibility)))
  }

  ghost function UpdateChannelVisibility(
    db: Db, now: Time, actor: AccountId, s: ServerId, c: ChannelId, v: Option<Visibility>): Result<Db>
  {
    var _ :- Gate(db, now, s, actor, MANAGE_VISIBILITY);
    :- Need(s in db.servers, ServerNotFound);
    :- Need(v.Some? ==> Rank(v.value) <= Rank(db.servers[s].visibility), Validation);
    :- Need(c in db.channels && db.channels[c].server == Some(s) && !db.channels[c].deleted, ChannelNotFound);
    Ok(db.(channels := db.channels[c := db.channels[c].(visibility := v)]))
  }

  ghost function UpdateChannelRestricted(
    db: Db, now: Time, actor: AccountId, s: ServerId, c: ChannelId, restricted: bool): Result<Db>
  {
    var _ :- Gate(db, now, s, actor, MANAGE_CHANNELS);
    var row :- LookupChannel(db, c);
    :- Need(row.kind != Thread, Validation);
    :- Need(row.server == Some(s), ChannelNotFound);
    Ok(db.(channels := db.channels[c := db.channels[c].(restricted := restricted)]))
  }

  ghost function SetChannelRolePermission(
    db: Db, now: Time, actor: AccountId, s: ServerId, c: ChannelId, r: RoleId, bits: Mask): Result<Db>
  {
    var _ :- Gate(db, now, s, actor, MANAGE_CHANNELS);
    var row :- LookupChannel(db, c);
    :- Need(row.kind != Thread, Validation);
    :- Need(row.server == Some(s), ChannelNotFound);
    var _ :- FindRole(db, s, r);
    Ok(db.(grants := db.grants[(c, r) := bits * {VIEW_CHANNEL}]))
  }

  /** A direct message channel and its two participants, in one transaction. */
  function OpenDm(db: Db, id: ChannelId, a: AccountId, b: AccountId): Result<Db> {
    if id in db.channels then Err(Conflict)
    else
      Ok(db.(channels := db.channels[id := Channel(None, Dm, None, None, false, None, false, None)],
             participants := db.participants + {(id, a), (id, b)}))
  }

  // ---- runs ----

  datatype Op =
    | OpCreateServer(actor: AccountId, server: ServerId, everyone: RoleId, visibility: Visibility)
    | OpDeleteServer(actor: AccountId, server: ServerId)
    | OpUpdateServerVisibility(actor: AccountId, server: ServerId, visibility: Visibility)
    | OpJoin(actor: AccountId, server: ServerId)
    | OpLeave(actor: AccountId, server: ServerId)
    | OpKick(actor: AccountId, server: ServerId, target: AccountId)
    | OpBan(actor: AccountId, server: ServerId, target: AccountId)
    | OpUnban(actor: AccountId, server: ServerId, target: AccountId)
    | OpTimeout(actor: AccountId, server: ServerId, target: AccountId, until: Time)
    | OpClearTimeout(actor: AccountId, server: ServerId, target: AccountId)
    | OpCreateRole(actor: AccountId, server: ServerId, role: RoleId, name: string)
    | OpUpdateRole(actor: AccountId, server: ServerId, role: RoleId, patch: RolePatch)
    | OpDeleteRole(actor: AccountId, server: ServerId, role: RoleId)
    | OpReorderRoles(actor: AccountId, server: ServerId, order: seq<RoleId>)
    | OpSetMemberRoles(actor: AccountId, server: ServerId, target: AccountId, next: set<RoleId>)
    | OpCreateChannel(actor: AccountId, server: ServerId, channel: ChannelId, kind: Kind)
    | OpCreateThread(actor: AccountId, parent: ChannelId, channel: ChannelId, slug: string)
    | OpDeleteChannel(actor: AccountId, server: ServerId, channel: ChannelId)
    | OpUpdateChannelVisibility(actor: AccountId, server: ServerId, channel: ChannelId, override: Option<Visibility>)
    | OpUpdateChannelRestricted(actor: AccountId, server: ServerId, channel: ChannelId, restricted: bool)
    | OpSetChannelRolePermission(actor: AccountId, server: ServerId, channel: ChannelId, role: RoleId, bits: Mask)
    | OpOpenDm(actor: AccountId, channel: ChannelId, other: AccountId)
  {
    predicate EditsRoles() {
      OpCreateRole? || OpUpdateRole? || OpDeleteRole? || OpReorderRoles? || OpSetMemberRoles?
    }

    predicate EditsServers() {
      OpCreateServer? || OpDeleteServer? || OpUpdateServerVisibility?
    }

    predicate EditsRoster() {
      OpJoin? || OpLeave? || OpKick? || OpBan? || OpUnban? || OpTimeout? || OpClearTimeout?
    }

    predicate EditsChannels() {
      OpCreateChannel? || OpCreateThread? || OpDeleteChannel? || OpUpdateChannelVisibility? ||
      OpUpdateChannelRestricted? || OpSetChannelRolePermission? || OpOpenDm?
    }
  }

  ghost function Apply(db: Db, now: Time, op: Op): Result<Db> {
    match op
    case OpCreateServer(a, s, r, v) => CreateServer(db, a, s, r, v)
    case OpDeleteServer(a, s) => DeleteServer(db, a, s)
    case OpUpdateServerVisibility(a, s, v) => UpdateServerVisibility(db, a, s, v)
    case OpJoin(a, s) => JoinViaInvite(db, a, s)
    case OpLeave(a, s) => LeaveServer(db, a, s)
    case OpKick(a, s, t) => KickMember(db, now, a, s, t)
    case OpBan(a, s, t) => BanMember(db, now, a, s, t)
    case OpUnban(a, s, t) => UnbanMember(db, now, a, s, t)
    case OpTimeout(a, s, t, until) => TimeoutMember(db, now, a, s, t, until)
    case OpClearTimeout(a, s, t) => ClearTimeout(db, now, a, s, t)
    case OpCreateRole(a, s, r, name) => CreateRole(db, now, a, s, r, name)
    case OpUpdateRole(a, s, r, patch) => UpdateRole(db, now, a, s, r, patch)
    case OpDeleteRole(a, s, r) => DeleteRole(db, now, a, s, r)
    case OpReorderRoles(a, s, order) => ReorderRoles(db, now, a, s, order)
    case OpSetMemberRoles(a, s, t, next) => SetMemberRoles(db, now, a, s, t, next)
    case OpCreateChannel(a, s, c, kind) => CreateChannel(db, now, a, s, c, kind)
    case OpCreateThread(a, p, c, slug) => CreateThread(db, now, a, p, c, slug)
    case OpDeleteChannel(a, s, c) => DeleteChannel(db, now, a, s, c)
    case OpUpdateChannelVisibility(a, s, c, v) => UpdateChannelVisibility(db, now, a, s, c, v)
    case OpUpdateChannelRestricted(a, s, c, b) => UpdateChannelRestricted(db, now, a, s, c, b)
    case OpSetChannelRolePermission(a, s, c, r, bits) => SetChannelRolePermission(db, now, a, s, c, r, bits)
    case OpOpenDm(a, c, b) => OpenDm(db, c, a, b)
  }

  ghost function Next(db: Db, now: Time, op: Op): Db {
    var r := Apply(db, now, op);
    if r.Ok? then r.value else db
  }

  // ---- which tables a call leaves alone ----

  /** Joining, leaving, kicks, bans and timeouts write the member and ban tables only. */
  lemma RosterCallsKeepTables(db: Db, now: Time, op: Op)
    requires op.EditsRoster()
    ensures var next := Next(db, now, op);
            next.servers == db.servers && next.roles == db.roles && next.channels == db.channels &&
            next.grants == db.grants && next.participants == db.participants
  {
    hide Context, Gate;
  }

  /** Calls about channels write channels, grants and participants only. */
  lemma ChannelCallsKeepTables(db: Db, now: Time, op: Op)
    requires op.EditsChannels()
    ensures var next := Next(db, now, op);
            next.servers == db.servers && next.members == db.members && next.roles == db.roles && next.bans == db.bans
  {
    hide Context, Gate, RequireChannelAccess;
  }

  /** Calls about roles write roles, their assignments and, by cascade, grants. */
  lemma RoleCallsKeepTables(db: Db, now: Time, op: Op)
    requires op.EditsRoles()
    ensures var next := Next(db, now, op);
            next.servers == db.servers && next.bans == db.bans && next.channels == db.channels &&
            next.participants == db.participants && next.members.Keys == db.members.Keys
  {
    hide Context, Gate;
  }

  datatype Call = Call(now: Time, op: Op)

  /** The states a run goes through, the first one included. */
  ghost function Run(db: Db, calls: seq<Call>): (states: seq<Db>)
    ensures |states| == |calls| + 1
    ensures states[0] == db
    decreases calls
  {
    if calls == [] then [db]
    else [db] + Run(Next(db, calls[0].now, calls[0].op), calls[1..])
  }

  ghost function Final(db: Db, calls: seq<Call>): Db {
    Run(db, calls)[|calls|]
  }

  lemma {:induction false} RunStep(db: Db, calls: seq<Call>, i: nat)
    requires i < |calls|
    ensures Run(db, calls)[i + 1] == Next(Run(db, calls)[i], calls[i].now, calls[i].op)
    decreases calls
  {
    if i > 0 {
      RunStep(Next(db, calls[0].now, calls[0].op), calls[1..], i - 1);
    }
  }
}
