/**
 What a call that succeeds changes, row by row, and that it changes nothing else.
 A call that fails changes nothing.
 */
module Effects {
  import opened Common
  import opened Permissions
  import opened Tables
  import opened Transitions
  import opened Invariants
  import opened Answers

  /** The two maps differ at `k` at most. */
  ghost predicate OnlyAt<K(!new), V>(m: map<K, V>, n: map<K, V>, k: K) {
    forall x :: x != k ==> ((x in n <==> x in m) && (x in m ==> n[x] == m[x]))
  }

  ghost predicate Loses<K(!new), V>(m: map<K, V>, n: map<K, V>, k: K) {
    OnlyAt(m, n, k) && k !in n
  }

  /** `n` holds exactly the rows of `m` that are in `kept`, as they were. */
  ghost predicate Keeps<K(!new), V>(m: map<K, V>, n: map<K, V>, kept: iset<K>) {
    forall x :: (x in n <==> x in m && x in kept) && (x in n ==> n[x] == m[x])
  }

  /** The row of the one member the call is about; every other table and member is as it was. */
  ghost predicate MemberBecomes(db: Db, next: Db, s: ServerId, a: AccountId, row: Option<Member>) {
    && next == db.(members := next.members) && OnlyAt(db.members, next.members, (s, a))
    && match row
       case Some(member) => (s, a) in next.members && next.members[(s, a)] == member
       case None => (s, a) !in next.members
  }

  ghost predicate ChannelBecomes(db: Db, next: Db, c: ChannelId, row: Channel) {
    next == db.(channels := next.channels) && OnlyAt(db.channels, next.channels, c) &&
    c in next.channels && next.channels[c] == row
  }

  ghost predicate RoleBecomes(db: Db, next: Db, r: RoleId, row: Role) {
    next == db.(roles := next.roles) && OnlyAt(db.roles, next.roles, r) && r in next.roles && next.roles[r] == row
  }

  // ---- servers ----

  /** One server, one member who owns it, one role without permissions. */
  ghost predicate ServerAppears(db: Db, next: Db, a: AccountId, s: ServerId, everyone: RoleId, v: Visibility) {
    && next == db.(servers := next.servers, members := next.members, roles := next.roles)
    && OnlyAt(db.servers, next.servers, s) && s in next.servers && next.servers[s] == Server(a, v)
    && OnlyAt(db.members, next.members, (s, a)) && (s, a) in next.members
    && next.members[(s, a)] == Member(true, {}, None)
    && OnlyAt(db.roles, next.roles, everyone) && everyone in next.roles
    && next.roles[everyone] == Role(s, "everyone", None, {}, 0, true, false)
  }

  /** No row of the server is left, and every row of another is as it was. */
  ghost predicate ServerVanishes(db: Db, next: Db, s: ServerId) {
    && Loses(db.servers, next.servers, s)
    && Keeps(db.members, next.members, iset k: (ServerId, AccountId) | k.0 != s)
    && Keeps(db.roles, next.roles, iset r | r in db.roles && db.roles[r].server != s)
    && (forall x, a :: (x, a) in next.bans <==> (x, a) in db.bans && x != s)
    && Keeps(db.channels, next.channels, iset c | c in db.channels && db.channels[c].server != Some(s))
    && Keeps(db.grants, next.grants, iset k: (ChannelId, RoleId) | k.0 in next.channels)
    && next.participants == db.participants
  }

  ghost predicate VisibilityBecomes(db: Db, next: Db, s: ServerId, v: Visibility) {
    && next == db.(servers := next.servers) && OnlyAt(db.servers, next.servers, s)
    && s in db.servers && s in next.servers && next.servers[s] == Server(db.servers[s].owner, v)
  }

  // ---- roster ----

  ghost predicate BanBecomes(db: Db, next: Db, s: ServerId, target: AccountId, banned: bool) {
    && next == db.(bans := next.bans, members := next.members)
    && ((s, target) in next.bans <==> banned)
    && (forall k :: k != (s, target) ==> (k in next.bans <==> k in db.bans))
    && if banned then OnlyAt(db.members, next.members, (s, target)) && (s, target) !in next.members
       else next.members == db.members
  }

  ghost predicate TimeoutBecomes(db: Db, next: Db, s: ServerId, target: AccountId, until: Option<Time>) {
    (s, target) in db.members &&
    MemberBecomes(db, next, s, target,
                  Some(Member(db.members[(s, target)].isOwner, db.members[(s, target)].roles, until)))
  }

  // ---- roles ----

  /** The new role is plain, and above every other of its server by one. */
  ghost predicate RoleAppears(db: Db, next: Db, s: ServerId, r: RoleId, name: string) {
    exists position ::
      && RoleBecomes(db, next, r, Role(s, name, None, {}, position, false, false))
      && (forall q :: RoleOf(db, s, q) ==> db.roles[q].position < position)
      && (exists q :: RoleOf(db, s, q) && db.roles[q].position == position - 1)
  }

  /** What is left out stays; a bit is stored if asked for, known, and one the caller has. */
  ghost predicate RolePatched(db: Db, next: Db, a: AccountId, s: ServerId, r: RoleId, patch: RolePatch) {
    && r in db.roles && r in next.roles && RoleBecomes(db, next, r, next.roles[r])
    && var was, now := db.roles[r], next.roles[r];
       && now.server == was.server && now.position == was.position && now.isDefault == was.isDefault
       && (match patch.name case Some(name) => now.name == name case None => now.name == was.name)
       && (match patch.color case Some(color) => now.color == Some(color) case None => now.color == was.color)
       && (match patch.mentionable case Some(m) => now.mentionable == m case None => now.mentionable == was.mentionable)
       && (forall b :: b in now.permissions <==>
             && (match patch.permissions case Some(bits) => b in bits case None => b in was.permissions)
             && b in KNOWN && (Owns(db, s, a) || HasBit(db, s, a, b)))
  }

  /** The role goes, from the members who have it and from the channels that grant to it. */
  ghost predicate RoleVanishes(db: Db, next: Db, r: RoleId) {
    && next == db.(roles := next.roles, members := next.members, grants := next.grants)
    && Loses(db.roles, next.roles, r)
    && (forall k :: k in next.members <==> k in db.members)
    && (forall k :: k in next.members ==>
          next.members[k].isOwner == db.members[k].isOwner &&
          next.members[k].timeoutUntil == db.members[k].timeoutUntil &&
          forall q :: q in next.members[k].roles <==> q in db.members[k].roles && q != r)
    && Keeps(db.grants, next.grants, iset k: (ChannelId, RoleId) | k.1 != r)
  }

  /** The first of the order is the highest. */
  ghost predicate RolesOrdered(db: Db, next: Db, order: seq<RoleId>) {
    && next == db.(roles := next.roles)
    && (forall r :: r in next.roles <==> r in db.roles)
    && (forall r :: r in db.roles && r !in order ==> next.roles[r] == db.roles[r])
    && (forall i :: 0 <= i < |order| ==>
          order[i] in db.roles && order[i] in next.roles &&
          next.roles[order[i]] == db.roles[order[i]].(position := |order| - i))
  }

  ghost predicate RolesAssigned(db: Db, next: Db, s: ServerId, target: AccountId, roles: set<RoleId>) {
    (s, target) in db.members &&
    MemberBecomes(db, next, s, target,
                  Some(Member(db.members[(s, target)].isOwner, roles, db.members[(s, target)].timeoutUntil)))
  }

  // ---- channels ----

  /** The channel is marked deleted; it and the threads under it say what the public saw, if they did not yet. */
  ghost predicate ChannelDeleted(db: Db, next: Db, c: ChannelId) {
    && next == db.(channels := next.channels)
    && (forall d :: d in next.channels <==> d in db.channels)
    && (forall d :: d in db.channels ==>
          && next.channels[d] ==
             db.channels[d].(deleted := next.channels[d].deleted, tombstone := next.channels[d].tombstone)
          && (next.channels[d].deleted <==> db.channels[d].deleted || d == c)
          && (next.channels[d].tombstone.Some? <==>
                db.channels[d].tombstone.Some? || d == c || db.channels[d].parent == Some(c))
          && (db.channels[d].tombstone.Some? ==> next.channels[d].tombstone == db.channels[d].tombstone))
  }

  /** The mask replaces the one before; only the one bit is ever stored. */
  ghost predicate GrantBecomes(db: Db, next: Db, c: ChannelId, r: RoleId, bits: Mask) {
    && next == db.(grants := next.grants) && OnlyAt(db.grants, next.grants, (c, r)) && (c, r) in next.grants
    && (forall b :: b in next.grants[(c, r)] <==> b in bits && b == VIEW_CHANNEL)
  }

  ghost predicate DmAppears(db: Db, next: Db, c: ChannelId, a: AccountId, b: AccountId) {
    && next == db.(channels := next.channels, participants := next.participants)
    && OnlyAt(db.channels, next.channels, c) && c in next.channels
    && next.channels[c] == Channel(None, Dm, None, None, false, None, false, None)
    && (forall d, x :: (d, x) in next.participants <==> (d, x) in db.participants || (d == c && (x == a || x == b)))
  }

  /** The whole change of a call that succeeds. */
  ghost predicate Does(db: Db, next: Db, op: Op) {
    match op
    case OpCreateServer(a, s, r, v) => ServerAppears(db, next, a, s, r, v)
    case OpDeleteServer(_, s) => ServerVanishes(db, next, s)
    case OpUpdateServerVisibility(_, s, v) => VisibilityBecomes(db, next, s, v)
    case OpJoin(a, s) => MemberBecomes(db, next, s, a, Some(Member(false, {}, None)))
    case OpLeave(a, s) => MemberBecomes(db, next, s, a, None)
    case OpKick(_, s, t) => MemberBecomes(db, next, s, t, None)
    case OpBan(_, s, t) => BanBecomes(db, next, s, t, true)
    case OpUnban(_, s, t) => BanBecomes(db, next, s, t, false)
    case OpTimeout(_, s, t, until) => TimeoutBecomes(db, next, s, t, Some(until))
    case OpClearTimeout(_, s, t) => TimeoutBecomes(db, next, s, t, None)
    case OpCreateRole(_, s, r, name) => RoleAppears(db, next, s, r, name)
    case OpUpdateRole(a, s, r, patch) => RolePatched(db, next, a, s, r, patch)
    case OpDeleteRole(_, _, r) => RoleVanishes(db, next, r)
    case OpReorderRoles(_, _, order) => RolesOrdered(db, next, order)
    case OpSetMemberRoles(_, s, t, roles) => RolesAssigned(db, next, s, t, roles)
    case OpCreateChannel(_, s, c, kind) =>
      ChannelBecomes(db, next, c, Channel(Some(s), kind, None, None, false, None, false, None))
    case OpCreateThread(_, p, c, slug) =>
      p in db.channels &&
      ChannelBecomes(db, next, c, Channel(db.channels[p].server, Thread, Some(p), None, false, Some(slug), false, None))
    case OpDeleteChannel(_, _, c) => ChannelDeleted(db, next, c)
    case OpUpdateChannelVisibility(_, _, c, v) =>
      c in db.channels && ChannelBecomes(db, next, c, db.channels[c].(visibility := v))
    case OpUpdateChannelRestricted(_, _, c, restricted) =>
      c in db.channels && ChannelBecomes(db, next, c, db.channels[c].(restricted := restricted))
    case OpSetChannelRolePermission(_, _, c, r, bits) => GrantBecomes(db, next, c, r, bits)
    case OpOpenDm(a, c, b) => DmAppears(db, next, c, a, b)
  }

  lemma GrantsOnRows(db: Db)
    requires Inv(db)
    ensures forall c, r :: (c, r) in db.grants ==> c in db.channels
  {
  }

  lemma LostServerEffects(db: Db, a: AccountId, s: ServerId)
    requires Inv(db) && DeleteServer(db, a, s).Ok?
    ensures ServerVanishes(db, DeleteServer(db, a, s).value, s)
  {
    hide Inv;
    GrantsOnRows(db);
  }

  lemma ServerEffects(db: Db, now: Time, op: Op)
    requires Inv(db) && op.EditsServers() && Apply(db, now, op).Ok?
    ensures Does(db, Next(db, now, op), op)
  {
    hide Inv, DeleteServer, ServerVanishes;
    if op.OpDeleteServer? {
      LostServerEffects(db, op.actor, op.server);
    }
  }

  lemma RosterEffects(db: Db, now: Time, op: Op)
    requires op.EditsRoster() && Apply(db, now, op).Ok?
    ensures Does(db, Next(db, now, op), op)
  {
    hide Context, Gate, Outranks;
  }

  lemma TopRole(db: Db, s: ServerId) returns (top: RoleId)
    requires Inv(db) && s in db.servers
    ensures RoleOf(db, s, top) && db.roles[top].position == MaxPosition(db.roles, ServerRoles(db.roles, s))
    ensures forall q :: RoleOf(db, s, q) ==> db.roles[q].position <= db.roles[top].position
  {
    hide RosterOk, RolesOk, AssignmentsOk, ChannelsOk, GrantsOk, RoleLimitOk, ChannelLimitOk, ParticipantsOk;
    var existing := ServerRoles(db.roles, s);
    assert HasDefault(db.roles, s);
    var d :| d in db.roles && db.roles[d].server == s && db.roles[d].isDefault;
    assert d in existing;
    top :| top in existing && db.roles[top].position == MaxPosition(db.roles, existing);
    assert forall q :: RoleOf(db, s, q) ==> q in existing;
  }

  lemma NewRoleEffects(db: Db, now: Time, a: AccountId, s: ServerId, r: RoleId, name: string)
    requires Inv(db) && CreateRole(db, now, a, s, r, name).Ok?
    ensures RoleAppears(db, CreateRole(db, now, a, s, r, name).value, s, r, name)
  {
    hide Inv, Context, Gate;
    ServersExist(db);
    assert MemberOf(db, s, a);
    var top := TopRole(db, s);
    hide ServerRoles;
    var next := CreateRole(db, now, a, s, r, name).value;
    assert RoleBecomes(db, next, r, Role(s, name, None, {}, db.roles[top].position + 1, false, false));
  }

  lemma GatedIsMember(db: Db, now: Time, op: Op)
    requires op.EditsRoles() && Apply(db, now, op).Ok?
    ensures MemberOf(db, op.server, op.actor)
  {
    hide Context, Gate;
  }

  lemma PatchEffects(db: Db, now: Time, a: AccountId, s: ServerId, r: RoleId, patch: RolePatch)
    requires UpdateRole(db, now, a, s, r, patch).Ok?
    ensures RolePatched(db, UpdateRole(db, now, a, s, r, patch).value, a, s, r, patch)
  {
    hide Context, Gate, Carries, HasBit, Owns, Outranks;
    HeldIsCarried(db, s, a);
  }

  lemma {:induction false} OrderEffects(db: Db, now: Time, a: AccountId, s: ServerId, order: seq<RoleId>)
    requires ReorderRoles(db, now, a, s, order).Ok?
    ensures RolesOrdered(db, ReorderRoles(db, now, a, s, order).value, order)
  {
    hide Context, Gate, Outranks, Repositioned;
    RepositionedPositions(db.roles, order);
  }

  lemma RoleEffects(db: Db, now: Time, op: Op)
    requires Inv(db) && op.EditsRoles() && Apply(db, now, op).Ok?
    ensures Does(db, Next(db, now, op), op)
  {
    hide Inv, CreateRole, RoleAppears, UpdateRole, RolePatched, ReorderRoles, RolesOrdered;
    match op {
      case OpCreateRole(a, s, r, name) => NewRoleEffects(db, now, a, s, r, name);
      case OpUpdateRole(a, s, r, patch) => PatchEffects(db, now, a, s, r, patch);
      case OpReorderRoles(a, s, order) => OrderEffects(db, now, a, s, order);
      case OpDeleteRole(_, _, _) => AssignmentEffects(db, now, op);
      case OpSetMemberRoles(_, _, _, _) => AssignmentEffects(db, now, op);
    }
  }

  lemma AssignmentEffects(db: Db, now: Time, op: Op)
    requires (op.OpDeleteRole? || op.OpSetMemberRoles?) && Apply(db, now, op).Ok?
    ensures Does(db, Next(db, now, op), op)
  {
    hide Context, Gate, Outranks;
  }

  lemma DeletedRow(db: Db, c: ChannelId, v: Visibility, d: ChannelId)
    requires Inv(db) && c in db.channels && d in db.channels
    ensures var row := Deleted(db.channels, c, v)[d];
            && row == db.channels[d].(deleted := row.deleted, tombstone := row.tombstone)
            && (row.deleted <==> db.channels[d].deleted || d == c)
            && (row.tombstone.Some? <==> db.channels[d].tombstone.Some? || d == c || db.channels[d].parent == Some(c))
            && (db.channels[d].tombstone.Some? ==> row.tombstone == db.channels[d].tombstone)
  {
    hide Inv, TombstoneEligible;
    ChannelRow(db, c);
    ChannelRow(db, d);
    hide Gone;
  }

  lemma DeletionEffects(db: Db, now: Time, a: AccountId, s: ServerId, c: ChannelId)
    requires Inv(db) && DeleteChannel(db, now, a, s, c).Ok?
    ensures ChannelDeleted(db, DeleteChannel(db, now, a, s, c).value, c)
  {
    hide Inv, Context, Gate, RequireChannelAccess;
    forall d | d in db.channels
      ensures var row := Deleted(db.channels, c, db.servers[s].visibility)[d];
              && row == db.channels[d].(deleted := row.deleted, tombstone := row.tombstone)
              && (row.deleted <==> db.channels[d].deleted || d == c)
              && (row.tombstone.Some? <==>
                    db.channels[d].tombstone.Some? || d == c || db.channels[d].parent == Some(c))
              && (db.channels[d].tombstone.Some? ==> row.tombstone == db.channels[d].tombstone)
    {
      DeletedRow(db, c, db.servers[s].visibility, d);
    }
    assert Deleted(db.channels, c, db.servers[s].visibility).Keys == db.channels.Keys;
    hide Deleted;
  }

  lemma ThreadEffects(db: Db, now: Time, a: AccountId, p: ChannelId, c: ChannelId, slug: string)
    requires CreateThread(db, now, a, p, c, slug).Ok?
    ensures p in db.channels
    ensures ChannelBecomes(db, CreateThread(db, now, a, p, c, slug).value, c,
              Channel(db.channels[p].server, Thread, Some(p), None, false, Some(slug), false, None))
  {
    hide MemberCanView;
  }

  lemma EditEffects(db: Db, now: Time, op: Op)
    requires op.OpUpdateChannelVisibility? || op.OpUpdateChannelRestricted? || op.OpSetChannelRolePermission?
    requires Apply(db, now, op).Ok?
    ensures Does(db, Next(db, now, op), op)
  {
    hide Context, Gate;
  }

  lemma NewChannelEffects(db: Db, now: Time, op: Op)
    requires (op.OpCreateChannel? || op.OpOpenDm?) && Apply(db, now, op).Ok?
    ensures Does(db, Next(db, now, op), op)
  {
    hide Context, Gate;
  }

  lemma ChannelEffects(db: Db, now: Time, op: Op)
    requires Inv(db) && op.EditsChannels() && Apply(db, now, op).Ok?
    ensures Does(db, Next(db, now, op), op)
  {
    hide Inv, DeleteChannel, CreateThread, ChannelDeleted, ChannelBecomes;
    if op.OpDeleteChannel? {
      DeletionEffects(db, now, op.actor, op.server, op.channel);
    } else if op.OpCreateThread? {
      ThreadEffects(db, now, op.actor, op.parent, op.channel, op.slug);
    } else {
      hide Does, Apply;
      if op.OpCreateChannel? || op.OpOpenDm? {
        NewChannelEffects(db, now, op);
      } else {
        EditEffects(db, now, op);
      }
    }
  }

  /** A call that succeeds does exactly what is said above, and one that fails does nothing. */
  lemma EveryCallDoesThis(db: Db, now: Time, op: Op)
    requires Inv(db)
    ensures Apply(db, now, op).Ok? ==> Does(db, Next(db, now, op), op)
    ensures Apply(db, now, op).Err? ==> Next(db, now, op) == db
  {
    hide Inv, Apply, Does;
    if Apply(db, now, op).Ok? {
      if op.EditsRoster() {
        RosterEffects(db, now, op);
      } else if op.EditsRoles() {
        RoleEffects(db, now, op);
      } else if op.EditsChannels() {
        ChannelEffects(db, now, op);
      } else {
        ServerEffects(db, now, op);
      }
    }
  }
}
