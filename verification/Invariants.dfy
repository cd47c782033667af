/** What every operation keeps true of the tables. */
module Invariants {
  import opened Common
  import opened Permissions
  import opened Tables
  import opened Transitions

  // ---- the parts, each about the tables it reads ----

  /** One owner membership per server, that of `owner_account_id`; a ban excludes a membership. */
  ghost predicate RosterOk(
    servers: map<ServerId, Server>, members: map<(ServerId, AccountId), Member>, bans: set<(ServerId, AccountId)>)
  {
    && (forall s, a :: (s, a) in members ==> s in servers)
    && (forall s, a :: (s, a) in members ==> (members[(s, a)].isOwner <==> servers[s].owner == a))
    && (forall s :: s in servers ==> (s, servers[s].owner) in members)
    && (forall s, a :: (s, a) in bans ==> s in servers && (s, a) !in members)
  }

  /** Positions are distinct within a server, and the one default role is alone at 0. */
  ghost predicate RolesOk(servers: map<ServerId, Server>, roles: map<RoleId, Role>) {
    && (forall r :: r in roles ==> roles[r].server in servers)
    && (forall r :: r in roles ==> roles[r].position >= 0)
    && (forall r :: r in roles ==> (roles[r].isDefault <==> roles[r].position == 0))
    && (forall r, q :: r in roles && q in roles && r != q && roles[r].server == roles[q].server ==>
          roles[r].position != roles[q].position)
    && (forall r :: r in roles ==> roles[r].permissions <= KNOWN)
  }

  ghost predicate HasDefault(roles: map<RoleId, Role>, s: ServerId) {
    exists r :: r in roles && roles[r].server == s && roles[r].isDefault
  }

  ghost predicate DefaultsOk(servers: map<ServerId, Server>, roles: map<RoleId, Role>) {
    forall s :: s in servers ==> HasDefault(roles, s)
  }

  /** Explicit assignments name non-default roles of the member's own server. */
  ghost predicate AssignmentsOk(members: map<(ServerId, AccountId), Member>, roles: map<RoleId, Role>) {
    forall s, a, r :: (s, a) in members && r in members[(s, a)].roles ==>
      r in roles && roles[r].server == s && !roles[r].isDefault
  }

  /** Threads hang off a top-level channel of the same server and are never restricted themselves. */
  ghost predicate ChannelOk(servers: map<ServerId, Server>, channels: map<ChannelId, Channel>, c: ChannelId)
    requires c in channels
  {
    var row := channels[c];
    && (row.server.Some? <==> IsServerKind(row.kind))
    && (row.server.Some? ==> row.server.value in servers)
    && (row.parent.Some? <==> row.kind == Thread)
    && (row.parent.Some? ==>
          row.parent.value in channels && channels[row.parent.value].server == row.server &&
          channels[row.parent.value].kind != Thread)
    && (row.kind == Thread ==> row.slug.Some?)
    && (row.restricted ==> row.kind == Text || row.kind == Voice)
    && (row.tombstone.Some? <==> Gone(channels, c))
  }

  ghost predicate ChannelsOk(servers: map<ServerId, Server>, channels: map<ChannelId, Channel>) {
    forall c {:trigger ChannelOk(servers, channels, c)} :: c in channels ==> ChannelOk(servers, channels, c)
  }

  /** Channel grants name a role of the channel's own server. */
  ghost predicate GrantsOk(
    channels: map<ChannelId, Channel>, roles: map<RoleId, Role>, grants: map<(ChannelId, RoleId), Mask>)
  {
    forall c, r :: (c, r) in grants ==>
      c in channels && r in roles && channels[c].server == Some(roles[r].server)
  }

  ghost predicate RoleLimitOk(roles: map<RoleId, Role>) {
    forall s {:trigger ServerRoles(roles, s)} :: |ServerRoles(roles, s)| <= MAX_ROLES_PER_SERVER
  }

  ghost predicate ChannelLimitOk(channels: map<ChannelId, Channel>) {
    forall s {:trigger CountedChannels(channels, s)} :: |CountedChannels(channels, s)| <= MAX_CHANNELS_PER_SERVER
  }

  /** Participant rows hang off direct messages, never off a server channel. */
  ghost predicate ParticipantsOk(channels: map<ChannelId, Channel>, participants: set<(ChannelId, AccountId)>) {
    forall c, a :: (c, a) in participants ==> c in channels && channels[c].server.None?
  }

  ghost predicate Inv(db: Db) {
    && RosterOk(db.servers, db.members, db.bans)
    && RolesOk(db.servers, db.roles)
    && DefaultsOk(db.servers, db.roles)
    && AssignmentsOk(db.members, db.roles)
    && ChannelsOk(db.servers, db.channels)
    && GrantsOk(db.channels, db.roles, db.grants)
    && RoleLimitOk(db.roles)
    && ChannelLimitOk(db.channels)
    && ParticipantsOk(db.channels, db.participants)
  }

  // ---- table by table ----

  lemma DefaultsKept(servers: map<ServerId, Server>, roles: map<RoleId, Role>,
                     servers': map<ServerId, Server>, roles': map<RoleId, Role>)
    requires DefaultsOk(servers, roles) && servers'.Keys <= servers.Keys
    requires forall r :: r in roles && roles[r].isDefault && roles[r].server in servers' ==>
               r in roles' && roles'[r].isDefault && roles'[r].server == roles[r].server
    ensures DefaultsOk(servers', roles')
  {
    forall s | s in servers'
      ensures HasDefault(roles', s)
    {
      assert HasDefault(roles, s);
      var r :| r in roles && roles[r].server == s && roles[r].isDefault;
      assert r in roles';
    }
  }

  lemma RoleLimitKept(roles: map<RoleId, Role>, roles': map<RoleId, Role>)
    requires RoleLimitOk(roles)
    requires forall r :: r in roles' ==> r in roles && roles'[r].server == roles[r].server
    ensures RoleLimitOk(roles')
  {
    forall s
      ensures |ServerRoles(roles', s)| <= MAX_ROLES_PER_SERVER
    {
      SubsetNoLarger(ServerRoles(roles', s), ServerRoles(roles, s));
    }
  }

  lemma RoleLimitAdd(roles: map<RoleId, Role>, id: RoleId, row: Role)
    requires RoleLimitOk(roles) && id !in roles
    requires |ServerRoles(roles, row.server)| < MAX_ROLES_PER_SERVER
    ensures RoleLimitOk(roles[id := row])
  {
    var next := roles[id := row];
    forall s
      ensures |ServerRoles(next, s)| <= MAX_ROLES_PER_SERVER
    {
      if s == row.server {
        assert ServerRoles(next, s) == ServerRoles(roles, s) + {id};
      } else {
        assert ServerRoles(next, s) == ServerRoles(roles, s);
      }
    }
  }

  lemma ChannelLimitKept(channels: map<ChannelId, Channel>, channels': map<ChannelId, Channel>)
    requires ChannelLimitOk(channels)
    requires forall c :: c in channels' ==>
               c in channels && channels'[c].server == channels[c].server &&
               channels'[c].kind == channels[c].kind && (channels[c].deleted ==> channels'[c].deleted)
    ensures ChannelLimitOk(channels')
  {
    forall s
      ensures |CountedChannels(channels', s)| <= MAX_CHANNELS_PER_SERVER
    {
      SubsetNoLarger(CountedChannels(channels', s), CountedChannels(channels, s));
    }
  }

  lemma ChannelLimitAdd(channels: map<ChannelId, Channel>, id: ChannelId, row: Channel)
    requires ChannelLimitOk(channels) && id !in channels
    requires row.server.Some? && (row.kind == Text || row.kind == Voice) ==>
               |CountedChannels(channels, row.server.value)| < MAX_CHANNELS_PER_SERVER
    ensures ChannelLimitOk(channels[id := row])
  {
    var next := channels[id := row];
    forall s
      ensures |CountedChannels(next, s)| <= MAX_CHANNELS_PER_SERVER
    {
      if row.server == Some(s) && (row.kind == Text || row.kind == Voice) {
        SubsetNoLarger(CountedChannels(next, s), CountedChannels(channels, s) + {id});
      } else {
        SubsetNoLarger(CountedChannels(next, s), CountedChannels(channels, s));
      }
    }
  }

  lemma ChannelsAdd(servers: map<ServerId, Server>, channels: map<ChannelId, Channel>, id: ChannelId, row: Channel)
    requires ChannelsOk(servers, channels) && id !in channels
    requires ChannelOk(servers, channels[id := row], id)
    ensures ChannelsOk(servers, channels[id := row])
  {
    var next := channels[id := row];
    forall c | c in next
      ensures ChannelOk(servers, next, c)
    {
      if c != id {
        assert ChannelOk(servers, channels, c);
      }
    }
  }

  lemma ChannelsEdit(servers: map<ServerId, Server>, channels: map<ChannelId, Channel>, c: ChannelId, row: Channel)
    requires ChannelsOk(servers, channels) && c in channels
    requires row == channels[c].(visibility := row.visibility, restricted := row.restricted)
    requires row.restricted ==> row.kind == Text || row.kind == Voice
    ensures ChannelsOk(servers, channels[c := row])
  {
    var next := channels[c := row];
    forall d | d in next
      ensures ChannelOk(servers, next, d)
    {
      assert ChannelOk(servers, channels, d);
    }
  }

  lemma ChannelsDelete(
    servers: map<ServerId, Server>, channels: map<ChannelId, Channel>, target: ChannelId, v: Visibility)
    requires ChannelsOk(servers, channels) && Live(channels, target)
    ensures ChannelsOk(servers, Deleted(channels, target, v))
  {
    assert ChannelOk(servers, channels, target);
    var next := Deleted(channels, target, v);
    forall c | c in next
      ensures ChannelOk(servers, next, c)
    {
      assert ChannelOk(servers, channels, c);
    }
  }

  lemma ChannelsWithout(servers: map<ServerId, Server>, channels: map<ChannelId, Channel>, s: ServerId)
    requires ChannelsOk(servers, channels)
    ensures ChannelsOk(servers - {s}, map c | c in channels && channels[c].server != Some(s) :: channels[c])
  {
    var next := map c | c in channels && channels[c].server != Some(s) :: channels[c];
    forall c | c in next
      ensures ChannelOk(servers - {s}, next, c)
    {
      assert ChannelOk(servers, channels, c);
    }
  }

  lemma ChannelsOtherServers(
    servers: map<ServerId, Server>, servers': map<ServerId, Server>, channels: map<ChannelId, Channel>)
    requires ChannelsOk(servers, channels) && servers.Keys <= servers'.Keys
    ensures ChannelsOk(servers', channels)
  {
    forall c | c in channels
      ensures ChannelOk(servers', channels, c)
    {
      assert ChannelOk(servers, channels, c);
    }
  }

  lemma RolesAdd(servers: map<ServerId, Server>, roles: map<RoleId, Role>, id: RoleId, row: Role)
    requires RolesOk(servers, roles) && id !in roles && row.server in servers
    requires !row.isDefault && row.position > 0 && row.permissions <= KNOWN
    requires forall r :: r in roles && roles[r].server == row.server ==> roles[r].position < row.position
    ensures RolesOk(servers, roles[id := row])
  {
  }

  /** Only `position` changes; `order[i]` ends at `|order| - i` and every other role keeps its own. */
  lemma {:induction false} RepositionedPositions(roles: map<RoleId, Role>, order: seq<RoleId>)
    requires Distinct(order) && Elements(order) <= roles.Keys
    ensures Repositioned(roles, order).Keys == roles.Keys
    ensures forall i :: 0 <= i < |order| ==> order[i] in roles
    ensures forall i :: 0 <= i < |order| ==>
              Repositioned(roles, order)[order[i]] == roles[order[i]].(position := NewPosition(order, i))
    ensures forall r :: r in roles && r !in order ==> Repositioned(roles, order)[r] == roles[r]
  {
    if order == [] {
    } else {
      var rest := order[1..];
      assert forall x :: x in rest ==> x in order;
      assert order[0] in Elements(order);
      RepositionedPositions(roles, rest);
      var next := Repositioned(roles, order);
      forall i | 0 <= i < |order|
        ensures order[i] in roles
        ensures next[order[i]] == roles[order[i]].(position := NewPosition(order, i))
      {
        if i > 0 {
          assert order[i] == rest[i - 1];
          assert order[i] != order[0];
        } else {
          assert order[0] !in rest;
        }
      }
      forall r | r in roles && r !in order
        ensures next[r] == roles[r]
      {
        assert r !in rest;
      }
    }
  }

  /** `RepositionedPositions`, one role at a time. */
  lemma {:induction false} RepositionedRow(
    roles: map<RoleId, Role>, s: ServerId, order: seq<RoleId>, r: RoleId) returns (i: int)
    requires Distinct(order) && Elements(order) == NonDefaultRoles(roles, s) && r in roles
    ensures r in Repositioned(roles, order)
    ensures r in NonDefaultRoles(roles, s) <==> 0 <= i < |order|
    ensures 0 <= i < |order| ==>
              order[i] == r && Repositioned(roles, order)[r] == roles[r].(position := NewPosition(order, i))
    ensures !(0 <= i < |order|) ==> Repositioned(roles, order)[r] == roles[r]
  {
    RepositionedPositions(roles, order);
    assert r in NonDefaultRoles(roles, s) <==> r in order;
    if r in order {
      i :| 0 <= i < |order| && order[i] == r;
    } else {
      i := -1;
    }
  }

  lemma {:induction false} RolesReorder(
    servers: map<ServerId, Server>, roles: map<RoleId, Role>, s: ServerId, order: seq<RoleId>)
    requires RolesOk(servers, roles)
    requires Distinct(order) && Elements(order) == NonDefaultRoles(roles, s)
    ensures RolesOk(servers, Repositioned(roles, order))
    ensures Repositioned(roles, order).Keys == roles.Keys
    ensures forall r :: r in roles ==> Repositioned(roles, order)[r].server == roles[r].server
    ensures forall r :: r in roles ==> Repositioned(roles, order)[r].isDefault == roles[r].isDefault
  {
    var next := Repositioned(roles, order);
    assert next.Keys == roles.Keys by {
      RepositionedPositions(roles, order);
    }
    forall r | r in roles
      ensures next[r] == roles[r].(position := next[r].position)
      ensures next[r].position >= 0
      ensures next[r].isDefault <==> next[r].position == 0
    {
      var i := RepositionedRow(roles, s, order, r);
    }
    forall r, q | r in next && q in next && r != q && next[r].server == next[q].server
      ensures next[r].position != next[q].position
    {
      var i := RepositionedRow(roles, s, order, r);
      var j := RepositionedRow(roles, s, order, q);
    }
  }

  lemma RolesEdit(servers: map<ServerId, Server>, roles: map<RoleId, Role>, id: RoleId, row: Role)
    requires RolesOk(servers, roles) && id in roles && row.permissions <= KNOWN
    requires row.server == roles[id].server && row.position == roles[id].position &&
        row.isDefault == roles[id].isDefault
    ensures RolesOk(servers, roles[id := row])
  {
  }

  lemma RolesKept(servers: map<ServerId, Server>, roles: map<RoleId, Role>,
                  servers': map<ServerId, Server>, roles': map<RoleId, Role>)
    requires RolesOk(servers, roles) && servers.Keys <= servers'.Keys
    requires forall r :: r in roles' ==> r in roles && roles'[r] == roles[r]
    ensures RolesOk(servers', roles')
  {
  }

  lemma RolesWithout(servers: map<ServerId, Server>, roles: map<RoleId, Role>, s: ServerId)
    requires RolesOk(servers, roles)
    ensures RolesOk(servers - {s}, map r | r in roles && roles[r].server != s :: roles[r])
  {
  }

  lemma AssignmentsKept(members: map<(ServerId, AccountId), Member>, roles: map<RoleId, Role>,
                        members': map<(ServerId, AccountId), Member>, roles': map<RoleId, Role>)
    requires AssignmentsOk(members, roles)
    requires forall s, a, r :: (s, a) in members' && r in members'[(s, a)].roles ==>
               (s, a) in members && r in members[(s, a)].roles
    requires forall s, a, r ::
               ((s, a) in members' && r in members'[(s, a)].roles && r in roles && roles[r].server == s) ==> r in roles'
    requires forall r :: r in roles && r in roles' ==>
               roles'[r].server == roles[r].server && roles'[r].isDefault == roles[r].isDefault
    ensures AssignmentsOk(members', roles')
  {
  }

  lemma AssignmentsReplace(
    members: map<(ServerId, AccountId), Member>, roles: map<RoleId, Role>,
    s: ServerId, target: AccountId, row: Member)
    requires AssignmentsOk(members, roles)
    requires forall r :: r in row.roles ==> r in roles && roles[r].server == s && !roles[r].isDefault
    ensures AssignmentsOk(members[(s, target) := row], roles)
  {
  }

  lemma GrantsKept(
    channels: map<ChannelId, Channel>, roles: map<RoleId, Role>, grants: map<(ChannelId, RoleId), Mask>,
    channels': map<ChannelId, Channel>, roles': map<RoleId, Role>, grants': map<(ChannelId, RoleId), Mask>)
    requires GrantsOk(channels, roles, grants)
    requires forall c, r ::
               ((c, r) in grants' && c in channels && r in roles && channels[c].server == Some(roles[r].server)) ==>
                 (c, r) in grants && c in channels' && r in roles'
    requires grants'.Keys <= grants.Keys
    requires forall c :: c in channels && c in channels' ==> channels'[c].server == channels[c].server
    requires forall r :: r in roles && r in roles' ==> roles'[r].server == roles[r].server
    ensures GrantsOk(channels', roles', grants')
  {
  }

  lemma ParticipantsKept(
    channels: map<ChannelId, Channel>, participants: set<(ChannelId, AccountId)>,
    channels': map<ChannelId, Channel>, participants': set<(ChannelId, AccountId)>)
    requires ParticipantsOk(channels, participants)
    requires forall c, a :: (c, a) in participants' ==>
               (c, a) in participants || (c in channels' && channels'[c].server.None?)
    requires forall c :: c in channels && channels[c].server.None? ==> c in channels' && channels'[c].server.None?
    ensures ParticipantsOk(channels', participants')
  {
  }

  lemma GrantsAdd(
    channels: map<ChannelId, Channel>, roles: map<RoleId, Role>, grants: map<(ChannelId, RoleId), Mask>,
    c: ChannelId, r: RoleId, bits: Mask)
    requires GrantsOk(channels, roles, grants)
    requires c in channels && r in roles && channels[c].server == Some(roles[r].server)
    ensures GrantsOk(channels, roles, grants[(c, r) := bits])
  {
  }

  lemma RosterAdd(
    servers: map<ServerId, Server>, members: map<(ServerId, AccountId), Member>, bans: set<(ServerId, AccountId)>,
    s: ServerId, a: AccountId, row: Member)
    requires RosterOk(servers, members, bans)
    requires s in servers && (s, a) !in members && (s, a) !in bans && !row.isOwner
    ensures RosterOk(servers, members[(s, a) := row], bans)
  {
  }

  lemma RosterRemove(
    servers: map<ServerId, Server>, members: map<(ServerId, AccountId), Member>, bans: set<(ServerId, AccountId)>,
    s: ServerId, a: AccountId, bans': set<(ServerId, AccountId)>)
    requires RosterOk(servers, members, bans)
    requires (s, a) in members && !members[(s, a)].isOwner && bans' <= bans + {(s, a)}
    ensures RosterOk(servers, members - {(s, a)}, bans')
  {
  }

  lemma RosterUnban(
    servers: map<ServerId, Server>, members: map<(ServerId, AccountId), Member>, bans: set<(ServerId, AccountId)>,
    s: ServerId, a: AccountId)
    requires RosterOk(servers, members, bans)
    ensures RosterOk(servers, members, bans - {(s, a)})
  {
  }

  lemma RosterEdit(
    servers: map<ServerId, Server>, members: map<(ServerId, AccountId), Member>, bans: set<(ServerId, AccountId)>,
    members': map<(ServerId, AccountId), Member>)
    requires RosterOk(servers, members, bans) && members'.Keys == members.Keys
    requires forall k :: k in members ==> members'[k].isOwner == members[k].isOwner
    ensures RosterOk(servers, members', bans)
  {
  }

  lemma RosterServer(
    servers: map<ServerId, Server>, members: map<(ServerId, AccountId), Member>, bans: set<(ServerId, AccountId)>,
    s: ServerId, row: Server)
    requires RosterOk(servers, members, bans) && s in servers && row.owner == servers[s].owner
    ensures RosterOk(servers[s := row], members, bans)
  {
  }

  lemma RosterNewServer(
    servers: map<ServerId, Server>, members: map<(ServerId, AccountId), Member>, bans: set<(ServerId, AccountId)>,
    s: ServerId, actor: AccountId, v: Visibility)
    requires RosterOk(servers, members, bans) && s !in servers
    ensures RosterOk(servers[s := Server(actor, v)], members[(s, actor) := Member(true, {}, None)], bans)
  {
  }

  lemma RosterWithout(
    servers: map<ServerId, Server>, members: map<(ServerId, AccountId), Member>, bans: set<(ServerId, AccountId)>,
    s: ServerId)
    requires RosterOk(servers, members, bans)
    ensures RosterOk(servers - {s},
                     map k | k in members && k.0 != s :: members[k],
                     set k | k in bans && k.0 != s)
  {
  }

  lemma RolesNewServer(
    servers: map<ServerId, Server>, roles: map<RoleId, Role>, s: ServerId, id: RoleId, server: Server, row: Role)
    requires RolesOk(servers, roles) && DefaultsOk(servers, roles) && RoleLimitOk(roles)
    requires s !in servers && id !in roles && row.server == s && row.isDefault && row.position == 0 &&
        row.permissions == {}
    ensures RolesOk(servers[s := server], roles[id := row])
    ensures DefaultsOk(servers[s := server], roles[id := row])
    ensures RoleLimitOk(roles[id := row])
  {
    assert ServerRoles(roles, s) == {};
    RoleLimitAdd(roles, id, row);
    DefaultsKept(servers, roles, servers, roles[id := row]);
    assert HasDefault(roles[id := row], s) by {
      assert roles[id := row][id].isDefault;
    }
  }

  // ---- by kind of change ----

  lemma AddRoleKeeps(db: Db, id: RoleId, row: Role)
    requires Inv(db) && id !in db.roles && row.server in db.servers
    requires !row.isDefault && row.position > 0 && row.permissions <= KNOWN
    requires forall r :: r in db.roles && db.roles[r].server == row.server ==> db.roles[r].position < row.position
    requires |ServerRoles(db.roles, row.server)| < MAX_ROLES_PER_SERVER
    ensures Inv(db.(roles := db.roles[id := row]))
  {
    hide RosterOk, RolesOk, DefaultsOk, AssignmentsOk, ChannelsOk, GrantsOk, RoleLimitOk, ChannelLimitOk,
      ParticipantsOk;
    var next := db.roles[id := row];
    RolesAdd(db.servers, db.roles, id, row);
    RoleLimitAdd(db.roles, id, row);
    DefaultsKept(db.servers, db.roles, db.servers, next);
    AssignmentsKept(db.members, db.roles, db.members, next);
    GrantsKept(db.channels, db.roles, db.grants, db.channels, next, db.grants);
  }

  lemma EditRolesKeeps(db: Db, next: map<RoleId, Role>)
    requires Inv(db) && next.Keys == db.roles.Keys && RolesOk(db.servers, next)
    requires forall r :: r in next ==>
               next[r].server == db.roles[r].server && next[r].isDefault == db.roles[r].isDefault
    ensures Inv(db.(roles := next))
  {
    hide RosterOk, RolesOk, DefaultsOk, AssignmentsOk, ChannelsOk, GrantsOk, RoleLimitOk, ChannelLimitOk,
      ParticipantsOk;
    RoleLimitKept(db.roles, next);
    DefaultsKept(db.servers, db.roles, db.servers, next);
    AssignmentsKept(db.members, db.roles, db.members, next);
    GrantsKept(db.channels, db.roles, db.grants, db.channels, next, db.grants);
  }

  lemma RosterChangeKeeps(
    db: Db, members: map<(ServerId, AccountId), Member>, bans: set<(ServerId, AccountId)>)
    requires Inv(db)
    requires RosterOk(db.servers, members, bans) && AssignmentsOk(members, db.roles)
    ensures Inv(db.(members := members, bans := bans))
  {
    hide RosterOk, RolesOk, DefaultsOk, AssignmentsOk, ChannelsOk, GrantsOk, RoleLimitOk, ChannelLimitOk,
      ParticipantsOk;
  }

  lemma AddChannelKeeps(db: Db, id: ChannelId, row: Channel, participants: set<(ChannelId, AccountId)>)
    requires Inv(db) && id !in db.channels
    requires ChannelOk(db.servers, db.channels[id := row], id)
    requires row.server.Some? && (row.kind == Text || row.kind == Voice) ==>
               |CountedChannels(db.channels, row.server.value)| < MAX_CHANNELS_PER_SERVER
    requires forall c, a :: (c, a) in participants ==> (c, a) in db.participants || (c == id && row.server.None?)
    ensures Inv(db.(channels := db.channels[id := row], participants := participants))
  {
    hide RosterOk, RolesOk, DefaultsOk, AssignmentsOk, ChannelsOk, GrantsOk, RoleLimitOk, ChannelLimitOk,
      ParticipantsOk;
    ChannelsAdd(db.servers, db.channels, id, row);
    ChannelLimitAdd(db.channels, id, row);
    ParticipantsKept(db.channels, db.participants, db.channels[id := row], participants);
    GrantsKept(db.channels, db.roles, db.grants, db.channels[id := row], db.roles, db.grants);
  }

  lemma EditChannelsKeeps(db: Db, next: map<ChannelId, Channel>)
    requires Inv(db) && next.Keys == db.channels.Keys && ChannelsOk(db.servers, next)
    requires forall c :: c in next ==>
               next[c].server == db.channels[c].server && next[c].kind == db.channels[c].kind &&
               (db.channels[c].deleted ==> next[c].deleted)
    ensures Inv(db.(channels := next))
  {
    hide RosterOk, RolesOk, DefaultsOk, AssignmentsOk, ChannelsOk, GrantsOk, RoleLimitOk, ChannelLimitOk,
      ParticipantsOk;
    ChannelLimitKept(db.channels, next);
    ParticipantsKept(db.channels, db.participants, next, db.participants);
    GrantsKept(db.channels, db.roles, db.grants, next, db.roles, db.grants);
  }

  // ---- every step ----

  lemma CreateServerKeeps(db: Db, actor: AccountId, s: ServerId, everyone: RoleId, v: Visibility)
    requires Inv(db) && CreateServer(db, actor, s, everyone, v).Ok?
    ensures Inv(CreateServer(db, actor, s, everyone, v).value)
  {
    hide RosterOk, RolesOk, DefaultsOk, AssignmentsOk, ChannelsOk, GrantsOk, RoleLimitOk, ChannelLimitOk,
      ParticipantsOk;
    var row := Role(s, "everyone", None, {}, 0, true, false);
    var next := CreateServer(db, actor, s, everyone, v).value;
    RolesNewServer(db.servers, db.roles, s, everyone, next.servers[s], row);
    RosterNewServer(db.servers, db.members, db.bans, s, actor, v);
    ChannelsOtherServers(db.servers, next.servers, db.channels);
    AssignmentsReplace(db.members, db.roles, s, actor, next.members[(s, actor)]);
    AssignmentsKept(next.members, db.roles, next.members, next.roles);
    GrantsKept(db.channels, db.roles, db.grants, db.channels, next.roles, db.grants);
  }

  lemma DeleteServerKeeps(db: Db, s: ServerId)
    requires Inv(db)
    ensures Inv(WithoutServer(db, s))
  {
    hide RosterOk, RolesOk, DefaultsOk, AssignmentsOk, ChannelsOk, GrantsOk, RoleLimitOk, ChannelLimitOk,
      ParticipantsOk;
    var next := WithoutServer(db, s);
    RosterWithout(db.servers, db.members, db.bans, s);
    RolesWithout(db.servers, db.roles, s);
    DefaultsKept(db.servers, db.roles, next.servers, next.roles);
    RoleLimitKept(db.roles, next.roles);
    ChannelLimitKept(db.channels, next.channels);
    ParticipantsKept(db.channels, db.participants, next.channels, next.participants);
    ChannelsWithout(db.servers, db.channels, s);
    AssignmentsKept(db.members, db.roles, next.members, next.roles);
    GrantsKept(db.channels, db.roles, db.grants, next.channels, next.roles, next.grants);
  }

  lemma VisibilityKeeps(db: Db, s: ServerId, v: Visibility)
    requires Inv(db) && s in db.servers
    ensures Inv(db.(servers := db.servers[s := db.servers[s].(visibility := v)]))
  {
    hide RosterOk, RolesOk, DefaultsOk, AssignmentsOk, ChannelsOk, GrantsOk, RoleLimitOk, ChannelLimitOk,
      ParticipantsOk;
    var row := db.servers[s].(visibility := v);
    RosterServer(db.servers, db.members, db.bans, s, row);
    RolesKept(db.servers, db.roles, db.servers[s := row], db.roles);
    ChannelsOtherServers(db.servers, db.servers[s := row], db.channels);
    DefaultsKept(db.servers, db.roles, db.servers[s := row], db.roles);
  }

  lemma {:induction false} CreateRoleTop(db: Db, s: ServerId)
    requires RolesOk(db.servers, db.roles)
    ensures MaxPosition(db.roles, ServerRoles(db.roles, s)) >= 0
    ensures forall r :: r in db.roles && db.roles[r].server == s ==>
              db.roles[r].position <= MaxPosition(db.roles, ServerRoles(db.roles, s))
  {
    assert forall r :: r in db.roles && db.roles[r].server == s ==> r in ServerRoles(db.roles, s);
  }

  lemma CreateRoleKeeps(db: Db, now: Time, actor: AccountId, s: ServerId, id: RoleId, name: string)
    requires Inv(db) && CreateRole(db, now, actor, s, id, name).Ok?
    ensures Inv(CreateRole(db, now, actor, s, id, name).value)
    ensures id !in db.roles
    ensures forall r :: r in db.roles && db.roles[r].server == s ==>
              db.roles[r].position < CreateRole(db, now, actor, s, id, name).value.roles[id].position
  {
    hide RolesOk, DefaultsOk, AssignmentsOk, ChannelsOk, GrantsOk, RoleLimitOk, ChannelLimitOk, ParticipantsOk;
    assert s in db.servers;
    CreateRoleTop(db, s);
    AddRoleKeeps(db, id, Role(s, name, None, {}, MaxPosition(db.roles, ServerRoles(db.roles, s)) + 1, false, false));
  }

  lemma UpdateRoleKeeps(db: Db, now: Time, actor: AccountId, s: ServerId, id: RoleId, patch: RolePatch)
    requires Inv(db) && UpdateRole(db, now, actor, s, id, patch).Ok?
    ensures Inv(UpdateRole(db, now, actor, s, id, patch).value)
  {
    hide RosterOk, RolesOk, DefaultsOk, AssignmentsOk, ChannelsOk, GrantsOk, RoleLimitOk, ChannelLimitOk,
      ParticipantsOk;
    var row := Patched(Context(db, s, actor), db.roles[id], patch);
    RolesEdit(db.servers, db.roles, id, row);
    EditRolesKeeps(db, db.roles[id := row]);
  }

  lemma DeleteRoleKeeps(db: Db, id: RoleId)
    requires Inv(db) && id in db.roles && !db.roles[id].isDefault
    ensures Inv(WithoutRole(db, id))
  {
    hide RosterOk, RolesOk, DefaultsOk, AssignmentsOk, ChannelsOk, GrantsOk, RoleLimitOk, ChannelLimitOk,
      ParticipantsOk;
    var next := WithoutRole(db, id);
    RosterEdit(db.servers, db.members, db.bans, next.members);
    RolesKept(db.servers, db.roles, db.servers, next.roles);
    RoleLimitKept(db.roles, next.roles);
    DefaultsKept(db.servers, db.roles, db.servers, next.roles);
    AssignmentsKept(db.members, db.roles, next.members, next.roles);
    GrantsKept(db.channels, db.roles, db.grants, db.channels, next.roles, next.grants);
  }

  lemma {:induction false} ReorderKeeps(db: Db, s: ServerId, order: seq<RoleId>)
    requires Inv(db) && Distinct(order) && Elements(order) == NonDefaultRoles(db.roles, s)
    ensures Inv(db.(roles := Repositioned(db.roles, order)))
  {
    hide RosterOk, RolesOk, DefaultsOk, AssignmentsOk, ChannelsOk, GrantsOk, RoleLimitOk, ChannelLimitOk,
      ParticipantsOk;
    RolesReorder(db.servers, db.roles, s, order);
    EditRolesKeeps(db, Repositioned(db.roles, order));
  }

  lemma SetMemberRolesKeeps(
    db: Db, now: Time, actor: AccountId, s: ServerId, target: AccountId, next: set<RoleId>)
    requires Inv(db) && SetMemberRoles(db, now, actor, s, target, next).Ok?
    ensures Inv(SetMemberRoles(db, now, actor, s, target, next).value)
  {
    hide RosterOk, RolesOk, DefaultsOk, AssignmentsOk, ChannelsOk, GrantsOk, RoleLimitOk, ChannelLimitOk,
      ParticipantsOk;
    var row := db.members[(s, target)].(roles := next);
    RosterEdit(db.servers, db.members, db.bans, db.members[(s, target) := row]);
    NextRolesAssignable(db, now, actor, s, target, next);
    AssignmentsReplace(db.members, db.roles, s, target, row);
    RosterChangeKeeps(db, db.members[(s, target) := row], db.bans);
  }

  lemma NextRolesAssignable(
    db: Db, now: Time, actor: AccountId, s: ServerId, target: AccountId, next: set<RoleId>)
    requires AssignmentsOk(db.members, db.roles) && SetMemberRoles(db, now, actor, s, target, next).Ok?
    ensures forall r :: r in next ==> r in db.roles && db.roles[r].server == s && !db.roles[r].isDefault
  {
  }

  lemma DeleteChannelKeeps(db: Db, target: ChannelId, v: Visibility)
    requires Inv(db) && Live(db.channels, target)
    ensures Inv(db.(channels := Deleted(db.channels, target, v)))
  {
    hide RosterOk, RolesOk, DefaultsOk, AssignmentsOk, ChannelsOk, GrantsOk, RoleLimitOk, ChannelLimitOk,
      ParticipantsOk;
    ChannelsDelete(db.servers, db.channels, target, v);
    EditChannelsKeeps(db, Deleted(db.channels, target, v));
  }

  lemma CreateChannelKeeps(db: Db, now: Time, actor: AccountId, s: ServerId, id: ChannelId, kind: Kind)
    requires Inv(db) && CreateChannel(db, now, actor, s, id, kind).Ok?
    ensures Inv(CreateChannel(db, now, actor, s, id, kind).value)
  {
    hide RolesOk, DefaultsOk, AssignmentsOk, GrantsOk, RoleLimitOk, ChannelLimitOk, ParticipantsOk;
    assert s in db.servers;
    AddChannelKeeps(db, id, Channel(Some(s), kind, None, None, false, None, false, None), db.participants);
  }

  lemma CreateThreadKeeps(db: Db, now: Time, actor: AccountId, parent: ChannelId, id: ChannelId, slug: string)
    requires Inv(db) && CreateThread(db, now, actor, parent, id, slug).Ok?
    ensures Inv(CreateThread(db, now, actor, parent, id, slug).value)
  {
    hide RolesOk, DefaultsOk, AssignmentsOk, GrantsOk, RoleLimitOk, ChannelLimitOk, ParticipantsOk;
    assert ChannelOk(db.servers, db.channels, parent);
    AddChannelKeeps(
      db, id, Channel(db.channels[parent].server, Thread, Some(parent), None, false, Some(slug), false, None),
      db.participants);
  }

  lemma OpenDmKeeps(db: Db, id: ChannelId, a: AccountId, b: AccountId)
    requires Inv(db) && OpenDm(db, id, a, b).Ok?
    ensures Inv(OpenDm(db, id, a, b).value)
  {
    hide RolesOk, DefaultsOk, AssignmentsOk, GrantsOk, RoleLimitOk, ChannelLimitOk, ParticipantsOk;
    AddChannelKeeps(
      db, id, Channel(None, Dm, None, None, false, None, false, None), db.participants + {(id, a), (id, b)});
  }

  lemma UpdateChannelRestrictedKeeps(db: Db, now: Time, actor: AccountId, s: ServerId, c: ChannelId, restricted: bool)
    requires Inv(db) && UpdateChannelRestricted(db, now, actor, s, c, restricted).Ok?
    ensures Inv(UpdateChannelRestricted(db, now, actor, s, c, restricted).value)
  {
    hide RolesOk, DefaultsOk, AssignmentsOk, GrantsOk, RoleLimitOk, ChannelLimitOk, ParticipantsOk;
    assert ChannelOk(db.servers, db.channels, c);
    ChannelsEdit(db.servers, db.channels, c, db.channels[c].(restricted := restricted));
    EditChannelsKeeps(db, db.channels[c := db.channels[c].(restricted := restricted)]);
  }

  lemma UpdateChannelVisibilityKeeps(
    db: Db, now: Time, actor: AccountId, s: ServerId, c: ChannelId, v: Option<Visibility>)
    requires Inv(db) && UpdateChannelVisibility(db, now, actor, s, c, v).Ok?
    ensures Inv(UpdateChannelVisibility(db, now, actor, s, c, v).value)
  {
    hide RolesOk, DefaultsOk, AssignmentsOk, GrantsOk, RoleLimitOk, ChannelLimitOk, ParticipantsOk;
    assert ChannelOk(db.servers, db.channels, c);
    ChannelsEdit(db.servers, db.channels, c, db.channels[c].(visibility := v));
    EditChannelsKeeps(db, db.channels[c := db.channels[c].(visibility := v)]);
  }

  lemma SetGrantKeeps(db: Db, c: ChannelId, r: RoleId, bits: Mask)
    requires Inv(db) && c in db.channels && r in db.roles && db.channels[c].server == Some(db.roles[r].server)
    ensures Inv(db.(grants := db.grants[(c, r) := bits]))
  {
    hide RosterOk, RolesOk, DefaultsOk, AssignmentsOk, ChannelsOk, GrantsOk, RoleLimitOk, ChannelLimitOk,
      ParticipantsOk;
    GrantsAdd(db.channels, db.roles, db.grants, c, r, bits);
  }

  lemma JoinKeeps(db: Db, actor: AccountId, s: ServerId)
    requires Inv(db) && JoinViaInvite(db, actor, s).Ok?
    ensures Inv(JoinViaInvite(db, actor, s).value)
  {
    hide RosterOk, RolesOk, DefaultsOk, AssignmentsOk, ChannelsOk, GrantsOk, RoleLimitOk, ChannelLimitOk,
      ParticipantsOk;
    var row := Member(false, {}, None);
    RosterAdd(db.servers, db.members, db.bans, s, actor, row);
    AssignmentsReplace(db.members, db.roles, s, actor, row);
  }

  lemma RemoveMemberKeeps(db: Db, s: ServerId, target: AccountId, bans: set<(ServerId, AccountId)>)
    requires Inv(db) && (s, target) in db.members && !db.members[(s, target)].isOwner
    requires bans <= db.bans + {(s, target)}
    ensures Inv(db.(members := db.members - {(s, target)}, bans := bans))
  {
    hide RosterOk, RolesOk, DefaultsOk, AssignmentsOk, ChannelsOk, GrantsOk, RoleLimitOk, ChannelLimitOk,
      ParticipantsOk;
    RosterRemove(db.servers, db.members, db.bans, s, target, bans);
    AssignmentsKept(db.members, db.roles, db.members - {(s, target)}, db.roles);
  }

  lemma UnbanKeeps(db: Db, s: ServerId, target: AccountId)
    requires Inv(db)
    ensures Inv(db.(bans := db.bans - {(s, target)}))
  {
    hide RosterOk, RolesOk, DefaultsOk, AssignmentsOk, ChannelsOk, GrantsOk, RoleLimitOk, ChannelLimitOk,
      ParticipantsOk;
    RosterUnban(db.servers, db.members, db.bans, s, target);
  }

  lemma SetTimeoutKeeps(db: Db, s: ServerId, target: AccountId, until: Option<Time>)
    requires Inv(db) && (s, target) in db.members
    ensures Inv(SetTimeout(db, s, target, until))
  {
    hide RosterOk, RolesOk, DefaultsOk, AssignmentsOk, ChannelsOk, GrantsOk, RoleLimitOk, ChannelLimitOk,
      ParticipantsOk;
    var members := SetTimeout(db, s, target, until).members;
    RosterEdit(db.servers, db.members, db.bans, members);
    AssignmentsKept(db.members, db.roles, members, db.roles);
  }

  lemma RosterStepKeepsInv(db: Db, now: Time, op: Op)
    requires Inv(db) && Apply(db, now, op).Ok?
    requires op.EditsRoster()
    ensures Inv(Apply(db, now, op).value)
  {
    hide Inv;
    match op
    case OpJoin(a, s) => JoinKeeps(db, a, s);
    case OpLeave(a, s) => RemoveMemberKeeps(db, s, a, db.bans);
    case OpKick(a, s, t) => RemoveMemberKeeps(db, s, t, db.bans);
    case OpBan(a, s, t) => RemoveMemberKeeps(db, s, t, db.bans + {(s, t)});
    case OpUnban(a, s, t) => UnbanKeeps(db, s, t);
    case OpTimeout(a, s, t, until) => SetTimeoutKeeps(db, s, t, Some(until));
    case OpClearTimeout(a, s, t) => SetTimeoutKeeps(db, s, t, None);
  }

  lemma ServerStepKeepsInv(db: Db, now: Time, op: Op)
    requires Inv(db) && Apply(db, now, op).Ok?
    requires op.EditsServers() || op.EditsRoles()
    ensures Inv(Apply(db, now, op).value)
  {
    hide Inv;
    match op
    case OpCreateServer(a, s, r, v) => CreateServerKeeps(db, a, s, r, v);
    case OpDeleteServer(a, s) => DeleteServerKeeps(db, s);
    case OpUpdateServerVisibility(a, s, v) => VisibilityKeeps(db, s, v);
    case OpCreateRole(a, s, r, name) => CreateRoleKeeps(db, now, a, s, r, name);
    case OpUpdateRole(a, s, r, patch) => UpdateRoleKeeps(db, now, a, s, r, patch);
    case OpDeleteRole(a, s, r) => DeleteRoleKeeps(db, r);
    case OpReorderRoles(a, s, order) => ReorderKeeps(db, s, order);
    case OpSetMemberRoles(a, s, t, next) => SetMemberRolesKeeps(db, now, a, s, t, next);
  }

  lemma ChannelStepKeepsInv(db: Db, now: Time, op: Op)
    requires Inv(db) && Apply(db, now, op).Ok?
    requires op.EditsChannels()
    ensures Inv(Apply(db, now, op).value)
  {
    hide Inv;
    match op
    case OpCreateChannel(a, s, c, kind) => CreateChannelKeeps(db, now, a, s, c, kind);
    case OpCreateThread(a, p, c, slug) => CreateThreadKeeps(db, now, a, p, c, slug);
    case OpDeleteChannel(a, s, c) => DeleteChannelKeeps(db, c, db.servers[s].visibility);
    case OpUpdateChannelVisibility(a, s, c, v) => UpdateChannelVisibilityKeeps(db, now, a, s, c, v);
    case OpUpdateChannelRestricted(a, s, c, b) => UpdateChannelRestrictedKeeps(db, now, a, s, c, b);
    case OpSetChannelRolePermission(a, s, c, r, bits) => SetGrantKeeps(db, c, r, bits * {VIEW_CHANNEL});
    case OpOpenDm(a, c, b) => OpenDmKeeps(db, c, a, b);
  }

  lemma StepKeepsInv(db: Db, now: Time, op: Op)
    requires Inv(db)
    ensures Inv(Next(db, now, op))
  {
    hide Inv;
    if Apply(db, now, op).Ok? {
      if op.EditsRoster() {
        RosterStepKeepsInv(db, now, op);
      } else if op.EditsChannels() {
        ChannelStepKeepsInv(db, now, op);
      } else {
        ServerStepKeepsInv(db, now, op);
      }
    }
  }

  lemma {:induction false} RunKeepsInv(db: Db, calls: seq<Call>, i: nat)
    requires Inv(db) && i <= |calls|
    ensures Inv(Run(db, calls)[i])
    decreases calls
  {
    hide Inv;
    if i == 0 {
    } else {
      StepKeepsInv(db, calls[0].now, calls[0].op);
      RunKeepsInv(Next(db, calls[0].now, calls[0].op), calls[1..], i - 1);
    }
  }

  lemma EmptyInv()
    ensures Inv(EMPTY)
  {
    assert forall s :: ServerRoles(EMPTY.roles, s) == {};
    assert forall s :: CountedChannels(EMPTY.channels, s) == {};
  }

  /** Every state any run reaches from empty tables satisfies the invariant. */
  lemma {:induction false} ReachableStatesSatisfyInv(calls: seq<Call>, i: nat)
    requires i <= |calls|
    ensures Inv(Run(EMPTY, calls)[i])
  {
    hide Inv;
    EmptyInv();
    RunKeepsInv(EMPTY, calls, i);
  }
}
