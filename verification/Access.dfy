/**
 Who may see a channel. One gate decides it (`require_channel_access`); four other
 operations decide it again in batched form, each resolving the restriction of a
 thread in its own way. In every reachable state they all agree.
 */
module Access {
  import opened Common
  import opened Permissions
  import opened Tables
  import opened Transitions
  import opened Invariants

  ghost predicate Admitted(db: Db, a: AccountId, c: ChannelId) {
    RequireChannelAccess(db, a, c).Ok?
  }

  function GrantTarget(db: Db, c: ChannelId): ChannelId
    requires c in db.channels
  {
    db.channels[c].parent.GetOr(c)
  }

  ghost predicate GrantedTo(db: Db, roles: set<RoleId>, c: ChannelId) {
    exists r :: r in roles && Grants(db.grants, c, r)
  }

  /** The rows of a listing the gate admits `a` to, in the listing's order. */
  ghost function AdmittedRows(db: Db, a: AccountId, rows: seq<ChannelId>): seq<ChannelId> {
    if rows == [] then []
    else
      var n := |rows| - 1;
      AdmittedRows(db, a, rows[..n]) + (if Admitted(db, a, rows[n]) then [rows[n]] else [])
  }

  lemma {:induction false} AdmittedRowsAreAdmitted(db: Db, a: AccountId, rows: seq<ChannelId>, c: ChannelId)
    ensures c in AdmittedRows(db, a, rows) <==> c in rows && Admitted(db, a, c)
  {
    hide Admitted;
    if rows != [] {
      AdmittedRowsAreAdmitted(db, a, rows[..|rows| - 1], c);
      assert rows == rows[..|rows| - 1] + [rows[|rows| - 1]];
    }
  }

  // ---- the batched forms, as their code resolves them ----

  /**
   `list_channels` and the search SQL look only at the parent's flag of a thread, only at a
   channel's own otherwise.
   */
  predicate ParentOrOwnRestricted(db: Db, c: ChannelId)
    requires c in db.channels
  {
    if db.channels[c].parent.Some? then ParentRestricted(db.channels, c) else db.channels[c].restricted
  }

  ghost predicate InListing(db: Db, a: AccountId, s: ServerId, c: ChannelId) {
    && (s, a) in db.members
    && Live(db.channels, c) && db.channels[c].server == Some(s)
    && (|| Context(db, s, a).Bypasses()
        || !ParentOrOwnRestricted(db, c)
        || GrantedTo(db, Context(db, s, a).roleIds, GrantTarget(db, c)))
  }

  /** `coalesce(parent.restricted, c.restricted)`: the parent's flag where the join found a parent row. */
  predicate CoalescedRestricted(db: Db, c: ChannelId)
    requires c in db.channels
  {
    if db.channels[c].parent.Some? && db.channels[c].parent.value in db.channels
    then db.channels[db.channels[c].parent.value].restricted
    else db.channels[c].restricted
  }

  ghost predicate InSearch(db: Db, a: AccountId, s: ServerId, c: ChannelId) {
    && (s, a) in db.members
    && Live(db.channels, c) && db.channels[c].server == Some(s)
    && (|| Context(db, s, a).Bypasses()
        || !CoalescedRestricted(db, c)
        || GrantedTo(db, Context(db, s, a).roleIds, GrantTarget(db, c)))
  }

  /** Bits of the one role `list_roles(..).find(is_default)` returns. */
  ghost function DefaultBits(db: Db, s: ServerId): Mask {
    if HasDefault(db.roles, s) then
      var r :| r in db.roles && db.roles[r].server == s && db.roles[r].isDefault;
      db.roles[r].permissions
    else {}
  }

  /**
   The per-member test of `channel_viewer_account_ids`; explicit assignments and the default
   role are treated apart.
   */
  ghost predicate RowSees(db: Db, s: ServerId, a: AccountId, target: ChannelId)
    requires (s, a) in db.members
  {
    var explicit := db.members[(s, a)].roles;
    || db.members[(s, a)].isOwner
    || ADMIN in DefaultBits(db, s) + AllBits(db.roles, ServerRoles(db.roles, s) * explicit)
    || GrantedTo(db, explicit, target)
  }

  ghost predicate DefaultGranted(db: Db, s: ServerId, target: ChannelId) {
    exists d :: d in ServerRoles(db.roles, s) && db.roles[d].isDefault && Grants(db.grants, target, d)
  }

  ghost predicate InViewers(db: Db, a: AccountId, c: ChannelId) {
    && Live(db.channels, c) && db.channels[c].server.Some?
    && var s := db.channels[c].server.value;
       && (s, a) in db.members
       && (|| !(db.channels[c].restricted || ParentRestricted(db.channels, c))
           || DefaultGranted(db, s, GrantTarget(db, c))
           || RowSees(db, s, a, GrantTarget(db, c)))
  }

  /** `accessible_channel_ids`: candidates by membership or participation, then one lookup each. */
  ghost predicate InAccessible(db: Db, a: AccountId, c: ChannelId) {
    && c in db.channels
    && (|| (IsServerKind(db.channels[c].kind) && db.channels[c].server.Some? &&
            (db.channels[c].server.value, a) in db.members && Live(db.channels, c))
        || ((c, a) in db.participants && !db.channels[c].deleted))
    && Live(db.channels, c)
    && (LookupChannel(db, c).value.restricted ==>
          db.channels[c].server.Some? && (db.channels[c].server.value, a) in db.members &&
          MemberCanView(db, db.channels[c].server.value, a, GrantTarget(db, c)))
  }

  // ---- agreement ----

  /** A thread's own flag is never set, so the three ways to resolve a restriction coincide. */
  lemma RestrictionsAgree(db: Db, c: ChannelId)
    requires ChannelsOk(db.servers, db.channels) && c in db.channels
    ensures ParentOrOwnRestricted(db, c) <==> db.channels[c].restricted || ParentRestricted(db.channels, c)
    ensures CoalescedRestricted(db, c) <==> db.channels[c].restricted || ParentRestricted(db.channels, c)
  {
    assert ChannelOk(db.servers, db.channels, c);
  }

  /** What a member holds is the default role and the explicit assignments, nothing else. */
  lemma HeldSplits(db: Db, s: ServerId, a: AccountId, d: RoleId)
    requires RolesOk(db.servers, db.roles) && AssignmentsOk(db.members, db.roles)
    requires (s, a) in db.members
    requires d in db.roles && db.roles[d].server == s && db.roles[d].isDefault
    ensures Context(db, s, a).roleIds == {d} + db.members[(s, a)].roles
    ensures DefaultBits(db, s) == db.roles[d].permissions
    ensures Context(db, s, a).permissions ==
            DefaultBits(db, s) + AllBits(db.roles, ServerRoles(db.roles, s) * db.members[(s, a)].roles)
  {
    var explicit := db.members[(s, a)].roles;
    assert Held(db.roles, s, explicit) == {d} + explicit;
    assert ServerRoles(db.roles, s) * explicit == explicit;
    assert HasDefault(db.roles, s);
  }

  lemma ServerChannel(db: Db, c: ChannelId)
    requires Inv(db) && c in db.channels && db.channels[c].server.Some?
    ensures db.channels[c].server.value in db.servers && IsServerKind(db.channels[c].kind)
    ensures ChannelOk(db.servers, db.channels, c)
    ensures HasDefault(db.roles, db.channels[c].server.value)
    ensures forall a :: (c, a) !in db.participants
  {
    hide RosterOk, RolesOk, AssignmentsOk, GrantsOk, RoleLimitOk, ChannelLimitOk, HasDefault;
    assert ChannelOk(db.servers, db.channels, c);
  }

  /** The gate on a server channel, in terms of the default role `d` and the explicit assignments. */
  ghost predicate AdmittedBySplit(db: Db, a: AccountId, s: ServerId, c: ChannelId, d: RoleId)
    requires c in db.channels && d in db.roles
  {
    && (s, a) in db.members
    && var explicit := db.members[(s, a)].roles;
       (|| !(db.channels[c].restricted || ParentRestricted(db.channels, c))
        || db.members[(s, a)].isOwner
        || ADMIN in db.roles[d].permissions + AllBits(db.roles, ServerRoles(db.roles, s) * explicit)
        || Grants(db.grants, GrantTarget(db, c), d)
        || GrantedTo(db, explicit, GrantTarget(db, c)))
  }

  lemma GateSplits(db: Db, a: AccountId, s: ServerId, c: ChannelId, d: RoleId)
    requires RolesOk(db.servers, db.roles) && AssignmentsOk(db.members, db.roles)
    requires Live(db.channels, c) && db.channels[c].server == Some(s) && IsServerKind(db.channels[c].kind)
    requires d in db.roles && db.roles[d].server == s && db.roles[d].isDefault
    ensures Admitted(db, a, c) <==> AdmittedBySplit(db, a, s, c, d)
  {
    if (s, a) in db.members {
      HeldSplits(db, s, a, d);
      hide RolesOk, AssignmentsOk, DefaultBits, AllBits, Held, MaxPosition;
      var explicit := db.members[(s, a)].roles;
      var target := GrantTarget(db, c);
      assert GrantedTo(db, {d} + explicit, target) <==>
             Grants(db.grants, target, d) || GrantedTo(db, explicit, target);
    }
  }

  lemma ViewersSplit(db: Db, a: AccountId, s: ServerId, c: ChannelId, d: RoleId)
    requires RolesOk(db.servers, db.roles) && AssignmentsOk(db.members, db.roles)
    requires Live(db.channels, c) && db.channels[c].server == Some(s)
    requires d in db.roles && db.roles[d].server == s && db.roles[d].isDefault
    ensures InViewers(db, a, c) <==> AdmittedBySplit(db, a, s, c, d)
  {
    assert DefaultBits(db, s) == db.roles[d].permissions by {
      assert HasDefault(db.roles, s);
    }
    assert d in ServerRoles(db.roles, s);
    assert forall e :: e in ServerRoles(db.roles, s) && db.roles[e].isDefault ==> e == d;
  }

  lemma ViewersMatchGate(db: Db, a: AccountId, c: ChannelId)
    requires Inv(db) && Live(db.channels, c) && db.channels[c].server.Some?
    ensures InViewers(db, a, c) <==> Admitted(db, a, c)
  {
    hide RosterOk, RolesOk, DefaultsOk, AssignmentsOk, ChannelsOk, ChannelOk, GrantsOk, RoleLimitOk, ChannelLimitOk,
      ParticipantsOk, InViewers, Admitted, AdmittedBySplit;
    var s := db.channels[c].server.value;
    ServerChannel(db, c);
    var d :| d in db.roles && db.roles[d].server == s && db.roles[d].isDefault;
    GateSplits(db, a, s, c, d);
    ViewersSplit(db, a, s, c, d);
  }

  lemma ChannelShape(db: Db, c: ChannelId)
    requires Inv(db) && c in db.channels
    ensures ChannelOk(db.servers, db.channels, c)
    ensures db.channels[c].server.Some? ==> forall a :: (c, a) !in db.participants
  {
    hide RosterOk, RolesOk, DefaultsOk, AssignmentsOk, GrantsOk, RoleLimitOk, ChannelLimitOk;
    assert ChannelOk(db.servers, db.channels, c);
  }

  /** The event list agrees with the gate on direct messages too, and on channels that are gone. */
  lemma AccessibleMatchesGate(db: Db, a: AccountId, c: ChannelId)
    requires Inv(db)
    ensures InAccessible(db, a, c) <==> Admitted(db, a, c)
  {
    hide Inv, Context, MemberCanView;
    if c in db.channels {
      ChannelShape(db, c);
    }
  }

  /**
   For a live channel of server `s`, all five answers are the same.
   */
  lemma FormsAgree(db: Db, a: AccountId, s: ServerId, c: ChannelId)
    requires Inv(db) && Live(db.channels, c) && db.channels[c].server == Some(s)
    ensures InListing(db, a, s, c) <==> Admitted(db, a, c)
    ensures InViewers(db, a, c) <==> Admitted(db, a, c)
    ensures InAccessible(db, a, c) <==> Admitted(db, a, c)
    ensures InSearch(db, a, s, c) <==> Admitted(db, a, c)
  {
    hide RosterOk, RolesOk, DefaultsOk, AssignmentsOk, ChannelsOk, ChannelOk, GrantsOk, RoleLimitOk, ChannelLimitOk,
      ParticipantsOk, InViewers, Context;
    ViewersMatchGate(db, a, c);
    AccessibleMatchesGate(db, a, c);
    hide InAccessible;
    ServerChannel(db, c);
    RestrictionsAgree(db, c);
  }

  /** The agreement, in every state any run reaches. */
  lemma {:induction false} FormsAgreeAlways(calls: seq<Call>, i: nat, db: Db, a: AccountId, s: ServerId, c: ChannelId)
    requires i <= |calls| && db == Run(EMPTY, calls)[i]
    requires Live(db.channels, c) && db.channels[c].server == Some(s)
    ensures InListing(db, a, s, c) <==> Admitted(db, a, c)
    ensures InViewers(db, a, c) <==> Admitted(db, a, c)
    ensures InAccessible(db, a, c) <==> Admitted(db, a, c)
    ensures InSearch(db, a, s, c) <==> Admitted(db, a, c)
  {
    hide *;
    ReachableStatesSatisfyInv(calls, i);
    FormsAgree(db, a, s, c);
  }
}
