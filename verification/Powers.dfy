/**
 What a permission bit is needed for. If no role of a server carries a bit, nor
 `ADMIN`, then over any run without the owner the things that bit governs stay as
 they were, whoever calls what.
 */
module Powers {
  import opened Common
  import opened Permissions
  import opened Tables
  import opened Transitions
  import opened Invariants
  import opened Hierarchy

  /** No role changes and nobody gains one. */
  ghost predicate RolesUntouched(db: Db, next: Db, s: ServerId) {
    && (forall r :: r in db.roles && db.roles[r].server == s ==> r in next.roles && next.roles[r] == db.roles[r])
    && (forall r :: r in next.roles && next.roles[r].server == s ==> r in db.roles && db.roles[r].server == s)
    && (forall a, r :: (s, a) in next.members && r in next.members[(s, a)].roles ==>
          (s, a) in db.members && r in db.members[(s, a)].roles)
  }

  /** No channel is deleted, restricted or opened, none but threads appear, and no grant is added or edited. */
  ghost predicate ChannelsUntouched(db: Db, next: Db, s: ServerId) {
    && (forall c :: c in db.channels && db.channels[c].server == Some(s) ==>
          c in next.channels && next.channels[c] == db.channels[c].(visibility := next.channels[c].visibility))
    && (forall c :: c in next.channels && next.channels[c].server == Some(s) ==>
          next.channels[c].kind == Thread || (c in db.channels && db.channels[c].server == Some(s)))
    && (forall c, r :: (c, r) in next.grants && c in db.channels && db.channels[c].server == Some(s) ==>
          (c, r) in db.grants && next.grants[(c, r)] == db.grants[(c, r)])
  }

  ghost predicate VisibilityUntouched(db: Db, next: Db, s: ServerId) {
    forall c :: c in db.channels && db.channels[c].server == Some(s) ==>
      c in next.channels && next.channels[c].server == Some(s) &&
      next.channels[c].visibility == db.channels[c].visibility
  }

  ghost predicate BansUntouched(db: Db, next: Db, s: ServerId) {
    forall a :: (s, a) in next.bans <==> (s, a) in db.bans
  }

  /** Nobody is newly timed out; a timeout goes only with the membership. */
  ghost predicate TimeoutsUntouched(db: Db, next: Db, s: ServerId) {
    forall a :: (s, a) in next.members ==>
      next.members[(s, a)].timeoutUntil == None ||
      ((s, a) in db.members && next.members[(s, a)].timeoutUntil == db.members[(s, a)].timeoutUntil)
  }

  /** Everybody stays who did not leave. */
  ghost predicate MembersStay(db: Db, next: Db, s: ServerId, leavers: set<AccountId>) {
    forall a :: (s, a) in db.members && a !in leavers ==> (s, a) in next.members
  }

  ghost predicate Untouched(db: Db, next: Db, s: ServerId, lacking: Mask, leavers: set<AccountId>) {
    && (MANAGE_ROLES in lacking ==> RolesUntouched(db, next, s))
    && (MANAGE_CHANNELS in lacking ==> ChannelsUntouched(db, next, s))
    && (MANAGE_VISIBILITY in lacking ==> VisibilityUntouched(db, next, s))
    && (BAN in lacking ==> BansUntouched(db, next, s))
    && (TIMEOUT_MEMBERS in lacking ==> TimeoutsUntouched(db, next, s))
    && (KICK in lacking && BAN in lacking ==> MembersStay(db, next, s, leavers))
  }

  /** No role of the server carries any of these bits, and `ADMIN` is one of them. */
  predicate Lacks(roles: map<RoleId, Role>, s: ServerId, lacking: Mask) {
    ADMIN in lacking && lacking !! BitsOf(roles, s)
  }

  /** The accounts that call leave on `s` in the run. */
  function Leavers(calls: seq<Call>, s: ServerId): set<AccountId> {
    set i | 0 <= i < |calls| && calls[i].op.OpLeave? && calls[i].op.server == s :: calls[i].op.actor
  }

  // ---- one step ----

  /** Without the bit, without `ADMIN` and without owning the server there is no way past the gate. */
  lemma NoBitNoGate(db: Db, now: Time, s: ServerId, a: AccountId, bit: Bit, lacking: Mask)
    requires Inv(db) && s in db.servers && db.servers[s].owner != a
    requires Lacks(db.roles, s, lacking) && bit in lacking
    ensures Gate(db, now, s, a, bit).Err?
  {
    hide RolesOk, DefaultsOk, AssignmentsOk, ChannelsOk, GrantsOk, RoleLimitOk, ChannelLimitOk, ParticipantsOk;
    if (s, a) in db.members {
      var ctx := Context(db, s, a);
      assert !ctx.isOwner;
      assert ctx.permissions <= BitsOf(db.roles, s);
    }
  }

  /** Which bit a call on a server needs, if any. */
  function NeededBit(op: Op): Option<Bit> {
    if op.EditsRoles() then Some(MANAGE_ROLES)
    else if op.OpKick? then Some(KICK)
    else if op.OpBan? || op.OpUnban? then Some(BAN)
    else if op.OpTimeout? || op.OpClearTimeout? then Some(TIMEOUT_MEMBERS)
    else if op.OpCreateChannel? || op.OpDeleteChannel? || op.OpUpdateChannelRestricted? ||
        op.OpSetChannelRolePermission?
    then Some(MANAGE_CHANNELS)
    else if op.OpUpdateChannelVisibility? then Some(MANAGE_VISIBILITY)
    else None
  }

  lemma GatedByBit(db: Db, now: Time, op: Op)
    requires NeededBit(op).Some? && Apply(db, now, op).Ok?
    ensures Gate(db, now, op.server, op.actor, NeededBit(op).value).Ok?
  {
    hide Context, Gate, RequireChannelAccess;
  }

  /** The call succeeds on server `s` with a bit behind it. */
  ghost predicate Uses(db: Db, now: Time, op: Op, s: ServerId, bit: Bit) {
    Apply(db, now, op).Ok? && NeededBit(op) == Some(bit) && op.server == s
  }

  lemma LackingIsUnused(db: Db, now: Time, op: Op, s: ServerId, bit: Bit, lacking: Mask)
    requires Inv(db) && s in db.servers && db.servers[s].owner != op.actor
    requires Lacks(db.roles, s, lacking) && bit in lacking
    ensures !Uses(db, now, op, s, bit)
  {
    hide Inv, Lacks, Apply, Gate;
    if Uses(db, now, op, s, bit) {
      GatedByBit(db, now, op);
      NoBitNoGate(db, now, s, op.actor, bit, lacking);
    }
  }

  /** Calls that are not about channels write no channel row and add no grant. */
  ghost predicate ChannelsOnlyShrink(db: Db, next: Db, s: ServerId) {
    && (forall c :: c in next.channels ==> c in db.channels && next.channels[c] == db.channels[c])
    && (forall k :: k in next.grants ==> k in db.grants && next.grants[k] == db.grants[k])
    && (s in next.servers ==> forall c :: c in db.channels && db.channels[c].server == Some(s) ==> c in next.channels)
  }

  lemma NotAboutChannels(db: Db, now: Time, op: Op, s: ServerId)
    requires !op.EditsChannels()
    ensures ChannelsOnlyShrink(db, Next(db, now, op), s)
  {
    if op.EditsRoster() {
      RosterCallsKeepTables(db, now, op);
      hide Apply;
    } else if op.EditsRoles() {
      RoleCallsKeepTables(db, now, op);
      RoleCallsAddNoGrant(db, now, op);
      hide Apply;
    }
  }

  lemma RoleCallsAddNoGrant(db: Db, now: Time, op: Op)
    requires op.EditsRoles()
    ensures forall k :: k in Next(db, now, op).grants ==>
              k in db.grants && Next(db, now, op).grants[k] == db.grants[k]
  {
    hide Context, Gate;
  }

  lemma VisibilityStep(db: Db, now: Time, op: Op, s: ServerId)
    requires s in Next(db, now, op).servers && !Uses(db, now, op, s, MANAGE_VISIBILITY)
    ensures VisibilityUntouched(db, Next(db, now, op), s)
  {
    if !op.EditsChannels() {
      NotAboutChannels(db, now, op, s);
      hide Apply;
    } else if op.OpDeleteChannel? {
      hide Context, Gate, RequireChannelAccess;
    } else {
      ChannelsKeepVisibility(db, now, op, s);
    }
  }

  lemma ChannelsKeepVisibility(db: Db, now: Time, op: Op, s: ServerId)
    requires op.EditsChannels() && !op.OpDeleteChannel? && !Uses(db, now, op, s, MANAGE_VISIBILITY)
    ensures VisibilityUntouched(db, Next(db, now, op), s)
  {
    hide Context, Gate, RequireChannelAccess;
  }

  lemma ChannelsStep(db: Db, now: Time, op: Op, s: ServerId)
    requires ChannelsOk(db.servers, db.channels)
    requires s in Next(db, now, op).servers && !Uses(db, now, op, s, MANAGE_CHANNELS)
    ensures ChannelsUntouched(db, Next(db, now, op), s)
  {
    if !op.EditsChannels() {
      NotAboutChannels(db, now, op, s);
      hide Apply;
    } else if op.OpDeleteChannel? && Apply(db, now, op).Ok? {
      DeletedElsewhere(db, s, op.channel, db.servers[op.server].visibility);
      hide Deleted, Context, Gate, RequireChannelAccess, ChannelsOk;
    } else if op.OpCreateChannel? || op.OpCreateThread? || op.OpOpenDm? {
      NewChannelStep(db, now, op, s);
    } else {
      EditedChannelStep(db, now, op, s);
    }
  }

  lemma NewChannelStep(db: Db, now: Time, op: Op, s: ServerId)
    requires op.OpCreateChannel? || op.OpCreateThread? || op.OpOpenDm?
    requires !Uses(db, now, op, s, MANAGE_CHANNELS)
    ensures ChannelsUntouched(db, Next(db, now, op), s)
  {
    hide Context, Gate, RequireChannelAccess;
  }

  lemma EditedChannelStep(db: Db, now: Time, op: Op, s: ServerId)
    requires op.OpUpdateChannelVisibility? || op.OpUpdateChannelRestricted? || op.OpSetChannelRolePermission? ||
        Apply(db, now, op).Err?
    requires !Uses(db, now, op, s, MANAGE_CHANNELS)
    ensures ChannelsUntouched(db, Next(db, now, op), s)
  {
    hide Context, Gate, RequireChannelAccess;
  }

  /** Deleting a channel writes rows of its own server only. */
  lemma DeletedElsewhere(db: Db, s: ServerId, target: ChannelId, v: Visibility)
    requires ChannelsOk(db.servers, db.channels)
    requires target in db.channels && db.channels[target].server != Some(s)
    ensures forall c :: c in db.channels && db.channels[c].server == Some(s) ==>
              Deleted(db.channels, target, v)[c] == db.channels[c]
  {
    forall c | c in db.channels && db.channels[c].server == Some(s)
      ensures Deleted(db.channels, target, v)[c] == db.channels[c]
    {
      assert ChannelOk(db.servers, db.channels, c);
    }
  }

  lemma BansStep(db: Db, now: Time, op: Op, s: ServerId)
    requires s in db.servers && db.servers[s].owner != op.actor && !Uses(db, now, op, s, BAN)
    ensures BansUntouched(db, Next(db, now, op), s)
  {
    if op.EditsChannels() {
      ChannelCallsKeepTables(db, now, op);
      hide Apply;
    } else if op.EditsRoles() {
      RoleCallsKeepTables(db, now, op);
      hide Apply;
    } else {
      hide Context, Gate;
    }
  }

  lemma TimeoutsStep(db: Db, now: Time, op: Op, s: ServerId)
    requires s in db.servers && !Uses(db, now, op, s, TIMEOUT_MEMBERS)
    ensures TimeoutsUntouched(db, Next(db, now, op), s)
  {
    if op.EditsChannels() {
      ChannelCallsKeepTables(db, now, op);
      hide Apply;
    } else if op.EditsRoles() {
      RoleCallsKeepTimeouts(db, now, op);
      hide Apply;
    } else {
      hide Context, Gate;
    }
  }

  lemma RoleCallsKeepTimeouts(db: Db, now: Time, op: Op)
    requires op.EditsRoles()
    ensures forall k :: k in Next(db, now, op).members ==>
              k in db.members && Next(db, now, op).members[k].timeoutUntil == db.members[k].timeoutUntil
  {
    hide Context, Gate;
  }

  lemma MembersStep(db: Db, now: Time, op: Op, s: ServerId, leavers: set<AccountId>)
    requires s in db.servers && db.servers[s].owner != op.actor
    requires !Uses(db, now, op, s, KICK) && !Uses(db, now, op, s, BAN)
    requires op.OpLeave? && op.server == s ==> op.actor in leavers
    ensures MembersStay(db, Next(db, now, op), s, leavers)
  {
    if op.EditsChannels() {
      ChannelCallsKeepTables(db, now, op);
      hide Apply;
    } else if op.EditsRoles() {
      RoleCallsKeepTables(db, now, op);
      hide Apply;
    } else {
      hide Context, Gate;
    }
  }

  /** Role calls on another server, and every other call. */
  lemma RolesStep(db: Db, now: Time, op: Op, s: ServerId)
    requires Inv(db) && s in db.servers && db.servers[s].owner != op.actor
    requires !Uses(db, now, op, s, MANAGE_ROLES)
    ensures RolesUntouched(db, Next(db, now, op), s)
  {
    if op.EditsRoles() {
      OtherServersRoles(db, now, op, s);
    } else {
      NotAboutRoles(db, now, op, s);
    }
  }

  lemma NotAboutRoles(db: Db, now: Time, op: Op, s: ServerId)
    requires s in db.servers && db.servers[s].owner != op.actor && !op.EditsRoles()
    ensures RolesUntouched(db, Next(db, now, op), s)
  {
    if op.EditsRoster() {
      RosterGivesNoRole(db, now, op, s);
    } else if op.EditsChannels() {
      ChannelCallsKeepTables(db, now, op);
      hide Apply;
    }
  }

  lemma RosterGivesNoRole(db: Db, now: Time, op: Op, s: ServerId)
    requires op.EditsRoster()
    ensures RolesUntouched(db, Next(db, now, op), s)
  {
    hide Context, Gate;
  }

  lemma OtherServersRoles(db: Db, now: Time, op: Op, s: ServerId)
    requires Inv(db) && op.EditsRoles() && (Apply(db, now, op).Ok? ==> op.server != s)
    ensures RolesUntouched(db, Next(db, now, op), s)
  {
    hide Inv, Apply;
    if Apply(db, now, op).Ok? {
      OtherServerRolesSame(db, now, op, s);
    }
  }

  lemma StepUntouched(db: Db, now: Time, op: Op, s: ServerId, lacking: Mask, leavers: set<AccountId>)
    requires Inv(db) && s in db.servers && db.servers[s].owner != op.actor
    requires Lacks(db.roles, s, lacking)
    requires op.OpLeave? && op.server == s ==> op.actor in leavers
    ensures Untouched(db, Next(db, now, op), s, lacking, leavers)
  {
    hide Inv, Lacks, Uses, Apply, Next, RolesUntouched, ChannelsUntouched, VisibilityUntouched, BansUntouched,
      TimeoutsUntouched, MembersStay;
    forall bit | bit in lacking
      ensures !Uses(db, now, op, s, bit)
    {
      LackingIsUnused(db, now, op, s, bit, lacking);
    }
    if MANAGE_ROLES in lacking {
      RolesStep(db, now, op, s);
    }
    if MANAGE_CHANNELS in lacking {
      StillThere(db, now, op, s);
      ChannelsStep(db, now, op, s);
    }
    if MANAGE_VISIBILITY in lacking {
      StillThere(db, now, op, s);
      VisibilityStep(db, now, op, s);
    }
    if BAN in lacking {
      BansStep(db, now, op, s);
    }
    if TIMEOUT_MEMBERS in lacking {
      TimeoutsStep(db, now, op, s);
    }
    if KICK in lacking && BAN in lacking {
      MembersStep(db, now, op, s, leavers);
    }
  }

  lemma StillThere(db: Db, now: Time, op: Op, s: ServerId)
    requires Inv(db) && s in db.servers && db.servers[s].owner != op.actor
    ensures ChannelsOk(db.servers, db.channels)
    ensures s in Next(db, now, op).servers && Next(db, now, op).servers[s].owner == db.servers[s].owner
  {
    CeilingBounds(db, s);
    StepUnharmed(db, now, op, s, Ceiling(db, s));
  }

  // ---- every run ----

  lemma UntouchedTransitive(db: Db, mid: Db, last: Db, s: ServerId, lacking: Mask, leavers: set<AccountId>)
    requires Untouched(db, mid, s, lacking, leavers) && Untouched(mid, last, s, lacking, leavers)
    ensures Untouched(db, last, s, lacking, leavers)
  {
    if MANAGE_CHANNELS in lacking {
      ChannelsTransitive(db, mid, last, s);
    }
    hide ChannelsUntouched;
  }

  lemma ChannelsTransitive(db: Db, mid: Db, last: Db, s: ServerId)
    requires ChannelsUntouched(db, mid, s) && ChannelsUntouched(mid, last, s)
    ensures ChannelsUntouched(db, last, s)
  {
  }

  lemma NothingTouched(db: Db, s: ServerId, lacking: Mask, leavers: set<AccountId>)
    ensures Untouched(db, db, s, lacking, leavers)
  {
  }

  /**
   Along any run without the owner, whatever the bits that no role of the server
   carries would govern is untouched: roles without `MANAGE_ROLES`, channels and
   grants without `MANAGE_CHANNELS`, visibility without `MANAGE_VISIBILITY`, bans
   without `BAN`, timeouts without `TIMEOUT_MEMBERS`, and without `KICK` and `BAN`
   everybody stays who does not leave.
   */
  lemma {:induction false} NoBitNoPower(
    db: Db, calls: seq<Call>, s: ServerId, lacking: Mask, leavers: set<AccountId>)
    requires Inv(db) && s in db.servers && NoOwnerCall(calls, db.servers[s].owner)
    requires Lacks(db.roles, s, lacking) && Leavers(calls, s) <= leavers
    ensures Untouched(db, Final(db, calls), s, lacking, leavers)
    decreases calls
  {
    hide Inv, Next, Untouched;
    if calls == [] {
      NothingTouched(db, s, lacking, leavers);
    } else {
      var call := calls[0];
      var next := Next(db, call.now, call.op);
      if call.op.OpLeave? && call.op.server == s {
        assert call.op.actor in Leavers(calls, s);
      }
      StepUntouched(db, call.now, call.op, s, lacking, leavers);
      StepKeepsInv(db, call.now, call.op);
      StillThere(db, call.now, call.op, s);
      LacksOn(db, call.now, call.op, s, lacking);
      LeaversLater(calls, s);
      assert NoOwnerCall(calls[1..], db.servers[s].owner);
      NoBitNoPower(next, calls[1..], s, lacking, leavers);
      UntouchedTransitive(db, next, Final(next, calls[1..]), s, lacking, leavers);
    }
  }

  lemma {:induction false} LeaversLater(calls: seq<Call>, s: ServerId)
    requires calls != []
    ensures Leavers(calls[1..], s) <= Leavers(calls, s)
  {
    forall a | a in Leavers(calls[1..], s)
      ensures a in Leavers(calls, s)
    {
      var i :| 0 <= i < |calls[1..]| && calls[1..][i].op.OpLeave? && calls[1..][i].op.server == s &&
            calls[1..][i].op.actor == a;
      assert calls[i + 1] == calls[1..][i];
    }
  }

  lemma LacksOn(db: Db, now: Time, op: Op, s: ServerId, lacking: Mask)
    requires Inv(db) && s in db.servers && db.servers[s].owner != op.actor && Lacks(db.roles, s, lacking)
    ensures Lacks(Next(db, now, op).roles, s, lacking)
  {
    hide Next, BitsOf;
    CeilingBounds(db, s);
    StepUnharmed(db, now, op, s, Ceiling(db, s));
  }
}
