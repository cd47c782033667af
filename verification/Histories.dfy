/**
 What the tables say is due to the calls of the run: each fact holds exactly when some
 call established it and no later one ended it. Bans, memberships, timeouts, roles,
 grants, restrictions, visibilities and deletions do not come or go otherwise.
 */
module Histories {
  import opened Common
  import opened Permissions
  import opened Tables
  import opened Transitions
  import opened Invariants
  import opened Answers
  import opened Effects

  datatype Fact =
    | IsMember(server: ServerId, account: AccountId)
    | IsBanned(server: ServerId, account: AccountId)
    | IsSilenced(server: ServerId, account: AccountId, until: Time)
    | HasRole(server: ServerId, account: AccountId, role: RoleId)
    | RoleHasBit(role: RoleId, bit: Bit)
    | MayView(channel: ChannelId, role: RoleId)
    | IsRestricted(channel: ChannelId)
    | ChannelIs(channel: ChannelId, visibility: Visibility)
    | ServerIs(server: ServerId, visibility: Visibility)
    | IsDeleted(channel: ChannelId)
    | TalksIn(channel: ChannelId, account: AccountId)

  /** Read off the rows. */
  ghost predicate Holds(db: Db, fact: Fact) {
    match fact
    case IsMember(s, a) => (s, a) in db.members
    case IsBanned(s, a) => (s, a) in db.bans
    case IsSilenced(s, a, until) => (s, a) in db.members && db.members[(s, a)].timeoutUntil == Some(until)
    case HasRole(s, a, r) => (s, a) in db.members && r in db.members[(s, a)].roles
    case RoleHasBit(r, b) => r in db.roles && b in db.roles[r].permissions
    case MayView(c, r) => (c, r) in db.grants && VIEW_CHANNEL in db.grants[(c, r)]
    case IsRestricted(c) => c in db.channels && db.channels[c].restricted
    case ChannelIs(c, v) => c in db.channels && db.channels[c].visibility == Some(v)
    case ServerIs(s, v) => s in db.servers && db.servers[s].visibility == v
    case IsDeleted(c) => c in db.channels && db.channels[c].deleted
    case TalksIn(c, a) => (c, a) in db.participants
  }

  /** A call that, if it succeeds, makes the fact hold. */
  ghost predicate Establishes(db: Db, op: Op, fact: Fact) {
    match fact
    case IsMember(s, a) => op == OpJoin(a, s) || (op.OpCreateServer? && op.server == s && op.actor == a)
    case IsBanned(s, a) => op.OpBan? && op.server == s && op.target == a
    case IsSilenced(s, a, until) => op.OpTimeout? && op.server == s && op.target == a && op.until == until
    case HasRole(s, a, r) => op.OpSetMemberRoles? && op.server == s && op.target == a && r in op.next
    case RoleHasBit(r, b) =>
      op.OpUpdateRole? && op.role == r && r in db.roles && b in op.patch.permissions.GetOr(db.roles[r].permissions) &&
      b in KNOWN && (Owns(db, op.server, op.actor) || HasBit(db, op.server, op.actor, b))
    case MayView(c, r) =>
      op.OpSetChannelRolePermission? && op.channel == c && op.role == r && VIEW_CHANNEL in op.bits
    case IsRestricted(c) => op.OpUpdateChannelRestricted? && op.channel == c && op.restricted
    case ChannelIs(c, v) => op.OpUpdateChannelVisibility? && op.channel == c && op.override == Some(v)
    case ServerIs(s, v) =>
      (op.OpCreateServer? || op.OpUpdateServerVisibility?) && op.server == s && op.visibility == v
    case IsDeleted(c) => op.OpDeleteChannel? && op.channel == c
    case TalksIn(c, a) => op.OpOpenDm? && op.channel == c && (op.actor == a || op.other == a)
  }

  predicate Removes(op: Op, s: ServerId, a: AccountId) {
    || op == OpLeave(a, s)
    || ((op.OpKick? || op.OpBan?) && op.server == s && op.target == a)
    || (op.OpDeleteServer? && op.server == s)
  }

  /** The call deletes the server the channel is of. */
  predicate DropsChannel(db: Db, op: Op, c: ChannelId) {
    op.OpDeleteServer? && c in db.channels && db.channels[c].server == Some(op.server)
  }

  /** A call that, if it succeeds, ends the fact unless it establishes it. */
  ghost predicate Ends(db: Db, op: Op, fact: Fact) {
    match fact
    case IsMember(s, a) => Removes(op, s, a)
    case IsBanned(s, a) =>
      (op.OpUnban? && op.server == s && op.target == a) || (op.OpDeleteServer? && op.server == s)
    case IsSilenced(s, a, _) =>
      ((op.OpTimeout? || op.OpClearTimeout?) && op.server == s && op.target == a) || Removes(op, s, a)
    case HasRole(s, a, r) =>
      || (op.OpSetMemberRoles? && op.server == s && op.target == a)
      || (op.OpDeleteRole? && op.role == r)
      || Removes(op, s, a)
    case RoleHasBit(r, _) =>
      || ((op.OpUpdateRole? || op.OpDeleteRole?) && op.role == r)
      || (op.OpDeleteServer? && r in db.roles && db.roles[r].server == op.server)
    case MayView(c, r) =>
      || (op.OpSetChannelRolePermission? && op.channel == c && op.role == r)
      || (op.OpDeleteRole? && op.role == r)
      || DropsChannel(db, op, c)
    case IsRestricted(c) => (op.OpUpdateChannelRestricted? && op.channel == c) || DropsChannel(db, op, c)
    case ChannelIs(c, _) => (op.OpUpdateChannelVisibility? && op.channel == c) || DropsChannel(db, op, c)
    case ServerIs(s, _) => (op.OpUpdateServerVisibility? || op.OpDeleteServer?) && op.server == s
    case IsDeleted(c) => DropsChannel(db, op, c)
    case TalksIn(_, _) => false
  }

  // ---- one step ----

  ghost predicate StepTells(db: Db, next: Db, op: Op, fact: Fact) {
    Holds(next, fact) <==> Establishes(db, op, fact) || (Holds(db, fact) && !Ends(db, op, fact))
  }

  lemma NobodyOnNewServer(db: Db, s: ServerId)
    requires Inv(db) && s !in db.servers
    ensures forall a :: (s, a) !in db.members && (s, a) !in db.bans
  {
  }

  lemma NewServerTells(db: Db, next: Db, op: Op, fact: Fact)
    requires Inv(db) && op.OpCreateServer? && Does(db, next, op)
    requires op.server !in db.servers && op.everyone !in db.roles
    ensures StepTells(db, next, op, fact)
  {
    hide Inv, Owns, HasBit;
    NobodyOnNewServer(db, op.server);
  }

  lemma LostServerTells(db: Db, next: Db, op: Op, fact: Fact)
    requires Inv(db) && op.OpDeleteServer? && Does(db, next, op)
    ensures StepTells(db, next, op, fact)
  {
    hide Inv, Owns, HasBit;
    GrantsOnRows(db);
  }

  lemma OpenedServerTells(db: Db, next: Db, op: Op, fact: Fact)
    requires op.OpUpdateServerVisibility? && Does(db, next, op)
    ensures StepTells(db, next, op, fact)
  {
    hide Owns, HasBit;
  }

  lemma MemberCallTells(db: Db, next: Db, op: Op, fact: Fact)
    requires (op.OpJoin? || op.OpLeave? || op.OpKick?) && Does(db, next, op)
    requires op.OpJoin? ==> (op.server, op.actor) !in db.members
    ensures StepTells(db, next, op, fact)
  {
    hide Owns, HasBit;
  }

  lemma TimeoutCallTells(db: Db, next: Db, op: Op, fact: Fact)
    requires (op.OpTimeout? || op.OpClearTimeout?) && Does(db, next, op)
    ensures StepTells(db, next, op, fact)
  {
    hide Owns, HasBit;
  }

  lemma BanCallTells(db: Db, next: Db, op: Op, fact: Fact)
    requires (op.OpBan? || op.OpUnban?) && Does(db, next, op)
    ensures StepTells(db, next, op, fact)
  {
    hide Owns, HasBit;
  }

  lemma NewRoleTells(db: Db, next: Db, op: Op, fact: Fact)
    requires op.OpCreateRole? && op.role !in db.roles && Does(db, next, op)
    ensures StepTells(db, next, op, fact)
  {
    hide Owns, HasBit;
    var position :| RoleBecomes(db, next, op.role, Role(op.server, op.name, None, {}, position, false, false));
  }

  lemma PatchTells(db: Db, next: Db, op: Op, fact: Fact)
    requires op.OpUpdateRole? && Does(db, next, op)
    ensures StepTells(db, next, op, fact)
  {
    hide Owns, HasBit;
  }

  lemma LostRoleTells(db: Db, next: Db, op: Op, fact: Fact)
    requires op.OpDeleteRole? && Does(db, next, op)
    ensures StepTells(db, next, op, fact)
  {
    hide Owns, HasBit;
  }

  lemma AssignTells(db: Db, next: Db, op: Op, fact: Fact)
    requires (op.OpSetMemberRoles? || op.OpReorderRoles?) && Does(db, next, op)
    ensures StepTells(db, next, op, fact)
  {
    hide Owns, HasBit;
    if op.OpReorderRoles? && fact.RoleHasBit? && fact.role in db.roles {
      if fact.role in op.order {
        var i :| 0 <= i < |op.order| && op.order[i] == fact.role;
      }
    }
  }

  lemma NewChannelTells(db: Db, next: Db, op: Op, fact: Fact)
    requires op.OpCreateChannel? || op.OpCreateThread? || op.OpOpenDm?
    requires op.channel !in db.channels && Does(db, next, op)
    ensures StepTells(db, next, op, fact)
  {
    hide Owns, HasBit;
  }

  lemma LostChannelTells(db: Db, next: Db, op: Op, fact: Fact)
    requires op.OpDeleteChannel? && op.channel in db.channels && Does(db, next, op)
    ensures StepTells(db, next, op, fact)
  {
    hide Owns, HasBit;
  }

  lemma EditedChannelTells(db: Db, next: Db, op: Op, fact: Fact)
    requires op.OpUpdateChannelVisibility? || op.OpUpdateChannelRestricted? || op.OpSetChannelRolePermission?
    requires Does(db, next, op)
    ensures StepTells(db, next, op, fact)
  {
    hide Owns, HasBit;
  }

  /** What is new was not there before. */
  lemma NewIsNew(db: Db, now: Time, op: Op)
    requires Inv(db) && Apply(db, now, op).Ok?
    ensures op.OpCreateServer? ==> op.server !in db.servers && op.everyone !in db.roles
    ensures op.OpJoin? ==> (op.server, op.actor) !in db.members
    ensures op.OpCreateRole? ==> op.role !in db.roles
    ensures op.OpCreateChannel? || op.OpCreateThread? || op.OpOpenDm? ==> op.channel !in db.channels
    ensures op.OpDeleteChannel? ==> op.channel in db.channels
  {
    hide Inv, Apply, GateAnswer, Sees;
    AnswersAsExpected(db, now, op);
  }

  /**
   One successful call, any fact: it holds afterwards if the call establishes it, or if it
   held and the call does not end it.
   */
  lemma CallTells(db: Db, now: Time, op: Op, fact: Fact)
    requires Inv(db) && Apply(db, now, op).Ok?
    ensures StepTells(db, Next(db, now, op), op, fact)
  {
    hide Inv, Apply, Next, Does, StepTells;
    EveryCallDoesThis(db, now, op);
    NewIsNew(db, now, op);
    var next := Next(db, now, op);
    match op
    case OpCreateServer(_, _, _, _) => NewServerTells(db, next, op, fact);
    case OpDeleteServer(_, _) => LostServerTells(db, next, op, fact);
    case OpUpdateServerVisibility(_, _, _) => OpenedServerTells(db, next, op, fact);
    case OpBan(_, _, _) => BanCallTells(db, next, op, fact);
    case OpUnban(_, _, _) => BanCallTells(db, next, op, fact);
    case OpCreateRole(_, _, _, _) => NewRoleTells(db, next, op, fact);
    case OpUpdateRole(_, _, _, _) => PatchTells(db, next, op, fact);
    case OpDeleteRole(_, _, _) => LostRoleTells(db, next, op, fact);
    case OpReorderRoles(_, _, _) => AssignTells(db, next, op, fact);
    case OpSetMemberRoles(_, _, _, _) => AssignTells(db, next, op, fact);
    case OpCreateChannel(_, _, _, _) => NewChannelTells(db, next, op, fact);
    case OpCreateThread(_, _, _, _) => NewChannelTells(db, next, op, fact);
    case OpOpenDm(_, _, _) => NewChannelTells(db, next, op, fact);
    case OpDeleteChannel(_, _, _) => LostChannelTells(db, next, op, fact);
    case OpUpdateChannelVisibility(_, _, _, _) => EditedChannelTells(db, next, op, fact);
    case OpUpdateChannelRestricted(_, _, _, _) => EditedChannelTells(db, next, op, fact);
    case OpSetChannelRolePermission(_, _, _, _, _) => EditedChannelTells(db, next, op, fact);
    case OpJoin(_, _) => MemberCallTells(db, next, op, fact);
    case OpLeave(_, _) => MemberCallTells(db, next, op, fact);
    case OpKick(_, _, _) => MemberCallTells(db, next, op, fact);
    case OpTimeout(_, _, _, _) => TimeoutCallTells(db, next, op, fact);
    case OpClearTimeout(_, _, _) => TimeoutCallTells(db, next, op, fact);
  }

  // ---- every run ----

  ghost predicate EstablishedAt(calls: seq<Call>, i: nat, fact: Fact)
    requires i < |calls|
  {
    var db := Run(EMPTY, calls)[i];
    Apply(db, calls[i].now, calls[i].op).Ok? && Establishes(db, calls[i].op, fact)
  }

  ghost predicate EndedAt(calls: seq<Call>, i: nat, fact: Fact)
    requires i < |calls|
  {
    var db := Run(EMPTY, calls)[i];
    Apply(db, calls[i].now, calls[i].op).Ok? && Ends(db, calls[i].op, fact) && !Establishes(db, calls[i].op, fact)
  }

  /** Some call before `j` established the fact, and none since has ended it. */
  ghost predicate Due(calls: seq<Call>, j: nat, fact: Fact)
    requires j <= |calls|
  {
    exists i {:trigger EstablishedAt(calls, i, fact)} :: 0 <= i < j && EstablishedAt(calls, i, fact) &&
      forall k :: i < k < j ==> !EndedAt(calls, k, fact)
  }

  lemma {:induction false} CallDecides(calls: seq<Call>, i: nat, fact: Fact)
    requires i < |calls|
    ensures Holds(Run(EMPTY, calls)[i + 1], fact) <==>
              EstablishedAt(calls, i, fact) || (Holds(Run(EMPTY, calls)[i], fact) && !EndedAt(calls, i, fact))
  {
    hide Inv, Apply, Holds, Establishes, Ends;
    var db := Run(EMPTY, calls)[i];
    ReachableStatesSatisfyInv(calls, i);
    RunStep(EMPTY, calls, i);
    if Apply(db, calls[i].now, calls[i].op).Ok? {
      CallTells(db, calls[i].now, calls[i].op, fact);
    }
  }

  lemma NothingHolds(fact: Fact)
    ensures !Holds(EMPTY, fact)
  {
  }

  /**
   In every state of every run from empty tables, a fact holds exactly when some
   successful call established it and no later one ended it.
   */
  lemma {:induction false} HoldsExactlyWhenDue(calls: seq<Call>, j: nat, fact: Fact)
    requires j <= |calls|
    ensures Holds(Run(EMPTY, calls)[j], fact) <==> Due(calls, j, fact)
    decreases j
  {
    hide Holds, EstablishedAt, EndedAt;
    if j == 0 {
      NothingHolds(fact);
    } else {
      HoldsExactlyWhenDue(calls, j - 1, fact);
      CallDecides(calls, j - 1, fact);
      if Due(calls, j, fact) && !EstablishedAt(calls, j - 1, fact) {
        assert Due(calls, j - 1, fact) && !EndedAt(calls, j - 1, fact);
      }
    }
  }
}
