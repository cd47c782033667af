/**
 What the calls are for: a ban keeps out, a kick does not, a timeout silences until it
 ends, a grant lets in and an empty one does not, a deleted channel admits nobody and a
 direct message its two participants only.
 */
module Outcomes {
  import opened Common
  import opened Permissions
  import opened Tables
  import opened Transitions
  import opened Invariants
  import opened Answers
  import opened Effects
  import opened Histories

  ghost predicate Succeeds(calls: seq<Call>, i: nat, op: Op)
    requires i < |calls|
  {
    calls[i].op == op && Apply(Run(EMPTY, calls)[i], calls[i].now, op).Ok?
  }

  // ---- bans, kicks, timeouts ----

  /** A successful unban of `target`, or deletion of the server, at step `k`. */
  ghost predicate LiftsBan(calls: seq<Call>, k: nat, s: ServerId, target: AccountId)
    requires k < |calls|
  {
    && Apply(Run(EMPTY, calls)[k], calls[k].now, calls[k].op).Ok?
    && ((calls[k].op.OpUnban? && calls[k].op.server == s && calls[k].op.target == target) ||
        (calls[k].op.OpDeleteServer? && calls[k].op.server == s))
  }

  /** From a ban to the unban, or the end of the server, the target is out and every join of it is refused. */
  lemma {:induction false} BannedStaysOut(
    calls: seq<Call>, i: nat, j: nat, actor: AccountId, s: ServerId, target: AccountId)
    requires i < j <= |calls| && Succeeds(calls, i, OpBan(actor, s, target))
    requires forall k :: i < k < j ==> !LiftsBan(calls, k, s, target)
    ensures var db := Run(EMPTY, calls)[j];
            && (s, target) in db.bans && (s, target) !in db.members
            && forall now :: Apply(db, now, OpJoin(target, s)) == Err(Banned)
  {
    hide Inv, Apply;
    var db := Run(EMPTY, calls)[j];
    var fact := IsBanned(s, target);
    assert EstablishedAt(calls, i, fact);
    assert forall k :: i < k < j && EndedAt(calls, k, fact) ==> LiftsBan(calls, k, s, target);
    assert Due(calls, j, fact);
    HoldsExactlyWhenDue(calls, j, fact);
    ReachableStatesSatisfyInv(calls, j);
    BannedIsOut(db, s, target);
    forall now
      ensures Apply(db, now, OpJoin(target, s)) == Err(Banned)
    {
      AnswersAsExpected(db, now, OpJoin(target, s));
    }
  }

  lemma BannedIsOut(db: Db, s: ServerId, target: AccountId)
    requires Inv(db) && (s, target) in db.bans
    ensures s in db.servers && (s, target) !in db.members
  {
  }

  predicate SendsAway(op: Op, s: ServerId, gone: AccountId) {
    (op.OpKick? && op.server == s && op.target == gone) || op == OpLeave(gone, s)
  }

  /** Whoever was kicked, or left, may come back at once, and comes back with nothing. */
  lemma RemovedMayRejoin(db: Db, now: Time, op: Op, s: ServerId, gone: AccountId, later: Time)
    requires Inv(db) && Apply(db, now, op).Ok? && SendsAway(op, s, gone)
    ensures (s, gone) !in Next(db, now, op).members
    ensures Apply(Next(db, now, op), later, OpJoin(gone, s)).Ok?
    ensures Does(Next(db, now, op), Next(Next(db, now, op), later, OpJoin(gone, s)), OpJoin(gone, s))
  {
    hide Inv, Apply, Next;
    var next := Next(db, now, op);
    EveryCallDoesThis(db, now, op);
    StepKeepsInv(db, now, op);
    AnswersAsExpected(db, now, op);
    WasMember(db, now, op, s, gone);
    AnswersAsExpected(next, later, OpJoin(gone, s));
    EveryCallDoesThis(next, later, OpJoin(gone, s));
  }

  lemma WasMember(db: Db, now: Time, op: Op, s: ServerId, gone: AccountId)
    requires Inv(db) && SendsAway(op, s, gone) && Expected(db, now, op) == Pass
    ensures (s, gone) in db.members && (s, gone) !in db.bans && s in db.servers
  {
    hide GateAnswer, AboveMember;
  }

  /** The calls that go through the permission gate of a server. */
  predicate Gated(op: Op) {
    op.EditsRoles() || op.OpKick? || op.OpBan? || op.OpUnban? || op.OpTimeout? || op.OpClearTimeout? ||
    op.OpCreateChannel? || op.OpDeleteChannel? || op.OpUpdateChannelVisibility? || op.OpUpdateChannelRestricted? ||
    op.OpSetChannelRolePermission?
  }

  /** From a timeout on, until it is lifted or replaced or the member is gone, nothing gated succeeds before its end. */
  lemma {:induction false} TimedOutIsRefused(
    calls: seq<Call>, i: nat, j: nat, actor: AccountId, s: ServerId, target: AccountId, until: Time)
    requires i < j <= |calls| && Succeeds(calls, i, OpTimeout(actor, s, target, until))
    requires forall k :: i < k < j ==> !EndedAt(calls, k, IsSilenced(s, target, until))
    ensures var db := Run(EMPTY, calls)[j];
            forall now, op :: now < until && Gated(op) && op.actor == target && op.server == s ==>
              Apply(db, now, op).Err?
  {
    hide Inv, Apply;
    var db := Run(EMPTY, calls)[j];
    var fact := IsSilenced(s, target, until);
    assert EstablishedAt(calls, i, fact);
    assert Due(calls, j, fact);
    HoldsExactlyWhenDue(calls, j, fact);
    ReachableStatesSatisfyInv(calls, j);
    forall now, op | now < until && Gated(op) && op.actor == target && op.server == s
      ensures Apply(db, now, op).Err?
    {
      AnswersAsExpected(db, now, op);
      GatedNeedsGate(db, now, op);
    }
  }

  lemma GatedNeedsGate(db: Db, now: Time, op: Op)
    requires Gated(op) && Silenced(db, now, op.server, op.actor)
    ensures Expected(db, now, op) != Pass
  {
    hide May, TargetAnswer, AboveMember, Above, OrdersAll, MayReorder, Sees;
  }

  // ---- channels ----

  /** A thread that is not deleted itself is seen by exactly those who see the channel it is under. */
  lemma ThreadFollowsParent(db: Db, a: AccountId, t: ChannelId)
    requires Inv(db) && t in db.channels && db.channels[t].kind == Thread && !db.channels[t].deleted
    ensures db.channels[t].parent.Some?
    ensures RequireChannelAccess(db, a, t).Ok? <==> RequireChannelAccess(db, a, db.channels[t].parent.value).Ok?
  {
    ChannelRow(db, t);
    ChannelRow(db, db.channels[t].parent.value);
    AccessMeans(db, a, t);
    AccessMeans(db, a, db.channels[t].parent.value);
    hide Inv, RequireChannelAccess, Owns, HasBit, Granted;
  }

  /** Neither the owner, nor given `ADMIN` by a role. */
  ghost predicate IsPlain(db: Db, s: ServerId, a: AccountId) {
    && (s, a) in db.members && !db.members[(s, a)].isOwner
    && forall r :: Carries(db, s, a, r) ==> ADMIN !in db.roles[r].permissions
  }

  /** The stored mask of the role for the channel has the bit. */
  predicate Opens(db: Db, c: ChannelId, r: RoleId) {
    (c, r) in db.grants && VIEW_CHANNEL in db.grants[(c, r)]
  }

  /**
   On a restricted channel that stands, a plain member is admitted exactly when one
   of its roles has the bit in its mask there: a grant row alone opens nothing.
   */
  lemma PlainMemberNeedsTheBit(db: Db, s: ServerId, a: AccountId, c: ChannelId)
    requires Inv(db) && IsPlain(db, s, a)
    requires c in db.channels && !db.channels[c].deleted && db.channels[c].restricted
    requires db.channels[c].server == Some(s) && db.channels[c].parent == None
    ensures RequireChannelAccess(db, a, c).Ok? <==> exists r :: Carries(db, s, a, r) && Opens(db, c, r)
  {
    hide Inv, RequireChannelAccess, Carries;
    AccessMeans(db, a, c);
  }

  /** Taking the bit of one role away shuts out a plain member no other role of whom has it. */
  lemma EmptyGrantShutsOut(db: Db, now: Time, op: Op, a: AccountId)
    requires Inv(db) && op.OpSetChannelRolePermission? && Apply(db, now, op).Ok? && VIEW_CHANNEL !in op.bits
    requires IsPlain(db, op.server, a)
    requires op.channel in db.channels && db.channels[op.channel].restricted
    requires forall q :: q != op.role && Carries(db, op.server, a, q) ==> !Opens(db, op.channel, q)
    ensures RequireChannelAccess(Next(db, now, op), a, op.channel) == Err(ChannelNotFound)
  {
    hide Inv, Apply, Next, RequireChannelAccess;
    GrantedOnTopLevel(db, now, op);
    GrantChange(db, now, op);
    StepKeepsInv(db, now, op);
    var next := Next(db, now, op);
    assert forall q :: Carries(next, op.server, a, q) <==> Carries(db, op.server, a, q);
    hide Carries;
    PlainMemberNeedsTheBit(next, op.server, a, op.channel);
    AccessMeans(next, a, op.channel);
  }

  lemma GrantChange(db: Db, now: Time, op: Op)
    requires Inv(db) && op.OpSetChannelRolePermission? && Apply(db, now, op).Ok?
    ensures GrantBecomes(db, Next(db, now, op), op.channel, op.role, op.bits)
  {
    hide Inv, Apply, Next, GrantBecomes;
    EveryCallDoesThis(db, now, op);
  }

  /** Giving the bit to a role lets in everybody who has it, to the channel and the threads under it. */
  lemma GrantLetsIn(db: Db, now: Time, op: Op, a: AccountId, d: ChannelId)
    requires Inv(db) && op.OpSetChannelRolePermission? && Apply(db, now, op).Ok? && VIEW_CHANNEL in op.bits
    requires Carries(db, op.server, a, op.role)
    requires d == op.channel ||
             (d in db.channels && db.channels[d].parent == Some(op.channel) && !db.channels[d].deleted)
    ensures RequireChannelAccess(Next(db, now, op), a, d).Ok?
  {
    hide Inv, Apply, Next, RequireChannelAccess;
    GrantedOnTopLevel(db, now, op);
    ChannelRow(db, d);
    GrantChange(db, now, op);
    StepKeepsInv(db, now, op);
    var next := Next(db, now, op);
    AccessMeans(next, a, d);
    assert Carries(next, op.server, a, op.role);
    assert Granted(next, op.server, a, op.channel);
  }

  lemma GrantedOnTopLevel(db: Db, now: Time, op: Op)
    requires Inv(db) && op.OpSetChannelRolePermission? && Apply(db, now, op).Ok?
    ensures op.channel in db.channels && !db.channels[op.channel].deleted
    ensures db.channels[op.channel].server == Some(op.server) && db.channels[op.channel].parent == None
  {
    AnswersAsExpected(db, now, op);
    if op.channel in db.channels {
      ChannelRow(db, op.channel);
    }
    hide Inv, Apply, GateAnswer;
  }

  /** Once deleted, a channel and the threads under it admit nobody, in every later state that has their rows. */
  lemma {:induction false} DeletedAdmitsNobody(
    calls: seq<Call>, i: nat, j: nat, actor: AccountId, s: ServerId, c: ChannelId, d: ChannelId, a: AccountId)
    requires i < j <= |calls| && Succeeds(calls, i, OpDeleteChannel(actor, s, c))
    requires forall k :: i < k <= j ==> c in Run(EMPTY, calls)[k].channels
    requires d == c || (d in Run(EMPTY, calls)[j].channels && Run(EMPTY, calls)[j].channels[d].parent == Some(c))
    ensures RequireChannelAccess(Run(EMPTY, calls)[j], a, d) == Err(ChannelNotFound)
  {
    hide Inv, Apply, RequireChannelAccess;
    var db := Run(EMPTY, calls)[j];
    var fact := IsDeleted(c);
    assert EstablishedAt(calls, i, fact);
    forall k | i < k < j
      ensures !EndedAt(calls, k, fact)
    {
      RowWouldGo(calls, k, c);
    }
    assert Due(calls, j, fact);
    HoldsExactlyWhenDue(calls, j, fact);
    ReachableStatesSatisfyInv(calls, j);
    AccessMeans(db, a, d);
  }

  lemma {:induction false} RowWouldGo(calls: seq<Call>, k: nat, c: ChannelId)
    requires k < |calls| && c in Run(EMPTY, calls)[k + 1].channels
    ensures !EndedAt(calls, k, IsDeleted(c))
  {
    hide Inv, Apply, Next;
    var db := Run(EMPTY, calls)[k];
    ReachableStatesSatisfyInv(calls, k);
    RunStep(EMPTY, calls, k);
    EveryCallDoesThis(db, calls[k].now, calls[k].op);
    if EndedAt(calls, k, IsDeleted(c)) {
      assert ServerVanishes(db, Run(EMPTY, calls)[k + 1], calls[k].op.server) by {
        NextOfOk(db, calls[k].now, calls[k].op);
      }
    }
  }

  lemma NextOfOk(db: Db, now: Time, op: Op)
    requires Apply(db, now, op).Ok?
    ensures Next(db, now, op) == Apply(db, now, op).value
  {
    hide Apply;
  }

  /** A direct message between `a` and `b`. */
  ghost predicate IsDm(db: Db, c: ChannelId, a: AccountId, b: AccountId) {
    && c in db.channels && db.channels[c] == Channel(None, Dm, None, None, false, None, false, None)
    && forall x :: (c, x) in db.participants <==> x == a || x == b
  }

  lemma DmStays(db: Db, now: Time, op: Op, c: ChannelId, a: AccountId, b: AccountId)
    requires Inv(db) && IsDm(db, c, a, b)
    ensures IsDm(Next(db, now, op), c, a, b)
  {
    hide Inv, Apply, Next;
    EveryCallDoesThis(db, now, op);
    AnswersAsExpected(db, now, op);
    if Apply(db, now, op).Ok? {
      DmUntouched(db, now, Next(db, now, op), op, c, a, b);
    }
  }

  lemma DmUntouched(db: Db, now: Time, next: Db, op: Op, c: ChannelId, a: AccountId, b: AccountId)
    requires IsDm(db, c, a, b) && Does(db, next, op) && Expected(db, now, op) == Pass
    ensures IsDm(next, c, a, b)
  {
    hide GateAnswer, TargetAnswer, Sees, AboveMember, Above, OrdersAll, MayReorder, May, HasBit, Owns;
  }

  /** In every state after it was opened, a direct message admits its two participants and nobody else. */
  lemma {:induction false} DmAdmitsItsTwo(
    calls: seq<Call>, i: nat, j: nat, a: AccountId, c: ChannelId, b: AccountId, x: AccountId)
    requires i < j <= |calls| && Succeeds(calls, i, OpOpenDm(a, c, b))
    ensures IsDm(Run(EMPTY, calls)[j], c, a, b)
    ensures RequireChannelAccess(Run(EMPTY, calls)[j], x, c).Ok? <==> x == a || x == b
    decreases j
  {
    hide Inv, Apply, Next, RequireChannelAccess;
    var before, db := Run(EMPTY, calls)[j - 1], Run(EMPTY, calls)[j];
    RunStep(EMPTY, calls, j - 1);
    ReachableStatesSatisfyInv(calls, j - 1);
    ReachableStatesSatisfyInv(calls, j);
    if i < j - 1 {
      DmAdmitsItsTwo(calls, i, j - 1, a, c, b, x);
      DmStays(before, calls[j - 1].now, calls[j - 1].op, c, a, b);
    } else {
      EveryCallDoesThis(before, calls[i].now, calls[i].op);
      NobodyYet(before, calls[i].now, calls[i].op);
    }
    AccessMeans(db, x, c);
  }

  lemma NobodyYet(db: Db, now: Time, op: Op)
    requires Inv(db) && op.OpOpenDm? && Apply(db, now, op).Ok?
    ensures forall x :: (op.channel, x) !in db.participants
  {
    hide RosterOk, RolesOk, DefaultsOk, AssignmentsOk, ChannelsOk, GrantsOk, RoleLimitOk, ChannelLimitOk;
  }
}
