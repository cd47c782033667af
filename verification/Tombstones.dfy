/**
 Deleted public threads. An anonymous reader of a deleted thread is told "gone" only
 if the thread was publicly listed at the moment it went away, whatever happened to
 the server, the parent or the thread afterwards.
 */
module Tombstones {
  import opened Common
  import opened Permissions
  import opened Tables
  import opened Transitions
  import opened Invariants

  // ---- the anonymous read path ----

  /** The visibility in force for a channel row whose server exists. */
  function Effective(db: Db, c: ChannelId): Visibility
    requires c in db.channels && db.channels[c].server.Some? && db.channels[c].server.value in db.servers
  {
    EffectiveVisibility(
      db.channels[c].visibility, ParentVisibility(db.channels, c), db.servers[db.channels[c].server.value].visibility)
  }

  /** `resolve_read_access` for a caller with no account. */
  function ResolveAnonymous(db: Db, c: ChannelId): Result<Visibility> {
    if !Live(db.channels, c) then Err(ChannelNotFound)
    else
      var row := db.channels[c];
      :- Need(row.server.Some? && row.server.value in db.servers, ChannelNotFound);
      :- Need(!row.restricted && !ParentRestricted(db.channels, c), ChannelNotFound);
      var effective := Effective(db, c);
      :- Need(effective != Private, ChannelNotFound);
      Ok(effective)
  }

  predicate HasPublicTombstone(db: Db, t: ChannelId) {
    t in db.channels && db.channels[t].kind == Thread && db.channels[t].tombstone == Some(true) &&
    Gone(db.channels, t)
  }

  /** The two joins of `find_thread` and `list_public_threads`: a live thread under a live parent. */
  predicate LiveThread(db: Db, t: ChannelId) {
    && t in db.channels && db.channels[t].kind == Thread && !db.channels[t].deleted
    && db.channels[t].parent.Some? && db.channels[t].parent.value in db.channels
    && !db.channels[db.channels[t].parent.value].deleted
  }

  function GetPublicThread(db: Db, t: ChannelId): Result<Channel> {
    var access := ResolveAnonymous(db, t);
    if access.Err? then
      if access.error == ChannelNotFound && HasPublicTombstone(db, t) then Err(ThreadGone) else Err(access.error)
    else if LiveThread(db, t) then Ok(db.channels[t])
    else Err(ChannelNotFound)
  }

  /** `t` is in the result of `list_public_threads`. */
  predicate Listed(db: Db, t: ChannelId) {
    && LiveThread(db, t) && db.channels[t].slug.Some?
    && db.channels[t].server.Some? && db.channels[t].server.value in db.servers
    && Effective(db, t) == Public
    && ResolveAnonymous(db, t).Ok?
  }

  /** The rows of a listing that the sitemap lists, in the listing's order. */
  function ListedRows(db: Db, rows: seq<ChannelId>): seq<ChannelId> {
    if rows == [] then []
    else
      var n := |rows| - 1;
      ListedRows(db, rows[..n]) + (if Listed(db, rows[n]) then [rows[n]] else [])
  }

  lemma {:induction false} ListedRowsAreListed(db: Db, rows: seq<ChannelId>, t: ChannelId)
    ensures t in ListedRows(db, rows) <==> t in rows && Listed(db, t)
  {
    if rows != [] {
      ListedRowsAreListed(db, rows[..|rows| - 1], t);
      assert rows == rows[..|rows| - 1] + [rows[|rows| - 1]];
    }
  }

  // ---- what the two public reads say, by the columns ----

  /** An undeleted thread under an undeleted channel, neither of them restricted, on a server that is there. */
  ghost predicate OpenThread(db: Db, t: ChannelId, p: ChannelId, s: ServerId) {
    && t in db.channels && p in db.channels && s in db.servers
    && db.channels[t].kind == Thread && db.channels[t].parent == Some(p) && db.channels[t].server == Some(s)
    && !db.channels[t].deleted && !db.channels[p].deleted
    && !db.channels[t].restricted && !db.channels[p].restricted
  }

  /** Nothing on the way to the thread has a hidden visibility; an absent override does not narrow. */
  ghost predicate NoneBelow(db: Db, t: ChannelId, p: ChannelId, s: ServerId, hidden: set<Visibility>)
    requires t in db.channels && p in db.channels && s in db.servers
  {
    && (db.channels[t].visibility.Some? ==> db.channels[t].visibility.value !in hidden)
    && (db.channels[p].visibility.Some? ==> db.channels[p].visibility.value !in hidden)
    && db.servers[s].visibility !in hidden
  }

  lemma NarrowestOfThree(own: Option<Visibility>, parent: Option<Visibility>, server: Visibility)
    ensures EffectiveVisibility(own, parent, server) == Private <==>
              own == Some(Private) || parent == Some(Private) || server == Private
    ensures EffectiveVisibility(own, parent, server) == Public <==>
              (own.Some? ==> own.value == Public) && (parent.Some? ==> parent.value == Public) && server == Public
  {
  }

  /**
   The anonymous read answers with a thread exactly when it is open and nothing on the
   way to it is private, and then with its row.
   */
  lemma PublicReadAnswers(db: Db, t: ChannelId)
    ensures GetPublicThread(db, t).Ok? <==>
              exists p, s :: OpenThread(db, t, p, s) && NoneBelow(db, t, p, s, {Private})
    ensures GetPublicThread(db, t).Ok? ==> t in db.channels && GetPublicThread(db, t).value == db.channels[t]
    ensures GetPublicThread(db, t).Err? ==> GetPublicThread(db, t).error in {ChannelNotFound, ThreadGone}
  {
    if t in db.channels && db.channels[t].parent.Some? && db.channels[t].parent.value in db.channels &&
       db.channels[t].server.Some? && db.channels[t].server.value in db.servers
    {
      var p, s := db.channels[t].parent.value, db.channels[t].server.value;
      NarrowestOfThree(db.channels[t].visibility, db.channels[p].visibility, db.servers[s].visibility);
      assert GetPublicThread(db, t).Ok? <==> OpenThread(db, t, p, s) && NoneBelow(db, t, p, s, {Private});
    }
  }

  /** The sitemap lists exactly the open threads with a slug that nothing narrows to less than public. */
  lemma SitemapLists(db: Db, t: ChannelId)
    ensures Listed(db, t) <==>
              exists p, s :: OpenThread(db, t, p, s) && NoneBelow(db, t, p, s, {Private, Unlisted}) &&
                             db.channels[t].slug.Some?
  {
    if t in db.channels && db.channels[t].parent.Some? && db.channels[t].parent.value in db.channels &&
       db.channels[t].server.Some? && db.channels[t].server.value in db.servers
    {
      var p, s := db.channels[t].parent.value, db.channels[t].server.value;
      NarrowestOfThree(db.channels[t].visibility, db.channels[p].visibility, db.servers[s].visibility);
      assert Listed(db, t) <==>
        OpenThread(db, t, p, s) && NoneBelow(db, t, p, s, {Private, Unlisted}) && db.channels[t].slug.Some?;
    }
  }

  // ---- one step ----

  /** What no operation changes about a channel row that stays. */
  ghost predicate SameIdentity(row: Channel, next: Channel) {
    next.server == row.server && next.kind == row.kind && next.parent == row.parent && next.slug == row.slug
  }

  /** How the lifecycle of `t` moves in one step that keeps its row. */
  ghost predicate LifecycleStep(db: Db, next: Db, t: ChannelId)
    requires t in db.channels && t in next.channels
  {
    && SameIdentity(db.channels[t], next.channels[t])
    && (Gone(db.channels, t) ==>
          Gone(next.channels, t) && next.channels[t].tombstone == db.channels[t].tombstone)
    && (!Gone(db.channels, t) && Gone(next.channels, t) && db.channels[t].kind == Thread ==>
          next.channels[t].tombstone == Some(Listed(db, t)))
  }

  /** The row `t` hangs off, if any, is as it was. */
  ghost predicate SameLifecycle(channels: map<ChannelId, Channel>, next: map<ChannelId, Channel>) {
    forall c :: c in channels && c in next ==>
      SameIdentity(channels[c], next[c]) && next[c].deleted == channels[c].deleted &&
      next[c].tombstone == channels[c].tombstone
  }

  /** Any step that neither deletes a channel nor rewrites identities. */
  lemma QuietStep(db: Db, next: Db, t: ChannelId)
    requires ChannelsOk(db.servers, db.channels) && ChannelsOk(next.servers, next.channels)
    requires t in db.channels && t in next.channels
    requires SameLifecycle(db.channels, next.channels)
    ensures LifecycleStep(db, next, t)
    ensures Gone(next.channels, t) <==> Gone(db.channels, t)
  {
    assert ChannelOk(db.servers, db.channels, t);
    assert ChannelOk(next.servers, next.channels, t);
  }

  /** Every operation but a channel deletion is quiet. */
  lemma OnlyDeletionIsLoud(db: Db, now: Time, op: Op)
    requires !op.OpDeleteChannel?
    ensures SameLifecycle(db.channels, Next(db, now, op).channels)
  {
    hide Context, RequireChannelAccess, Gate;
    if op.EditsChannels() {
      ChannelEditIsQuiet(db, now, op);
    } else {
      OtherTablesAreQuiet(db, now, op);
    }
  }

  lemma ChannelEditIsQuiet(db: Db, now: Time, op: Op)
    requires op.EditsChannels() && !op.OpDeleteChannel?
    ensures SameLifecycle(db.channels, Next(db, now, op).channels)
  {
    hide Context, RequireChannelAccess, Gate;
  }

  lemma OtherTablesAreQuiet(db: Db, now: Time, op: Op)
    requires !op.EditsChannels()
    ensures SameLifecycle(db.channels, Next(db, now, op).channels)
  {
    if op.EditsRoster() {
      RosterCallsKeepTables(db, now, op);
      hide Apply;
    } else if op.EditsRoles() {
      RoleCallsKeepTables(db, now, op);
      hide Apply;
    }
  }

  /** What a snapshot records about a live thread is whether it is listed. */
  lemma EligibleIsListed(db: Db, t: ChannelId, s: ServerId)
    requires ChannelsOk(db.servers, db.channels) && Live(db.channels, t)
    requires db.channels[t].kind == Thread && db.channels[t].server == Some(s) && s in db.servers
    ensures TombstoneEligible(db.channels, t, db.servers[s].visibility) <==> Listed(db, t)
  {
    assert ChannelOk(db.servers, db.channels, t);
  }

  lemma DeletionStep(db: Db, s: ServerId, target: ChannelId, t: ChannelId)
    requires ChannelsOk(db.servers, db.channels) && s in db.servers
    requires Live(db.channels, target) && db.channels[target].server == Some(s) && t in db.channels
    ensures LifecycleStep(db, db.(channels := Deleted(db.channels, target, db.servers[s].visibility)), t)
  {
    var row := db.channels[t];
    assert ChannelOk(db.servers, db.channels, t);
    assert ChannelOk(db.servers, db.channels, target);
    if Live(db.channels, t) && row.kind == Thread && row.server == Some(s) {
      EligibleIsListed(db, t, s);
    }
  }

  lemma StepLifecycle(db: Db, now: Time, op: Op, t: ChannelId)
    requires Inv(db) && Inv(Next(db, now, op))
    requires t in db.channels && t in Next(db, now, op).channels
    ensures LifecycleStep(db, Next(db, now, op), t)
    ensures !Gone(db.channels, t) && Gone(Next(db, now, op).channels, t) ==>
              op.OpDeleteChannel? && (op.channel == t || db.channels[t].parent == Some(op.channel))
  {
    hide RosterOk, RolesOk, DefaultsOk, AssignmentsOk, ChannelsOk, GrantsOk, RoleLimitOk, ChannelLimitOk,
      ParticipantsOk,
      SameLifecycle, LifecycleStep, Context;
    if op.OpDeleteChannel? {
      if Apply(db, now, op).Ok? {
        DeletionStep(db, op.server, op.channel, t);
        OnlyTargetAndItsThreads(db.channels, op.channel, db.servers[op.server].visibility, t);
      } else {
        UnchangedStep(db, t);
      }
    } else {
      OnlyDeletionIsLoud(db, now, op);
      QuietStep(db, Next(db, now, op), t);
    }
  }

  lemma UnchangedStep(db: Db, t: ChannelId)
    requires t in db.channels
    ensures LifecycleStep(db, db, t)
  {
  }

  lemma OnlyTargetAndItsThreads(
    channels: map<ChannelId, Channel>, target: ChannelId, v: Visibility, t: ChannelId)
    requires target in channels && t in channels
    ensures !Gone(channels, t) && Gone(Deleted(channels, target, v), t) ==>
              t == target || channels[t].parent == Some(target)
  {
  }

  // ---- every run ----

  /** `t` has a row in every state after state `k` up to state `j`. */
  ghost predicate Stays(states: seq<Db>, k: nat, j: nat, t: ChannelId)
    requires k <= j < |states|
  {
    forall i :: k < i <= j ==> t in states[i].channels
  }

  /** Between states `i` and `i + 1` the listed thread `t` went away. */
  ghost predicate WentAwayListed(states: seq<Db>, i: nat, t: ChannelId)
    requires i + 1 < |states|
  {
    && t in states[i].channels && !Gone(states[i].channels, t)
    && t in states[i + 1].channels && Gone(states[i + 1].channels, t)
    && Listed(states[i], t)
  }

  /** A thread starts out live: it is created under a channel the caller can access. */
  lemma CreatedLive(db: Db, now: Time, op: Op, t: ChannelId)
    requires Inv(Next(db, now, op))
    requires t !in db.channels && t in Next(db, now, op).channels
    ensures !Gone(Next(db, now, op).channels, t)
  {
    hide RosterOk, RolesOk, DefaultsOk, AssignmentsOk, GrantsOk, RoleLimitOk, ChannelLimitOk, ParticipantsOk;
    if !op.EditsChannels() {
      NoNewChannel(db, now, op);
      hide Inv, Apply;
    } else if op.OpCreateThread? {
      assert ChannelOk(Next(db, now, op).servers, Next(db, now, op).channels, t);
      hide Context, MemberCanView, Gate;
    } else {
      hide Inv, Context, Gate;
    }
  }

  lemma NoNewChannel(db: Db, now: Time, op: Op)
    requires !op.EditsChannels()
    ensures Next(db, now, op).channels.Keys <= db.channels.Keys
  {
    if op.EditsRoster() {
      RosterCallsKeepTables(db, now, op);
      hide Apply;
    } else if op.EditsRoles() {
      RoleCallsKeepTables(db, now, op);
      hide Apply;
    }
  }

  /** What the row of `t` says in state `j` about its history since it was created after state `k`. */
  lemma {:induction false} TombstoneTellsHistory(calls: seq<Call>, k: nat, j: nat, t: ChannelId)
    requires k < j <= |calls|
    requires t !in Run(EMPTY, calls)[k].channels && Stays(Run(EMPTY, calls), k, j, t)
    requires Run(EMPTY, calls)[j].channels[t].kind == Thread
    ensures Run(EMPTY, calls)[j].channels[t].tombstone == Some(true) <==>
              exists i :: k < i < j && WentAwayListed(Run(EMPTY, calls), i, t)
    decreases j
  {
    hide Inv, Next, Listed;
    var states := Run(EMPTY, calls);
    ReachableStatesSatisfyInv(calls, j);
    RowMatchesTombstone(states[j], t);
    ReachableStatesSatisfyInv(calls, j - 1);
    RunStep(EMPTY, calls, j - 1);
    if j == k + 1 {
      CreatedLive(states[k], calls[k].now, calls[k].op, t);
    } else {
      RowMatchesTombstone(states[j - 1], t);
      StepLifecycle(states[j - 1], calls[j - 1].now, calls[j - 1].op, t);
      TombstoneTellsHistory(calls, k, j - 1, t);
      if WentAwayListed(states, j - 1, t) {
        assert states[j].channels[t].tombstone == Some(true);
      }
      if i :| k < i < j && WentAwayListed(states, i, t) && i < j - 1 {
        assert states[j - 1].channels[t].tombstone == Some(true);
      }
    }
  }

  lemma RowMatchesTombstone(db: Db, t: ChannelId)
    requires Inv(db) && t in db.channels
    ensures db.channels[t].tombstone.Some? <==> Gone(db.channels, t)
  {
    assert ChannelOk(db.servers, db.channels, t);
  }

  lemma {:induction false} GoneExactlyWhenListed(calls: seq<Call>, k: nat, j: nat, t: ChannelId)
    requires k < j <= |calls|
    requires t !in Run(EMPTY, calls)[k].channels && Stays(Run(EMPTY, calls), k, j, t)
    requires Run(EMPTY, calls)[j].channels[t].kind == Thread
    ensures GetPublicThread(Run(EMPTY, calls)[j], t) == Err(ThreadGone) <==>
              exists i :: k < i < j && WentAwayListed(Run(EMPTY, calls), i, t)
  {
    hide Inv, Effective, Listed;
    TombstoneTellsHistory(calls, k, j, t);
    ReachableStatesSatisfyInv(calls, j);
    RowMatchesTombstone(Run(EMPTY, calls)[j], t);
  }

  /**
   For any run, and any thread created in it whose row has stayed since: the public
   read answers "gone" exactly when the first event that took the thread away, its
   own deletion or its parent's, found it listed; its row exactly when it is open and
   nothing on the way to it is private; and otherwise that there is no such channel.
   */
  lemma {:induction false} ThreadGoneMeansListedWhenDeleted(calls: seq<Call>, k: nat, j: nat, t: ChannelId)
    requires k < j <= |calls|
    requires t !in Run(EMPTY, calls)[k].channels && Stays(Run(EMPTY, calls), k, j, t)
    requires Run(EMPTY, calls)[j].channels[t].kind == Thread
    ensures GetPublicThread(Run(EMPTY, calls)[j], t) == Err(ThreadGone) <==>
              exists i :: k < i < j && WentAwayListed(Run(EMPTY, calls), i, t)
    ensures GetPublicThread(Run(EMPTY, calls)[j], t).Ok? <==>
              exists p, s :: OpenThread(Run(EMPTY, calls)[j], t, p, s) &&
                             NoneBelow(Run(EMPTY, calls)[j], t, p, s, {Private})
    ensures GetPublicThread(Run(EMPTY, calls)[j], t) in
              {Ok(Run(EMPTY, calls)[j].channels[t]), Err(ThreadGone), Err(ChannelNotFound)}
  {
    hide GetPublicThread, OpenThread, WentAwayListed;
    PublicReadAnswers(Run(EMPTY, calls)[j], t);
    GoneExactlyWhenListed(calls, k, j, t);
  }

  /**
   Once a thread is gone its answer is settled: no later change of visibility or
   restriction, and no later deletion of its parent, alters it while its row stays.
   */
  lemma {:induction false} AnswerIsSettled(db: Db, calls: seq<Call>, i: nat, t: ChannelId)
    requires Inv(db) && t in db.channels && Gone(db.channels, t)
    requires i <= |calls| && forall l :: 0 <= l <= i ==> t in Run(db, calls)[l].channels
    ensures Gone(Run(db, calls)[i].channels, t)
    ensures GetPublicThread(Run(db, calls)[i], t) ==
            Err(if HasPublicTombstone(db, t) then ThreadGone else ChannelNotFound)
    decreases i
  {
    hide Inv, Next, Effective;
    if i > 0 {
      AnswerIsSettled(db, calls, i - 1, t);
      RunStep(db, calls, i - 1);
      RunKeepsInv(db, calls, i - 1);
      RunKeepsInv(db, calls, i);
      StepLifecycle(Run(db, calls)[i - 1], calls[i - 1].now, calls[i - 1].op, t);
    }
  }
}
