/**
 Who may be in a server's calls. A join is authorized by the database and enters the
 hub later; a kick, ban, timeout or leave changes the database first and evicts from
 the hub afterwards. Any hub region of any call may run in between.
 */
module Expulsions {
  import opened Common
  import opened Voice
  import opened HubLocks

  /** `admitted`: the account is a member of the server and not timed out. */
  datatype World = World(hub: Locks, admitted: set<(ServerId, AccountId)>)

  const EMPTY_WORLD := World(IDLE, {})

  datatype Move =
    | HubStep(step: Step)
    | Ask(account: AccountId, channel: ChannelId, handle: Handle) // `can_join_voice` says yes and the join is under way
    | Admit(server: ServerId, account: AccountId)
    | Expel(server: ServerId, account: AccountId) // and the eviction is under way

  function Spawned(hub: Locks, pc: Pc): Locks {
    HubLocks.Next(hub, Spawn(pc))
  }

  ghost predicate Possible(owners: Owners, w: World, move: Move) {
    match move
    case HubStep(step) => Enabled(owners, w.hub, step) && !(step.Spawn? && step.pc.JoinLeave?)
    case Ask(a, c, _) => c in owners && (owners[c], a) in w.admitted
    case Admit(_, _) => true
    case Expel(_, _) => true
  }

  function After(w: World, move: Move): World {
    match move
    case HubStep(step) => w.(hub := HubLocks.Next(w.hub, step))
    case Ask(a, c, h) => w.(hub := Spawned(w.hub, JoinLeave(a, c, h)))
    case Admit(s, a) => w.(admitted := w.admitted + {(s, a)})
    case Expel(s, a) => World(Spawned(w.hub, EvictRead(a, s)), w.admitted - {(s, a)})
  }

  /** This eviction of `a` from `s` will still take `a` out of the call of `c`. */
  predicate Covers(pc: Pc, a: AccountId, s: ServerId, c: ChannelId) {
    pc == EvictRead(a, s) || pc == EvictLookup(a, s, c) || pc == EvictRemove(a, s, c)
  }

  ghost predicate Covered(tasks: map<TaskId, Pc>, a: AccountId, s: ServerId, c: ChannelId) {
    exists t :: t in tasks && Covers(tasks[t], a, s, c)
  }

  /** An expelled account sits in a call of the server, and nothing in flight will take it out. */
  ghost predicate Overstays(owners: Owners, w: World, s: ServerId, a: AccountId, c: ChannelId) {
    && (s, a) !in w.admitted && c in owners && owners[c] == s
    && In(w.hub.voice, c, a) && !Covered(w.hub.tasks, a, s, c)
  }

  ghost predicate NobodyOverstays(owners: Owners, w: World, s: ServerId, a: AccountId) {
    forall c :: !Overstays(owners, w, s, a, c)
  }

  /** Task numbers are not reused. */
  ghost predicate Numbered(hub: Locks) {
    forall t :: t in hub.tasks ==> t.number < hub.spawned
  }

  // ---- one step ----

  /**
   Region `pc` of task `t` loses track of an expelled account in the call of `c`: an
   authorized join seats it there after the evictions have read, an eviction turns to
   another call the account is in, or is told that `c` is not the server's.
   */
  ghost predicate LosesTrackOf(
    w: World, t: TaskId, pick: Option<ChannelId>, reply: Result<bool>, s: ServerId, a: AccountId, c: ChannelId)
    requires t in w.hub.tasks
  {
    var pc := w.hub.tasks[t];
    && !Covered(w.hub.tasks - {t}, a, s, c)
    && ((pc.JoinInsert? && pc.account == a && pc.channel == c)
        || (pc == EvictRead(a, s) && pick.Some? && pick != Some(c) && In(w.hub.voice, c, a))
        || (pc == EvictLookup(a, s, c) && reply == Ok(false) && In(w.hub.voice, c, a)))
  }

  ghost predicate LosesTrack(owners: Owners, w: World, move: Move, s: ServerId, a: AccountId) {
    && move.HubStep? && move.step.Advance? && move.step.task in w.hub.tasks
    && (s, a) !in w.admitted
    && exists c :: c in owners && owners[c] == s &&
                   LosesTrackOf(w, move.step.task, move.step.pick, move.step.reply, s, a, c)
  }

  lemma SpawnCovers(hub: Locks, pc: Pc, a: AccountId, s: ServerId, c: ChannelId)
    requires Numbered(hub)
    ensures Covered(Spawned(hub, pc).tasks, a, s, c) <==> Covered(hub.tasks, a, s, c) || Covers(pc, a, s, c)
  {
    var next := Spawned(hub, pc).tasks;
    assert next[TaskId(hub.spawned)] == pc;
    if t :| t in hub.tasks && Covers(hub.tasks[t], a, s, c) {
      assert next[t] == hub.tasks[t];
    }
  }

  /** Replacing or ending task `t` covers what the others cover, and what it does next. */
  lemma AdvanceCovers(
    hub: Locks, t: TaskId, pick: Option<ChannelId>, reply: Result<bool>, a: AccountId, s: ServerId, c: ChannelId)
    requires t in hub.tasks
    ensures var next := Advanced(hub, t, pick, reply).tasks;
            Covered(next, a, s, c) <==>
              Covered(hub.tasks - {t}, a, s, c) || (t in next && Covers(next[t], a, s, c))
    ensures Covered(hub.tasks, a, s, c) <==>
              Covered(hub.tasks - {t}, a, s, c) || Covers(hub.tasks[t], a, s, c)
  {
    var next := Advanced(hub, t, pick, reply).tasks;
    var rest := hub.tasks - {t};
    assert forall u :: u != t ==> ((u in next <==> u in rest) && (u in rest ==> next[u] == rest[u])) by {
      hide Left, Without, Seated, Removed;
    }
    hide Advanced, Covers;
    if Covered(rest, a, s, c) {
      var u :| u in rest && Covers(rest[u], a, s, c);
      assert next[u] == rest[u] && hub.tasks[u] == rest[u];
    }
    if u :| u in hub.tasks && u != t && Covers(hub.tasks[u], a, s, c) {
      assert rest[u] == hub.tasks[u];
    }
    if u :| u in next && u != t && Covers(next[u], a, s, c) {
      assert rest[u] == next[u];
    }
  }

  /** What a region does to the seats of `a`. */
  lemma AdvanceSeats(hub: Locks, t: TaskId, pick: Option<ChannelId>, reply: Result<bool>, a: AccountId, c: ChannelId)
    requires t in hub.tasks
    ensures var pc := hub.tasks[t];
            var next := Advanced(hub, t, pick, reply).voice;
            if pc.JoinInsert? && pc.account == a && pc.channel == c then In(next, c, a)
            else if pc.EvictRead? || pc.EvictLookup? then next == hub.voice
            else if pc.EvictRemove? && pc.account == a && pc.channel == c then !In(next, c, a)
            else In(next, c, a) ==> In(hub.voice, c, a)
  {
  }

  /** One region, one call of the server: `a` overstays in it afterwards exactly when the region loses track of it. */
  lemma OverstaysAfterAdvance(
    owners: Owners, w: World, t: TaskId, pick: Option<ChannelId>, reply: Result<bool>,
    s: ServerId, a: AccountId, c: ChannelId)
    requires t in w.hub.tasks && Enabled(owners, w.hub, Advance(t, pick, reply))
    requires !Overstays(owners, w, s, a, c) && c in owners && owners[c] == s && (s, a) !in w.admitted
    ensures Overstays(owners, w.(hub := Advanced(w.hub, t, pick, reply)), s, a, c) <==>
              LosesTrackOf(w, t, pick, reply, s, a, c)
  {
    AdvanceCovers(w.hub, t, pick, reply, a, s, c);
    AdvanceSeats(w.hub, t, pick, reply, a, c);
    hide Covered, In, Left, Without, Seated, Removed;
  }

  /** A step makes an expelled account overstay exactly when it loses track of it. */
  lemma OverstaysExactlyWhen(owners: Owners, w: World, move: Move, s: ServerId, a: AccountId)
    requires Numbered(w.hub) && Possible(owners, w, move) && NobodyOverstays(owners, w, s, a)
    ensures NobodyOverstays(owners, After(w, move), s, a) <==> !LosesTrack(owners, w, move, s, a)
  {
    hide Covered, In, LosesTrackOf, Advanced, Pushed;
    var next := After(w, move);
    forall c
      ensures Overstays(owners, next, s, a, c) <==>
                move.HubStep? && move.step.Advance? && move.step.task in w.hub.tasks && (s, a) !in w.admitted &&
                c in owners && owners[c] == s &&
                LosesTrackOf(w, move.step.task, move.step.pick, move.step.reply, s, a, c)
    {
      assert !Overstays(owners, w, s, a, c);
      match move {
        case HubStep(step) =>
          match step {
            case Register(_) =>
            case Spawn(pc) => SpawnCovers(w.hub, pc, a, s, c);
            case Advance(t, pick, reply) =>
              if c in owners && owners[c] == s && (s, a) !in w.admitted {
                OverstaysAfterAdvance(owners, w, t, pick, reply, s, a, c);
              }
          }
        case Ask(b, d, h) => SpawnCovers(w.hub, JoinLeave(b, d, h), a, s, c);
        case Admit(_, _) =>
        case Expel(r, b) => SpawnCovers(w.hub, EvictRead(b, r), a, s, c);
      }
    }
    hide Overstays;
  }

  // ---- every run ----

  function Worlds(w: World, moves: seq<Move>): (worlds: seq<World>)
    ensures |worlds| == |moves| + 1 && worlds[0] == w
    decreases moves
  {
    if moves == [] then [w] else [w] + Worlds(After(w, moves[0]), moves[1..])
  }

  ghost predicate Run(owners: Owners, w: World, moves: seq<Move>)
    decreases moves
  {
    moves != [] ==> Possible(owners, w, moves[0]) && Run(owners, After(w, moves[0]), moves[1..])
  }

  ghost predicate NeverOverstays(owners: Owners, w: World, moves: seq<Move>, s: ServerId, a: AccountId)
    decreases moves
  {
    NobodyOverstays(owners, w, s, a) &&
    (moves != [] ==> NeverOverstays(owners, After(w, moves[0]), moves[1..], s, a))
  }

  ghost predicate NeverLosesTrack(owners: Owners, w: World, moves: seq<Move>, s: ServerId, a: AccountId)
    decreases moves
  {
    moves != [] ==>
      !LosesTrack(owners, w, moves[0], s, a) && NeverLosesTrack(owners, After(w, moves[0]), moves[1..], s, a)
  }

  lemma StepKeepsNumbers(w: World, move: Move)
    requires Numbered(w.hub)
    ensures Numbered(After(w, move).hub)
  {
    hide Left, Without, Seated, Pushed, Removed;
  }

  lemma {:induction false} NeverOverstaysFrom(owners: Owners, w: World, moves: seq<Move>, s: ServerId, a: AccountId)
    requires Run(owners, w, moves) && Numbered(w.hub) && NobodyOverstays(owners, w, s, a)
    ensures NeverOverstays(owners, w, moves, s, a) <==> NeverLosesTrack(owners, w, moves, s, a)
    decreases moves
  {
    hide Possible, After, NobodyOverstays, LosesTrack, Numbered;
    if moves != [] {
      OverstaysExactlyWhen(owners, w, moves[0], s, a);
      StepKeepsNumbers(w, moves[0]);
      if NobodyOverstays(owners, After(w, moves[0]), s, a) {
        NeverOverstaysFrom(owners, After(w, moves[0]), moves[1..], s, a);
      }
    }
  }

  /**
   Over whole runs of joins, expulsions and anything else in the hub: whoever is
   expelled is out of the server's calls, or about to be taken out by an eviction in
   flight, throughout, exactly when no region loses track of it.
   */
  lemma {:induction false} ExpelledLeaveExactlyWhen(owners: Owners, moves: seq<Move>, s: ServerId, a: AccountId)
    requires Run(owners, EMPTY_WORLD, moves)
    ensures NeverOverstays(owners, EMPTY_WORLD, moves, s, a) <==> NeverLosesTrack(owners, EMPTY_WORLD, moves, s, a)
  {
    hide NeverOverstays, NeverLosesTrack;
    NeverOverstaysFrom(owners, EMPTY_WORLD, moves, s, a);
  }

  // ---- when it holds ----

  /** No join of `a` into a call of `s` is under way. */
  ghost predicate NoJoin(owners: Owners, hub: Locks, s: ServerId, a: AccountId) {
    forall t :: t in hub.tasks && Joins(hub.tasks[t], a) ==>
      !(hub.tasks[t].channel in owners && owners[hub.tasks[t].channel] == s)
  }

  /**
   Expulsions come when no join of the account into the server is under way, the
   account is in one call at a time, and the database knows the server's channels.
   */
  ghost predicate Undisturbed(owners: Owners, w: World, move: Move, s: ServerId, a: AccountId) {
    && OneRoom(w.hub.voice, a)
    && (move == Expel(s, a) ==> NoJoin(owners, w.hub, s, a))
    && (move.HubStep? && move.step.Advance? && move.step.task in w.hub.tasks &&
        w.hub.tasks[move.step.task].EvictLookup? &&
        w.hub.tasks[move.step.task].channel in owners && owners[w.hub.tasks[move.step.task].channel] == s
        ==> move.step.reply != Ok(false))
  }

  lemma UndisturbedKeepsTrack(owners: Owners, w: World, move: Move, s: ServerId, a: AccountId)
    requires Possible(owners, w, move) && Undisturbed(owners, w, move, s, a)
    requires (s, a) !in w.admitted ==> NoJoin(owners, w.hub, s, a)
    ensures !LosesTrack(owners, w, move, s, a)
  {
    hide Covered;
  }

  lemma UndisturbedKeepsJoinsOut(owners: Owners, w: World, move: Move, s: ServerId, a: AccountId)
    requires Possible(owners, w, move) && Undisturbed(owners, w, move, s, a)
    requires (s, a) !in w.admitted ==> NoJoin(owners, w.hub, s, a)
    ensures var next := After(w, move); (s, a) !in next.admitted ==> NoJoin(owners, next.hub, s, a)
  {
    hide OneRoom, Stops, Left, Without, Seated, Pushed, Removed;
  }

  ghost predicate AllUndisturbed(owners: Owners, w: World, moves: seq<Move>, s: ServerId, a: AccountId)
    decreases moves
  {
    moves != [] ==>
      Undisturbed(owners, w, moves[0], s, a) && AllUndisturbed(owners, After(w, moves[0]), moves[1..], s, a)
  }

  lemma {:induction false} UndisturbedNeverLosesTrack(
    owners: Owners, w: World, moves: seq<Move>, s: ServerId, a: AccountId)
    requires Run(owners, w, moves) && AllUndisturbed(owners, w, moves, s, a)
    requires (s, a) !in w.admitted ==> NoJoin(owners, w.hub, s, a)
    ensures NeverLosesTrack(owners, w, moves, s, a)
    decreases moves
  {
    hide Possible, After, Undisturbed, LosesTrack, NoJoin;
    if moves != [] {
      UndisturbedKeepsTrack(owners, w, moves[0], s, a);
      UndisturbedKeepsJoinsOut(owners, w, moves[0], s, a);
      UndisturbedNeverLosesTrack(owners, After(w, moves[0]), moves[1..], s, a);
    }
  }

  /** So the eviction does its work in every run that the races above do not disturb. */
  lemma {:induction false} ExpelledLeave(owners: Owners, moves: seq<Move>, s: ServerId, a: AccountId)
    requires Run(owners, EMPTY_WORLD, moves)
    ensures AllUndisturbed(owners, EMPTY_WORLD, moves, s, a) ==> NeverOverstays(owners, EMPTY_WORLD, moves, s, a)
  {
    hide NeverOverstays, NeverLosesTrack, AllUndisturbed;
    ExpelledLeaveExactlyWhen(owners, moves, s, a);
    if AllUndisturbed(owners, EMPTY_WORLD, moves, s, a) {
      UndisturbedNeverLosesTrack(owners, EMPTY_WORLD, moves, s, a);
    }
  }

  // ---- where it fails ----

  const GUILD := ServerId(1)
  const OWNERS: Owners := map[TEXT_CALL := GUILD]
  const JOIN := TaskId(0)
  const EVICTION := TaskId(1)

  /** Authorized, kicked, looked for and not found, and only then seated. */
  const KICKED: seq<Move> := [
    Admit(GUILD, ALICE), HubStep(Register(ALICE)), Ask(ALICE, TEXT_CALL, FIRST_TAB), Expel(GUILD, ALICE),
    HubStep(Advance(EVICTION, None, Ok(true))), HubStep(Advance(JOIN, None, Ok(true))),
    HubStep(Advance(JOIN, None, Ok(true)))]

  const LEAVES := JoinLeave(ALICE, TEXT_CALL, FIRST_TAB)
  const TABS: Registry := map[ALICE := [FIRST_TAB]]

  const KICKED_WORLDS: seq<World> := [
    EMPTY_WORLD,
    World(IDLE, {(GUILD, ALICE)}),
    World(Locks(TABS, map[], 1, 0, map[]), {(GUILD, ALICE)}),
    World(Locks(TABS, map[], 1, 1, map[JOIN := LEAVES]), {(GUILD, ALICE)}),
    World(Locks(TABS, map[], 1, 2, map[JOIN := LEAVES, EVICTION := EvictRead(ALICE, GUILD)]), {}),
    World(Locks(TABS, map[], 1, 2, map[JOIN := LEAVES]), {}),
    World(Locks(TABS, map[], 1, 2, map[JOIN := JoinInsert(ALICE, TEXT_CALL, FIRST_TAB)]), {}),
    World(Locks(TABS, map[TEXT_CALL := map[ALICE := FIRST_TAB]], 1, 2, map[]), {})]

  ghost predicate Takes(owners: Owners, w: World, move: Move, next: World) {
    Possible(owners, w, move) && After(w, move) == next
  }

  lemma KickedEarly(i: nat)
    requires i < 4
    ensures Takes(OWNERS, KICKED_WORLDS[i], KICKED[i], KICKED_WORLDS[i + 1])
  {
    assert [] + [FIRST_TAB] == [FIRST_TAB];
  }

  lemma KickedLate(i: nat)
    requires 4 <= i < 7
    ensures Takes(OWNERS, KICKED_WORLDS[i], KICKED[i], KICKED_WORLDS[i + 1])
  {
    assert Swept(map[]) == map[];
  }

  lemma {:induction false} RunOfWorlds(owners: Owners, moves: seq<Move>, worlds: seq<World>)
    requires |worlds| == |moves| + 1
    requires forall i :: 0 <= i < |moves| ==> Takes(owners, worlds[i], moves[i], worlds[i + 1])
    ensures Run(owners, worlds[0], moves) && Worlds(worlds[0], moves) == worlds
    decreases moves
  {
    hide Possible, After;
    if moves != [] {
      assert Takes(owners, worlds[0], moves[0], worlds[1]);
      forall i | 0 <= i < |moves[1..]|
        ensures Takes(owners, worlds[1..][i], moves[1..][i], worlds[1..][i + 1])
      {
        assert Takes(owners, worlds[i + 1], moves[i + 1], worlds[i + 2]);
      }
      RunOfWorlds(owners, moves[1..], worlds[1..]);
    }
  }

  /** At the end of the race the kicked account is in a call of the server and nothing is in flight. */
  lemma {:induction false} KickedAccountStaysInCall()
    ensures Run(OWNERS, EMPTY_WORLD, KICKED)
    ensures Worlds(EMPTY_WORLD, KICKED)[7].hub.tasks == map[]
    ensures Overstays(OWNERS, Worlds(EMPTY_WORLD, KICKED)[7], GUILD, ALICE, TEXT_CALL)
  {
    hide Takes;
    forall i | 0 <= i < |KICKED|
      ensures Takes(OWNERS, KICKED_WORLDS[i], KICKED[i], KICKED_WORLDS[i + 1])
    {
      if i < 4 {
        KickedEarly(i);
      } else {
        KickedLate(i);
      }
    }
    RunOfWorlds(OWNERS, KICKED, KICKED_WORLDS);
  }
}
