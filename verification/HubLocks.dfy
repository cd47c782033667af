/**
 The hub one lock region at a time. A task is a call in flight; between two of its
 regions any region of any other task may run. `Voice` says what each region does to
 the map it holds the lock of.
 */
module HubLocks {
  import opened Common
  import opened Voice

  datatype TaskId = TaskId(number: int)

  /** What a task does next. */
  datatype Pc =
    | JoinLeave(account: AccountId, channel: ChannelId, handle: Handle)
    | JoinInsert(account: AccountId, channel: ChannelId, handle: Handle)
    | Leave(account: AccountId, only: Option<Handle>)
    | EvictRead(account: AccountId, server: ServerId)
    | EvictLookup(account: AccountId, server: ServerId, channel: ChannelId)
    | EvictRemove(account: AccountId, server: ServerId, channel: ChannelId)
    | CloseLeave(account: AccountId, handle: Handle)
    | CloseDrop(account: AccountId, handle: Handle)

  datatype Locks = Locks(
    connections: Registry,
    voice: Rooms,
    issued: int,
    spawned: int,
    tasks: map<TaskId, Pc>)

  const IDLE := Locks(map[], map[], 0, 0, map[])

  datatype Step =
    | Register(account: AccountId)
    | Spawn(pc: Pc)
    // `pick` is the room the map walk meets first; `reply` is the database's answer
    | Advance(task: TaskId, pick: Option<ChannelId>, reply: Result<bool>)

  /** The server a channel belongs to never changes. */
  type Owners = map<ChannelId, ServerId>

  predicate Starts(pc: Pc) {
    pc.JoinLeave? || pc.Leave? || pc.EvictRead? || pc.CloseLeave?
  }

  /** `pick` is a room the walk could stop at, or none if there is none. */
  ghost predicate Stops(voice: Rooms, a: AccountId, only: Option<Handle>, pick: Option<ChannelId>) {
    match pick
    case Some(c) => In(voice, c, a) && Matches(only, voice[c][a])
    case None => forall c :: In(voice, c, a) ==> !Matches(only, voice[c][a])
  }

  function Left(voice: Rooms, a: AccountId, pick: Option<ChannelId>): Rooms {
    match pick
    case Some(c) => Without(voice, c, a)
    case None => Swept(voice)
  }

  /** A yes needs the channel to be the server's; it may be a no for a deleted channel, and it may be an error. */
  predicate Honest(owners: Owners, c: ChannelId, s: ServerId, reply: Result<bool>) {
    reply == Ok(true) ==> c in owners && owners[c] == s
  }

  ghost predicate Enabled(owners: Owners, st: Locks, step: Step) {
    match step
    case Register(_) => true
    case Spawn(pc) => Starts(pc)
    case Advance(t, pick, reply) =>
      t in st.tasks &&
      match st.tasks[t]
      case JoinLeave(a, _, _) => Stops(st.voice, a, None, pick)
      case JoinInsert(_, _, _) => true
      case Leave(a, only) => Stops(st.voice, a, only, pick)
      case EvictRead(a, _) => Stops(st.voice, a, None, pick)
      case EvictLookup(_, s, c) => Honest(owners, c, s, reply)
      case EvictRemove(_, _, _) => true
      case CloseLeave(a, h) => Stops(st.voice, a, Some(h), pick)
      case CloseDrop(_, _) => true
  }

  function Next(st: Locks, step: Step): Locks {
    match step
    case Register(a) => st.(connections := Pushed(st.connections, a, Handle(st.issued)), issued := st.issued + 1)
    case Spawn(pc) => st.(tasks := st.tasks[TaskId(st.spawned) := pc], spawned := st.spawned + 1)
    case Advance(t, pick, reply) =>
      if t in st.tasks then Advanced(st, t, pick, reply) else st
  }

  function Advanced(st: Locks, t: TaskId, pick: Option<ChannelId>, reply: Result<bool>): Locks
    requires t in st.tasks
  {
    var done := st.tasks - {t};
    match st.tasks[t]
    case JoinLeave(a, c, h) => st.(voice := Left(st.voice, a, pick), tasks := st.tasks[t := JoinInsert(a, c, h)])
    case JoinInsert(a, c, h) => st.(voice := Seated(st.voice, c, a, h), tasks := done)
    case Leave(a, _) => st.(voice := Left(st.voice, a, pick), tasks := done)
    case EvictRead(a, s) =>
      if pick.Some? then st.(tasks := st.tasks[t := EvictLookup(a, s, pick.value)]) else st.(tasks := done)
    case EvictLookup(a, s, c) =>
      if reply == Ok(false) then st.(tasks := done) else st.(tasks := st.tasks[t := EvictRemove(a, s, c)])
    case EvictRemove(a, _, c) => st.(voice := Without(st.voice, c, a), tasks := done)
    case CloseLeave(a, h) => st.(voice := Left(st.voice, a, pick), tasks := st.tasks[t := CloseDrop(a, h)])
    case CloseDrop(a, h) => st.(connections := Removed(st.connections, a, h), tasks := done)
  }

  function States(st: Locks, steps: seq<Step>): (states: seq<Locks>)
    ensures |states| == |steps| + 1 && states[0] == st
    decreases steps
  {
    if steps == [] then [st] else [st] + States(Next(st, steps[0]), steps[1..])
  }

  lemma {:induction false} StatesStep(st: Locks, steps: seq<Step>, i: nat)
    requires i < |steps|
    ensures States(st, steps)[i + 1] == Next(States(st, steps)[i], steps[i])
    decreases steps
  {
    if i > 0 {
      StatesStep(Next(st, steps[0]), steps[1..], i - 1);
    }
  }

  ghost predicate Run(owners: Owners, st: Locks, steps: seq<Step>) {
    forall i :: 0 <= i < |steps| ==> Enabled(owners, States(st, steps)[i], steps[i])
  }

  // ---- what each region does ----

  /** Who sits where after a region, and who is connected, seat by seat. */
  lemma RegionDoes(st: Locks, t: TaskId, pick: Option<ChannelId>, reply: Result<bool>)
    requires t in st.tasks && NoEmptyRoom(st.voice) && NoEmptyList(st.connections)
    ensures var pc, next := st.tasks[t], Advanced(st, t, pick, reply);
            && (forall c, x, h :: At(next.voice, c, x, h) <==>
                  if pc.JoinInsert? && c == pc.channel && x == pc.account then h == pc.handle
                  else At(st.voice, c, x, h) &&
                       !(x == pc.account &&
                         (((pc.JoinLeave? || pc.Leave? || pc.CloseLeave?) && pick == Some(c)) ||
                          (pc.EvictRemove? && pc.channel == c))))
            && (forall x, h :: Connected(next.connections, x, h) <==>
                  Connected(st.connections, x, h) && !(pc.CloseDrop? && x == pc.account && h == pc.handle))
  {
    hide Without, Swept, Seated, Removed, At, Connected;
    var pc := st.tasks[t];
    if pc.JoinInsert? {
      SeatedSeats(st.voice, pc.channel, pc.account, pc.handle);
    } else if pc.EvictRemove? {
      WithoutSeats(st.voice, pc.channel, pc.account);
    } else if pc.CloseDrop? {
      RemovedSeats(st.connections, pc.account, pc.handle);
    } else if pick.Some? {
      WithoutSeats(st.voice, pick.value, pc.account);
    } else {
      SweptSeats(st.voice);
    }
  }

  // ---- scoped eviction ----

  /** At step `j` task `t`, evicting `a` from `s`, read that `a` is in the call of `c`. */
  ghost predicate ReadAt(st: Locks, steps: seq<Step>, j: nat, t: TaskId, a: AccountId, s: ServerId, c: ChannelId)
    requires j < |steps|
  {
    var now := States(st, steps)[j];
    && steps[j].Advance? && steps[j].task == t && t in now.tasks && now.tasks[t] == EvictRead(a, s)
    && steps[j].pick == Some(c) && In(now.voice, c, a)
  }

  /** At step `k` the database told task `t` yes, or failed to answer, about `c` and `s`. */
  ghost predicate ClearedAt(st: Locks, steps: seq<Step>, k: nat, t: TaskId, a: AccountId, s: ServerId, c: ChannelId)
    requires k < |steps|
  {
    var now := States(st, steps)[k];
    && steps[k].Advance? && steps[k].task == t && t in now.tasks && now.tasks[t] == EvictLookup(a, s, c)
    && steps[k].reply != Ok(false)
  }

  /** What the pc of an evicting task says about the steps before. */
  ghost predicate Remembers(st: Locks, steps: seq<Step>, i: nat, t: TaskId)
    requires i <= |steps|
  {
    var now := States(st, steps)[i];
    t in now.tasks ==>
      match now.tasks[t]
      case EvictLookup(a, s, c) => exists j :: 0 <= j < i && ReadAt(st, steps, j, t, a, s, c)
      case EvictRemove(a, s, c) =>
        exists j, k :: 0 <= j < k < i && ReadAt(st, steps, j, t, a, s, c) && ClearedAt(st, steps, k, t, a, s, c)
      case _ => true
  }

  lemma {:induction false} TasksRemember(owners: Owners, st: Locks, steps: seq<Step>, i: nat, t: TaskId)
    requires Run(owners, st, steps) && i <= |steps|
    requires st.tasks == map[]
    ensures Remembers(st, steps, i, t)
    decreases i
  {
    hide ReadAt, ClearedAt, In, Left, Without, Seated, Pushed, Removed;
    if i > 0 {
      TasksRemember(owners, st, steps, i - 1, t);
      StatesStep(st, steps, i - 1);
      var before, now := States(st, steps)[i - 1], States(st, steps)[i];
      assert Enabled(owners, before, steps[i - 1]);
      if t in now.tasks {
        match now.tasks[t] {
          case EvictLookup(a, s, c) =>
            if !(t in before.tasks && before.tasks[t] == EvictLookup(a, s, c)) {
              assert ReadAt(st, steps, i - 1, t, a, s, c) by {
                JustRead(owners, st, steps, i - 1, t, a, s, c);
              }
            }
          case EvictRemove(a, s, c) =>
            if !(t in before.tasks && before.tasks[t] == EvictRemove(a, s, c)) {
              JustCleared(owners, st, steps, i - 1, t, a, s, c);
              assert ClearedAt(st, steps, i - 1, t, a, s, c);
              var j :| 0 <= j < i - 1 && ReadAt(st, steps, j, t, a, s, c);
            }
          case _ =>
        }
      }
    }
  }

  lemma {:induction false} JustRead(
    owners: Owners, st: Locks, steps: seq<Step>, i: nat, t: TaskId, a: AccountId, s: ServerId, c: ChannelId)
    requires i < |steps| && Enabled(owners, States(st, steps)[i], steps[i])
    requires States(st, steps)[i + 1] == Next(States(st, steps)[i], steps[i])
    requires t in States(st, steps)[i + 1].tasks && States(st, steps)[i + 1].tasks[t] == EvictLookup(a, s, c)
    requires !(t in States(st, steps)[i].tasks && States(st, steps)[i].tasks[t] == EvictLookup(a, s, c))
    ensures ReadAt(st, steps, i, t, a, s, c)
  {
  }

  lemma {:induction false} JustCleared(
    owners: Owners, st: Locks, steps: seq<Step>, i: nat, t: TaskId, a: AccountId, s: ServerId, c: ChannelId)
    requires i < |steps| && Enabled(owners, States(st, steps)[i], steps[i])
    requires States(st, steps)[i + 1] == Next(States(st, steps)[i], steps[i])
    requires t in States(st, steps)[i + 1].tasks && States(st, steps)[i + 1].tasks[t] == EvictRemove(a, s, c)
    requires !(t in States(st, steps)[i].tasks && States(st, steps)[i].tasks[t] == EvictRemove(a, s, c))
    ensures ClearedAt(st, steps, i, t, a, s, c)
  {
  }

  /** A step an evicting task takes. */
  predicate Evicts(st: Locks, step: Step, a: AccountId, s: ServerId) {
    step.Advance? && step.task in st.tasks &&
    var pc := st.tasks[step.task];
    (pc.EvictRead? || pc.EvictLookup? || pc.EvictRemove?) && pc.account == a && pc.server == s
  }

  /**
   Under every interleaving, a step of `voice_leave_if_in_server(a, s)` either leaves
   every call alone or takes `a`, and nobody else, out of the call of one channel `c`:
   the one this task read `a` to be in, and only after the database placed `c` in
   `s` or failed to answer.
   */
  lemma {:induction false} EvictionIsScoped(
    owners: Owners, steps: seq<Step>, i: nat, a: AccountId, s: ServerId)
    requires Run(owners, IDLE, steps) && i < |steps| && Evicts(States(IDLE, steps)[i], steps[i], a, s)
    ensures var before, after := States(IDLE, steps)[i].voice, States(IDLE, steps)[i + 1].voice;
            after == before ||
            exists c, j, k :: 0 <= j < k < i &&
              (forall d, x, h :: At(after, d, x, h) <==> At(before, d, x, h) && !(d == c && x == a)) &&
              ReadAt(IDLE, steps, j, steps[i].task, a, s, c) &&
              ClearedAt(IDLE, steps, k, steps[i].task, a, s, c) &&
              (steps[k].reply.Ok? ==> c in owners && owners[c] == s)
  {
    hide ReadAt, In, Without, Run;
    var t := steps[i].task;
    var before := States(IDLE, steps)[i];
    StatesStep(IDLE, steps, i);
    TasksRemember(owners, IDLE, steps, i, t);
    if before.tasks[t].EvictRemove? {
      var c := before.tasks[t].channel;
      var j, k :| 0 <= j < k < i && ReadAt(IDLE, steps, j, t, a, s, c) && ClearedAt(IDLE, steps, k, t, a, s, c);
      assert steps[k].reply.Ok? ==> c in owners && owners[c] == s by {
        HonestAt(owners, steps, k, t, a, s, c);
      }
      WithoutSeats(before.voice, c, a);
    }
  }

  lemma {:induction false} HonestAt(
    owners: Owners, steps: seq<Step>, k: nat, t: TaskId, a: AccountId, s: ServerId, c: ChannelId)
    requires Run(owners, IDLE, steps) && k < |steps| && ClearedAt(IDLE, steps, k, t, a, s, c)
    ensures steps[k].reply.Ok? ==> c in owners && owners[c] == s
  {
    assert Enabled(owners, States(IDLE, steps)[k], steps[k]);
    match steps[k].reply
    case Ok(yes) => assert yes;
    case Err(_) =>
  }

  // ---- presence ----

  /** What the region announces about `a`: came online, went offline, or nothing. */
  function Announced(st: Locks, step: Step, a: AccountId): seq<bool> {
    match step
    case Register(b) =>
      if b == a && |Pushed(st.connections, b, Handle(st.issued))[b]| == 1 then [true] else []
    case Spawn(_) => []
    case Advance(t, _, _) =>
      if t in st.tasks && st.tasks[t].CloseDrop? && st.tasks[t].account == a && a in st.connections &&
         Dropped(st.connections[a], st.tasks[t].handle) == []
      then [false] else []
  }

  /** Every announcement about `a` in the first `i` regions, in the order their locks were taken. */
  function Announcements(st: Locks, steps: seq<Step>, a: AccountId, i: nat): seq<bool>
    requires i <= |steps|
  {
    if i == 0 then []
    else Announcements(st, steps, a, i - 1) + Announced(States(st, steps)[i - 1], steps[i - 1], a)
  }

  lemma {:induction false} StepKeepsLists(st: Locks, step: Step)
    requires NoEmptyList(st.connections)
    ensures NoEmptyList(Next(st, step).connections)
  {
    if step.Advance? && step.task in st.tasks && st.tasks[step.task].CloseDrop? {
      RemovedSeats(st.connections, st.tasks[step.task].account, st.tasks[step.task].handle);
    }
  }

  /**
   Under every interleaving, and whatever handles are closed, the announcements about
   an account are online, offline, online, ..., and the account has connections, which
   is what `presence_snapshot` asks, exactly when the last one was online.
   */
  lemma {:induction false} PresenceAlternates(steps: seq<Step>, a: AccountId, i: nat)
    requires i <= |steps|
    ensures NoEmptyList(States(IDLE, steps)[i].connections)
    ensures forall n :: 0 <= n < |Announcements(IDLE, steps, a, i)| ==>
              (Announcements(IDLE, steps, a, i)[n] <==> n % 2 == 0)
    ensures a in States(IDLE, steps)[i].connections <==>
              Announcements(IDLE, steps, a, i) != [] &&
              Announcements(IDLE, steps, a, i)[|Announcements(IDLE, steps, a, i)| - 1]
    decreases i
  {
    hide Next, Announced, NoEmptyList;
    if i == 0 {
      NoListsAtFirst();
    } else {
      PresenceAlternates(steps, a, i - 1);
      StatesStep(IDLE, steps, i - 1);
      StepKeepsLists(States(IDLE, steps)[i - 1], steps[i - 1]);
      AnnouncedFlips(States(IDLE, steps)[i - 1], steps[i - 1], a);
    }
  }

  lemma NoListsAtFirst()
    ensures NoEmptyList(IDLE.connections)
  {
  }

  lemma {:induction false} AnnouncedFlips(st: Locks, step: Step, a: AccountId)
    requires NoEmptyList(st.connections)
    ensures Announced(st, step, a) ==
            if (a in st.connections) == (a in Next(st, step).connections) then []
            else [a in Next(st, step).connections]
  {
  }

  // ---- one room per account ----

  predicate Joins(pc: Pc, a: AccountId) {
    (pc.JoinLeave? || pc.JoinInsert?) && pc.account == a
  }

  predicate JoinsOn(pc: Pc, h: Handle) {
    (pc.JoinLeave? || pc.JoinInsert?) && pc.handle == h
  }

  predicate ClosesOn(pc: Pc, h: Handle) {
    (pc.CloseLeave? || pc.CloseDrop?) && pc.handle == h
  }

  /**
   Joins of one account take turns, and each socket makes its calls one after the
   other: it joins only while registered, and closes last.
   */
  ghost predicate TakesTurns(st: Locks, step: Step) {
    step.Spawn? ==>
      match step.pc
      case JoinLeave(a, _, h) =>
        && (forall t :: t in st.tasks ==> !Joins(st.tasks[t], a))
        && (forall t :: t in st.tasks ==> !ClosesOn(st.tasks[t], h))
        && Connected(st.connections, a, h)
      case CloseLeave(_, h) => forall t :: t in st.tasks ==> !JoinsOn(st.tasks[t], h)
      case _ => true
  }

  /** What holds between any two regions of such a run. */
  ghost predicate Orderly(st: Locks) {
    && NoEmptyList(st.connections) && HandlesOk(st.connections, st.issued) && VoiceOk(st.connections, st.voice)
    && TasksOrderly(st.connections, st.voice, st.tasks)
    && (forall t :: t in st.tasks ==> t.number < st.spawned)
  }

  ghost predicate TaskOrderly(connections: Registry, voice: Rooms, pc: Pc) {
    && ((pc.JoinLeave? || pc.JoinInsert?) ==> Connected(connections, pc.account, pc.handle))
    && (pc.JoinInsert? ==> forall c :: !In(voice, c, pc.account))
    && (pc.CloseDrop? ==> forall c :: !At(voice, c, pc.account, pc.handle))
  }

  ghost predicate TasksOrderly(connections: Registry, voice: Rooms, tasks: map<TaskId, Pc>) {
    && (forall t :: t in tasks ==> TaskOrderly(connections, voice, tasks[t]))
    && (forall t, u, a :: t in tasks && u in tasks && Joins(tasks[t], a) && Joins(tasks[u], a) ==> t == u)
    && (forall t, u, h :: t in tasks && u in tasks ==> !(JoinsOn(tasks[t], h) && ClosesOn(tasks[u], h)))
  }

  /** Leaving takes the account out of its one room, if the handle matches. */
  lemma LeftSeats(connections: Registry, voice: Rooms, a: AccountId, only: Option<Handle>, pick: Option<ChannelId>)
    requires VoiceOk(connections, voice) && Stops(voice, a, only, pick)
    ensures NoEmptyRoom(Left(voice, a, pick))
    ensures forall c, b, h :: At(Left(voice, a, pick), c, b, h) ==> At(voice, c, b, h)
    ensures forall c, h :: At(Left(voice, a, pick), c, a, h) ==> !Matches(only, h)
  {
    hide Without, Swept;
    assert OneRoom(voice, a);
    match pick {
      case Some(c) =>
        WithoutSeats(voice, c, a);
        forall d, h | At(voice, d, a, h)
          ensures d == c
        {
          assert In(voice, d, a);
        }
      case None =>
        SweptSeats(voice);
        forall d, h | At(Left(voice, a, pick), d, a, h)
          ensures !Matches(only, h)
        {
          assert At(voice, d, a, h);
          assert In(voice, d, a);
        }
    }
  }

  lemma FewerSeatsTask(connections: Registry, voice: Rooms, next: Rooms, pc: Pc)
    requires TaskOrderly(connections, voice, pc)
    requires forall c, h :: At(next, c, pc.account, h) ==> At(voice, c, pc.account, h)
    ensures TaskOrderly(connections, next, pc)
  {
    hide Connected;
    if pc.JoinInsert? {
      forall c
        ensures !In(next, c, pc.account)
      {
        assert In(next, c, pc.account) ==> At(next, c, pc.account, next[c][pc.account]);
        assert !In(voice, c, pc.account);
      }
    }
  }

  /** Fewer seats disturb no task. */
  lemma FewerSeatsOrderly(connections: Registry, voice: Rooms, next: Rooms, tasks: map<TaskId, Pc>)
    requires TasksOrderly(connections, voice, tasks)
    requires forall c, a, h :: At(next, c, a, h) ==> At(voice, c, a, h)
    ensures TasksOrderly(connections, next, tasks)
  {
    forall t | t in tasks
      ensures TaskOrderly(connections, next, tasks[t])
    {
      FewerSeatsTask(connections, voice, next, tasks[t]);
    }
  }

  lemma FewerTasksOrderly(connections: Registry, voice: Rooms, tasks: map<TaskId, Pc>, t: TaskId)
    requires TasksOrderly(connections, voice, tasks)
    ensures TasksOrderly(connections, voice, tasks - {t})
  {
  }

  /** A task moves on, keeping what it joins or closes. */
  lemma TaskMovesOrderly(connections: Registry, voice: Rooms, tasks: map<TaskId, Pc>, t: TaskId, pc: Pc)
    requires TasksOrderly(connections, voice, tasks) && t in tasks && TaskOrderly(connections, voice, pc)
    requires forall a :: Joins(pc, a) ==> Joins(tasks[t], a)
    requires forall h :: JoinsOn(pc, h) ==> JoinsOn(tasks[t], h)
    requires forall h :: ClosesOn(pc, h) ==> ClosesOn(tasks[t], h)
    ensures TasksOrderly(connections, voice, tasks[t := pc])
  {
    hide TaskOrderly;
  }

  lemma RegisterOrderly(st: Locks, a: AccountId)
    requires Orderly(st)
    ensures Orderly(Next(st, Register(a)))
  {
    PushedKeeps(st.connections, st.voice, st.issued, a);
    PushedSeats(st.connections, a, Handle(st.issued));
    hide Pushed, Connected, VoiceOk, HandlesOk, NoEmptyList, In, At;
    forall t | t in st.tasks
      ensures TaskOrderly(Pushed(st.connections, a, Handle(st.issued)), st.voice, st.tasks[t])
    {
      assert TaskOrderly(st.connections, st.voice, st.tasks[t]);
    }
  }

  lemma SpawnOrderly(st: Locks, pc: Pc)
    requires Orderly(st) && Starts(pc) && TakesTurns(st, Spawn(pc))
    ensures Orderly(Next(st, Spawn(pc)))
  {
    hide VoiceOk, HandlesOk, NoEmptyList, Connected, In, At;
  }

  lemma JoinLeaveOrderly(st: Locks, t: TaskId, pick: Option<ChannelId>)
    requires Orderly(st) && t in st.tasks && st.tasks[t].JoinLeave?
    requires Stops(st.voice, st.tasks[t].account, None, pick)
    ensures Orderly(Advanced(st, t, pick, Ok(true)))
  {
    var pc := st.tasks[t];
    var voice := Left(st.voice, pc.account, pick);
    LeftSeats(st.connections, st.voice, pc.account, None, pick);
    hide Left, VoiceOk, HandlesOk, NoEmptyList, NoEmptyRoom, TasksOrderly, At, In;
    FewerSeatsKeep(st.connections, st.voice, voice);
    FewerSeatsOrderly(st.connections, st.voice, voice, st.tasks);
    var next := JoinInsert(pc.account, pc.channel, pc.handle);
    assert TaskOrderly(st.connections, voice, next) by {
      SeatOf(voice, pc.account);
      OrderlyTask(st.connections, voice, st.tasks, t);
    }
    TaskMovesOrderly(st.connections, voice, st.tasks, t, next);
  }

  lemma OrderlyTask(connections: Registry, voice: Rooms, tasks: map<TaskId, Pc>, t: TaskId)
    requires TasksOrderly(connections, voice, tasks) && t in tasks
    ensures TaskOrderly(connections, voice, tasks[t])
  {
  }

  lemma InsertDisturbsNoTask(connections: Registry, voice: Rooms, next: Rooms, pc: Pc, other: Pc)
    requires pc.JoinInsert? && TaskOrderly(connections, voice, other)
    requires !Joins(other, pc.account) && !ClosesOn(other, pc.handle)
    requires forall d, b, g :: At(next, d, b, g) <==>
               (if d == pc.channel && b == pc.account then g == pc.handle else At(voice, d, b, g))
    ensures TaskOrderly(connections, next, other)
  {
    hide Connected;
    if other.JoinInsert? {
      FewerSeatsTask(connections, voice, next, other);
    }
  }

  lemma JoinInsertOrderly(st: Locks, t: TaskId)
    requires Orderly(st) && t in st.tasks && st.tasks[t].JoinInsert?
    ensures Orderly(Advanced(st, t, None, Ok(true)))
  {
    var pc := st.tasks[t];
    var voice := Seated(st.voice, pc.channel, pc.account, pc.handle);
    OrderlyTask(st.connections, st.voice, st.tasks, t);
    SeatedKeeps(st.connections, st.voice, pc.channel, pc.account, pc.handle);
    assert NoEmptyRoom(st.voice);
    SeatedSeats(st.voice, pc.channel, pc.account, pc.handle);
    hide Seated, VoiceOk, HandlesOk, NoEmptyList, NoEmptyRoom, Connected, At, In;
    forall u | u in st.tasks - {t}
      ensures TaskOrderly(st.connections, voice, st.tasks[u])
    {
      OrderlyTask(st.connections, st.voice, st.tasks, u);
      assert Joins(pc, pc.account) && JoinsOn(pc, pc.handle);
      assert !Joins(st.tasks[u], pc.account) && !ClosesOn(st.tasks[u], pc.handle);
      InsertDisturbsNoTask(st.connections, st.voice, voice, pc, st.tasks[u]);
    }
  }

  lemma LeaveOrderly(st: Locks, t: TaskId, pick: Option<ChannelId>)
    requires Orderly(st) && t in st.tasks && st.tasks[t].Leave?
    requires Stops(st.voice, st.tasks[t].account, st.tasks[t].only, pick)
    ensures Orderly(Advanced(st, t, pick, Ok(true)))
  {
    var pc := st.tasks[t];
    var voice := Left(st.voice, pc.account, pick);
    LeftSeats(st.connections, st.voice, pc.account, pc.only, pick);
    hide Left, VoiceOk, HandlesOk, NoEmptyList, NoEmptyRoom, TasksOrderly, At, In;
    FewerSeatsKeep(st.connections, st.voice, voice);
    FewerSeatsOrderly(st.connections, st.voice, voice, st.tasks);
    FewerTasksOrderly(st.connections, voice, st.tasks, t);
  }

  lemma EvictOrderly(st: Locks, t: TaskId, pick: Option<ChannelId>, reply: Result<bool>)
    requires Orderly(st) && t in st.tasks
    requires st.tasks[t].EvictRead? || st.tasks[t].EvictLookup? || st.tasks[t].EvictRemove?
    ensures Orderly(Advanced(st, t, pick, reply))
  {
    var pc := st.tasks[t];
    if pc.EvictRemove? {
      var voice := Without(st.voice, pc.channel, pc.account);
      WithoutSeats(st.voice, pc.channel, pc.account);
      hide Without, VoiceOk, HandlesOk, NoEmptyList, NoEmptyRoom, TasksOrderly, At, In;
      FewerSeatsKeep(st.connections, st.voice, voice);
      FewerSeatsOrderly(st.connections, st.voice, voice, st.tasks);
      FewerTasksOrderly(st.connections, voice, st.tasks, t);
    } else {
      hide VoiceOk, HandlesOk, NoEmptyList, NoEmptyRoom, TasksOrderly, At, In;
      FewerTasksOrderly(st.connections, st.voice, st.tasks, t);
      var next := Advanced(st, t, pick, reply).tasks;
      if t in next {
        assert TaskOrderly(st.connections, st.voice, next[t]);
        TaskMovesOrderly(st.connections, st.voice, st.tasks, t, next[t]);
      }
    }
  }

  lemma CloseLeaveOrderly(st: Locks, t: TaskId, pick: Option<ChannelId>)
    requires Orderly(st) && t in st.tasks && st.tasks[t].CloseLeave?
    requires Stops(st.voice, st.tasks[t].account, Some(st.tasks[t].handle), pick)
    ensures Orderly(Advanced(st, t, pick, Ok(true)))
  {
    var pc := st.tasks[t];
    var voice := Left(st.voice, pc.account, pick);
    LeftSeats(st.connections, st.voice, pc.account, Some(pc.handle), pick);
    hide Left, VoiceOk, HandlesOk, NoEmptyList, NoEmptyRoom, TasksOrderly, At, In;
    FewerSeatsKeep(st.connections, st.voice, voice);
    FewerSeatsOrderly(st.connections, st.voice, voice, st.tasks);
    var next := CloseDrop(pc.account, pc.handle);
    assert TaskOrderly(st.connections, voice, next);
    TaskMovesOrderly(st.connections, voice, st.tasks, t, next);
  }

  lemma {:induction false} CloseDropOrderly(st: Locks, t: TaskId)
    requires Orderly(st) && t in st.tasks && st.tasks[t].CloseDrop?
    ensures Orderly(Advanced(st, t, None, Ok(true)))
  {
    var pc := st.tasks[t];
    var connections := Removed(st.connections, pc.account, pc.handle);
    OrderlyTask(st.connections, st.voice, st.tasks, t);
    RemovedKeeps(st.connections, st.voice, st.issued, pc.account, pc.handle);
    RemovedSeats(st.connections, pc.account, pc.handle);
    hide Removed, VoiceOk, HandlesOk, NoEmptyList, Connected, At, In;
    forall u | u in st.tasks - {t}
      ensures TaskOrderly(connections, st.voice, st.tasks[u])
    {
      OrderlyTask(st.connections, st.voice, st.tasks, u);
      assert ClosesOn(pc, pc.handle);
      assert !JoinsOn(st.tasks[u], pc.handle);
    }
  }

  lemma StepOrderly(owners: Owners, st: Locks, step: Step)
    requires Orderly(st) && Enabled(owners, st, step) && TakesTurns(st, step)
    ensures Orderly(Next(st, step))
  {
    hide Orderly;
    match step
    case Register(a) => RegisterOrderly(st, a);
    case Spawn(pc) => SpawnOrderly(st, pc);
    case Advance(t, pick, reply) =>
      match st.tasks[t] {
        case JoinLeave(_, _, _) => JoinLeaveOrderly(st, t, pick);
        case JoinInsert(_, _, _) => JoinInsertOrderly(st, t);
        case Leave(_, _) => LeaveOrderly(st, t, pick);
        case EvictRead(_, _) => EvictOrderly(st, t, pick, reply);
        case EvictLookup(_, _, _) => EvictOrderly(st, t, pick, reply);
        case EvictRemove(_, _, _) => EvictOrderly(st, t, pick, reply);
        case CloseLeave(_, _) => CloseLeaveOrderly(st, t, pick);
        case CloseDrop(_, _) => CloseDropOrderly(st, t);
      }
  }

  /**
   When the joins of one account take turns, every interleaving of everything else
   keeps each account in at most one call, every call non-empty, and every stored
   handle a registered connection of its account.
   */
  lemma {:induction false} TurnsKeepOneRoom(owners: Owners, steps: seq<Step>, i: nat)
    requires i <= |steps| && Run(owners, IDLE, steps)
    requires forall n :: 0 <= n < |steps| ==> TakesTurns(States(IDLE, steps)[n], steps[n])
    ensures Orderly(States(IDLE, steps)[i])
    ensures VoiceOk(States(IDLE, steps)[i].connections, States(IDLE, steps)[i].voice)
    decreases i
  {
    hide Enabled, TakesTurns, VoiceOk, Next;
    if i == 0 {
      IdleOrderly();
    } else {
      TurnsKeepOneRoom(owners, steps, i - 1);
      StatesStep(IDLE, steps, i - 1);
      StepOrderly(owners, States(IDLE, steps)[i - 1], steps[i - 1]);
    }
  }

  lemma IdleOrderly()
    ensures Orderly(IDLE)
  {
  }

  // ---- without turns ----

  /** The insert region leaves `a` in one room exactly when no other room holds it at that moment. */
  lemma InsertKeepsOneRoom(voice: Rooms, c: ChannelId, a: AccountId, h: Handle)
    requires OneRoom(voice, a) && NoEmptyRoom(voice)
    ensures OneRoom(Seated(voice, c, a, h), a) <==> forall d :: In(voice, d, a) ==> d == c
  {
    var next := Seated(voice, c, a, h);
    assert In(next, c, a);
    assert forall d :: In(next, d, a) <==> d == c || In(voice, d, a);
  }

  /** Step `i` inserts `a` into a call while another call holds it. */
  ghost predicate InsertsIntoSecond(st: Locks, steps: seq<Step>, i: nat, a: AccountId)
    requires i < |steps|
  {
    var now := States(st, steps)[i];
    && steps[i].Advance? && steps[i].task in now.tasks
    && var pc := now.tasks[steps[i].task];
       pc.JoinInsert? && pc.account == a && exists d :: In(now.voice, d, a) && d != pc.channel
  }

  /** No region but the insert of a join of `a` adds a seat for `a`. */
  lemma OnlyInsertsSeat(st: Locks, step: Step, a: AccountId)
    requires NoEmptyRoom(st.voice)
    ensures NoEmptyRoom(Next(st, step).voice)
    ensures !(step.Advance? && step.task in st.tasks && st.tasks[step.task].JoinInsert? &&
              st.tasks[step.task].account == a) ==>
              forall c :: In(Next(st, step).voice, c, a) ==> In(st.voice, c, a)
  {
    if step.Advance? && step.task in st.tasks {
      var pc := st.tasks[step.task];
      if pc.JoinInsert? {
        SeatedSeats(st.voice, pc.channel, pc.account, pc.handle);
      } else {
        SweptSeats(st.voice);
        if step.pick.Some? {
          WithoutSeats(st.voice, step.pick.value, pc.account);
        }
        if pc.EvictRemove? {
          WithoutSeats(st.voice, pc.channel, pc.account);
        }
      }
      SeatOf(st.voice, a);
      SeatOf(Next(st, step).voice, a);
      hide Seated, Without, Swept, At, In, NoEmptyRoom;
    }
  }

  ghost predicate OneRoomThroughout(steps: seq<Step>, a: AccountId) {
    forall i: nat :: i <= |steps| ==> OneRoom(States(IDLE, steps)[i].voice, a)
  }

  ghost predicate NoSecondInsert(steps: seq<Step>, a: AccountId) {
    forall i: nat :: i < |steps| ==> !InsertsIntoSecond(IDLE, steps, i, a)
  }

  /** The step-level condition, over whole runs: one room throughout exactly when no such insert ever runs. */
  lemma {:induction false} OneRoomExactlyWithoutSecondInserts(steps: seq<Step>, a: AccountId)
    ensures OneRoomThroughout(steps, a) <==> NoSecondInsert(steps, a)
  {
    hide OneRoom, InsertsIntoSecond;
    if OneRoomThroughout(steps, a) {
      forall i: nat | i < |steps|
        ensures !InsertsIntoSecond(IDLE, steps, i, a)
      {
        assert OneRoom(States(IDLE, steps)[i].voice, a) && OneRoom(States(IDLE, steps)[i + 1].voice, a);
        OneRoomStep(steps, a, i);
      }
    } else if NoSecondInsert(steps, a) {
      forall i: nat | i <= |steps|
        ensures OneRoom(States(IDLE, steps)[i].voice, a)
      {
        OneRoomUntil(steps, a, i);
      }
    }
  }

  lemma {:induction false} RoomsNeverEmpty(steps: seq<Step>, i: nat)
    requires i <= |steps|
    ensures NoEmptyRoom(States(IDLE, steps)[i].voice)
    decreases i
  {
    if i > 0 {
      RoomsNeverEmpty(steps, i - 1);
      StatesStep(IDLE, steps, i - 1);
      OnlyInsertsSeat(States(IDLE, steps)[i - 1], steps[i - 1], AccountId(0));
    }
  }

  lemma {:induction false} OneRoomStep(steps: seq<Step>, a: AccountId, i: nat)
    requires i < |steps| && OneRoom(States(IDLE, steps)[i].voice, a)
    ensures OneRoom(States(IDLE, steps)[i + 1].voice, a) <==> !InsertsIntoSecond(IDLE, steps, i, a)
  {
    var now, step := States(IDLE, steps)[i], steps[i];
    StatesStep(IDLE, steps, i);
    RoomsNeverEmpty(steps, i);
    OnlyInsertsSeat(now, step, a);
    if step.Advance? && step.task in now.tasks && now.tasks[step.task].JoinInsert? &&
        now.tasks[step.task].account == a {
      var pc := now.tasks[step.task];
      InsertKeepsOneRoom(now.voice, pc.channel, a, pc.handle);
      hide Seated, In, OneRoom;
    } else {
      hide Next, In;
    }
  }

  lemma {:induction false} OneRoomUntil(steps: seq<Step>, a: AccountId, i: nat)
    requires i <= |steps| && forall n :: 0 <= n < |steps| ==> !InsertsIntoSecond(IDLE, steps, n, a)
    ensures OneRoom(States(IDLE, steps)[i].voice, a)
    decreases i
  {
    hide InsertsIntoSecond;
    if i > 0 {
      OneRoomUntil(steps, a, i - 1);
      OneRoomStep(steps, a, i - 1);
    }
  }

  // ---- seats that outlive their socket ----

  /** A socket is dropped from the registry while a call still seats it, or seated after it was dropped. */
  ghost predicate StrandsSeat(st: Locks, step: Step) {
    step.Advance? && step.task in st.tasks &&
    var pc := st.tasks[step.task];
    || (pc.CloseDrop? && exists c :: At(st.voice, c, pc.account, pc.handle))
    || (pc.JoinInsert? && !Connected(st.connections, pc.account, pc.handle))
  }

  lemma DropHeld(connections: Registry, voice: Rooms, a: AccountId, h: Handle)
    requires NoEmptyList(connections) && HeldByConnection(connections, voice)
    ensures HeldByConnection(Removed(connections, a, h), voice) <==> forall c :: !At(voice, c, a, h)
  {
    var next := Removed(connections, a, h);
    RemovedSeats(connections, a, h);
    hide Removed, Connected;
    if HeldByConnection(next, voice) {
      forall c
        ensures !At(voice, c, a, h)
      {
        assert At(voice, c, a, h) ==> In(voice, c, a);
      }
    } else {
      var c, b :| In(voice, c, b) && !Connected(next, b, voice[c][b]);
      assert Connected(connections, b, voice[c][b]);
      assert At(voice, c, a, h);
    }
  }

  lemma InsertHeld(connections: Registry, voice: Rooms, c: ChannelId, a: AccountId, h: Handle)
    requires NoEmptyRoom(voice) && HeldByConnection(connections, voice)
    ensures HeldByConnection(connections, Seated(voice, c, a, h)) <==> Connected(connections, a, h)
  {
    var next := Seated(voice, c, a, h);
    SeatedSeats(voice, c, a, h);
    assert In(next, c, a) && next[c][a] == h;
    hide Seated, Connected;
    forall d, b | In(next, d, b)
      ensures (d == c && b == a) || (In(voice, d, b) && next[d][b] == voice[d][b])
    {
      assert At(next, d, b, next[d][b]);
    }
  }

  lemma FewerSeatsHeld(connections: Registry, voice: Rooms, next: Rooms)
    requires HeldByConnection(connections, voice)
    requires forall c, a, h :: At(next, c, a, h) ==> At(voice, c, a, h)
    ensures HeldByConnection(connections, next)
  {
    hide Connected;
    forall c, a | In(next, c, a)
      ensures In(voice, c, a) && voice[c][a] == next[c][a]
    {
      assert At(next, c, a, next[c][a]);
    }
  }

  lemma RegisterHeld(connections: Registry, voice: Rooms, a: AccountId, h: Handle)
    requires HeldByConnection(connections, voice)
    ensures HeldByConnection(Pushed(connections, a, h), voice)
  {
    PushedSeats(connections, a, h);
    hide Pushed, Connected;
  }

  /** No task but a join adds a seat, and none but a close drops a connection. */
  lemma OtherTasksHeld(st: Locks, t: TaskId, pick: Option<ChannelId>, reply: Result<bool>)
    requires t in st.tasks && !st.tasks[t].JoinInsert? && !st.tasks[t].CloseDrop?
    requires HeldByConnection(st.connections, st.voice)
    ensures HeldByConnection(Advanced(st, t, pick, reply).connections, Advanced(st, t, pick, reply).voice)
  {
    var pc := st.tasks[t];
    SweptSeats(st.voice);
    if pick.Some? {
      WithoutSeats(st.voice, pick.value, pc.account);
    }
    if pc.EvictRemove? {
      WithoutSeats(st.voice, pc.channel, pc.account);
    }
    hide HeldByConnection, Without, Swept, At, In;
    FewerSeatsHeld(st.connections, st.voice, Advanced(st, t, pick, reply).voice);
  }

  /** A step leaves a seat without its connection exactly when it strands one. */
  lemma SeatsStayHeldExactlyWhen(st: Locks, step: Step)
    requires NoEmptyList(st.connections) && NoEmptyRoom(st.voice) && HeldByConnection(st.connections, st.voice)
    ensures HeldByConnection(Next(st, step).connections, Next(st, step).voice) <==> !StrandsSeat(st, step)
  {
    hide HeldByConnection, NoEmptyList, NoEmptyRoom, Pushed, Removed, Seated, At, Connected;
    match step {
      case Register(a) => RegisterHeld(st.connections, st.voice, a, Handle(st.issued));
      case Spawn(_) =>
      case Advance(t, pick, reply) =>
        if t in st.tasks {
          var pc := st.tasks[t];
          if pc.JoinInsert? {
            InsertHeld(st.connections, st.voice, pc.channel, pc.account, pc.handle);
          } else if pc.CloseDrop? {
            DropHeld(st.connections, st.voice, pc.account, pc.handle);
          } else {
            OtherTasksHeld(st, t, pick, reply);
          }
        }
    }
  }

  ghost predicate HeldThroughout(steps: seq<Step>) {
    forall i: nat :: i <= |steps| ==> HeldByConnection(States(IDLE, steps)[i].connections, States(IDLE, steps)[i].voice)
  }

  ghost predicate NeverStrands(steps: seq<Step>) {
    forall i: nat :: i < |steps| ==> !StrandsSeat(States(IDLE, steps)[i], steps[i])
  }

  lemma {:induction false} HeldStep(steps: seq<Step>, i: nat)
    requires i < |steps| && HeldByConnection(States(IDLE, steps)[i].connections, States(IDLE, steps)[i].voice)
    ensures HeldByConnection(States(IDLE, steps)[i + 1].connections, States(IDLE, steps)[i + 1].voice) <==>
              !StrandsSeat(States(IDLE, steps)[i], steps[i])
  {
    hide HeldByConnection, StrandsSeat, NoEmptyList, NoEmptyRoom, Next;
    StatesStep(IDLE, steps, i);
    RoomsNeverEmpty(steps, i);
    PresenceAlternates(steps, AccountId(0), i);
    SeatsStayHeldExactlyWhen(States(IDLE, steps)[i], steps[i]);
  }

  lemma {:induction false} HeldUntil(steps: seq<Step>, i: nat)
    requires i <= |steps| && NeverStrands(steps)
    ensures HeldByConnection(States(IDLE, steps)[i].connections, States(IDLE, steps)[i].voice)
    decreases i
  {
    hide StrandsSeat;
    if i > 0 {
      HeldUntil(steps, i - 1);
      HeldStep(steps, i - 1);
      hide HeldByConnection;
    }
  }

  /**
   Over whole runs: every seat of every call is a registered connection of its account
   throughout, exactly when no close drops a connection that a call still seats and no
   join seats one that is already gone.
   */
  lemma {:induction false} SeatsHeldExactlyWithoutStranding(steps: seq<Step>)
    ensures HeldThroughout(steps) <==> NeverStrands(steps)
  {
    hide HeldByConnection, StrandsSeat;
    if HeldThroughout(steps) {
      forall i: nat | i < |steps|
        ensures !StrandsSeat(States(IDLE, steps)[i], steps[i])
      {
        assert HeldByConnection(States(IDLE, steps)[i].connections, States(IDLE, steps)[i].voice);
        assert HeldByConnection(States(IDLE, steps)[i + 1].connections, States(IDLE, steps)[i + 1].voice);
        HeldStep(steps, i);
      }
    } else if NeverStrands(steps) {
      forall i: nat | i <= |steps|
        ensures HeldByConnection(States(IDLE, steps)[i].connections, States(IDLE, steps)[i].voice)
      {
        HeldUntil(steps, i);
      }
    }
  }

  /** A listed history is the run. */
  lemma {:induction false} RunOf(owners: Owners, steps: seq<Step>, states: seq<Locks>)
    requires |states| == |steps| + 1
    requires forall i :: 0 <= i < |steps| ==> Moves(owners, states[i], steps[i], states[i + 1])
    ensures States(states[0], steps) == states
    ensures Run(owners, states[0], steps)
    decreases steps
  {
    hide Enabled, Next;
    if steps == [] {
    } else {
      assert Moves(owners, states[0], steps[0], states[1]);
      forall i | 0 <= i < |steps[1..]|
        ensures Moves(owners, states[1..][i], steps[1..][i], states[1..][i + 1])
      {
        assert Moves(owners, states[i + 1], steps[i + 1], states[i + 2]);
      }
      RunOf(owners, steps[1..], states[1..]);
      forall i | 0 <= i < |steps|
        ensures Enabled(owners, states[i], steps[i])
      {
        assert Moves(owners, states[i], steps[i], states[i + 1]);
      }
    }
  }

  ghost predicate Moves(owners: Owners, st: Locks, step: Step, next: Locks) {
    Enabled(owners, st, step) && Next(st, step) == next
  }

  const ALICE := AccountId(1)
  const TEXT_CALL := ChannelId(1)
  const MUSIC_CALL := ChannelId(2)
  const LATE_CALL := ChannelId(3)
  const FIRST_TAB := Handle(0)
  const SECOND_TAB := Handle(1)

  const BOTH_TABS: Registry := map[ALICE := [FIRST_TAB, SECOND_TAB]]
  const ONE_TAB: Registry := map[ALICE := [SECOND_TAB]]

  const TEXT_LEAVES := JoinLeave(ALICE, TEXT_CALL, FIRST_TAB)
  const TEXT_INSERTS := JoinInsert(ALICE, TEXT_CALL, FIRST_TAB)
  const MUSIC_LEAVES := JoinLeave(ALICE, MUSIC_CALL, SECOND_TAB)
  const MUSIC_INSERTS := JoinInsert(ALICE, MUSIC_CALL, SECOND_TAB)
  const LATE_LEAVES := JoinLeave(ALICE, LATE_CALL, FIRST_TAB)
  const LATE_INSERTS := JoinInsert(ALICE, LATE_CALL, FIRST_TAB)

  const IN_TEXT: Rooms := map[TEXT_CALL := map[ALICE := FIRST_TAB]]
  const IN_TEXT_AND_MUSIC: Rooms := IN_TEXT[MUSIC_CALL := map[ALICE := SECOND_TAB]]
  const IN_TEXT_AND_LATE: Rooms := IN_TEXT[LATE_CALL := map[ALICE := FIRST_TAB]]

  /**
   Two tabs of one account join two calls at once; the first moves on to a third
   call; then both close. Each tab makes its own calls one after the other.
   */
  const RACE: seq<Step> := [
    Register(ALICE), Register(ALICE),
    Spawn(TEXT_LEAVES), Spawn(MUSIC_LEAVES),
    Advance(TaskId(0), None, Ok(true)), Advance(TaskId(1), None, Ok(true)),
    Advance(TaskId(0), None, Ok(true)), Advance(TaskId(1), None, Ok(true)),
    Spawn(LATE_LEAVES),
    Advance(TaskId(2), Some(MUSIC_CALL), Ok(true)), Advance(TaskId(2), None, Ok(true)),
    Spawn(CloseLeave(ALICE, FIRST_TAB)),
    Advance(TaskId(3), Some(LATE_CALL), Ok(true)), Advance(TaskId(3), None, Ok(true)),
    Spawn(CloseLeave(ALICE, SECOND_TAB)),
    Advance(TaskId(4), None, Ok(true)), Advance(TaskId(4), None, Ok(true))]

  const RACE_STATES: seq<Locks> := [
    IDLE,
    Locks(map[ALICE := [FIRST_TAB]], map[], 1, 0, map[]),
    Locks(BOTH_TABS, map[], 2, 0, map[]),
    Locks(BOTH_TABS, map[], 2, 1, map[TaskId(0) := TEXT_LEAVES]),
    Locks(BOTH_TABS, map[], 2, 2, map[TaskId(0) := TEXT_LEAVES, TaskId(1) := MUSIC_LEAVES]),
    Locks(BOTH_TABS, map[], 2, 2, map[TaskId(0) := TEXT_INSERTS, TaskId(1) := MUSIC_LEAVES]),
    Locks(BOTH_TABS, map[], 2, 2, map[TaskId(0) := TEXT_INSERTS, TaskId(1) := MUSIC_INSERTS]),
    Locks(BOTH_TABS, IN_TEXT, 2, 2, map[TaskId(1) := MUSIC_INSERTS]),
    Locks(BOTH_TABS, IN_TEXT_AND_MUSIC, 2, 2, map[]),
    Locks(BOTH_TABS, IN_TEXT_AND_MUSIC, 2, 3, map[TaskId(2) := LATE_LEAVES]),
    Locks(BOTH_TABS, IN_TEXT, 2, 3, map[TaskId(2) := LATE_INSERTS]),
    Locks(BOTH_TABS, IN_TEXT_AND_LATE, 2, 3, map[]),
    Locks(BOTH_TABS, IN_TEXT_AND_LATE, 2, 4, map[TaskId(3) := CloseLeave(ALICE, FIRST_TAB)]),
    Locks(BOTH_TABS, IN_TEXT, 2, 4, map[TaskId(3) := CloseDrop(ALICE, FIRST_TAB)]),
    Locks(ONE_TAB, IN_TEXT, 2, 4, map[]),
    Locks(ONE_TAB, IN_TEXT, 2, 5, map[TaskId(4) := CloseLeave(ALICE, SECOND_TAB)]),
    Locks(ONE_TAB, IN_TEXT, 2, 5, map[TaskId(4) := CloseDrop(ALICE, SECOND_TAB)]),
    Locks(map[], IN_TEXT, 2, 5, map[])]

  /** What leaving does to the rooms of the race. */
  lemma RaceRooms()
    ensures Swept(map[]) == map[] && Swept(IN_TEXT) == IN_TEXT
    ensures Without(IN_TEXT_AND_MUSIC, MUSIC_CALL, ALICE) == IN_TEXT
    ensures Without(IN_TEXT_AND_LATE, LATE_CALL, ALICE) == IN_TEXT
  {
    assert ALICE in IN_TEXT[TEXT_CALL];
    assert IN_TEXT_AND_MUSIC[MUSIC_CALL] - {ALICE} == map[];
    assert IN_TEXT_AND_LATE[LATE_CALL] - {ALICE} == map[];
  }

  lemma FirstTabConnects(owners: Owners)
    ensures Moves(owners, RACE_STATES[0], RACE[0], RACE_STATES[1])
  {
    assert [] + [Handle(0)] == [FIRST_TAB];
  }

  lemma SecondTabConnects(owners: Owners)
    ensures Moves(owners, RACE_STATES[1], RACE[1], RACE_STATES[2])
  {
    assert [FIRST_TAB] + [Handle(1)] == [FIRST_TAB, SECOND_TAB];
  }

  lemma TextTabAsks(owners: Owners)
    ensures Moves(owners, RACE_STATES[2], RACE[2], RACE_STATES[3])
  {
  }

  lemma MusicTabAsks(owners: Owners)
    ensures Moves(owners, RACE_STATES[3], RACE[3], RACE_STATES[4])
  {
  }

  lemma TextJoinLeaves(owners: Owners)
    ensures Moves(owners, RACE_STATES[4], RACE[4], RACE_STATES[5])
  {
    RaceRooms();
    hide Without, Swept;
  }

  lemma MusicJoinLeaves(owners: Owners)
    ensures Moves(owners, RACE_STATES[5], RACE[5], RACE_STATES[6])
  {
    RaceRooms();
    hide Without, Swept;
  }

  lemma TextJoinInserts(owners: Owners)
    ensures Moves(owners, RACE_STATES[6], RACE[6], RACE_STATES[7])
  {
  }

  lemma MusicJoinInserts(owners: Owners)
    ensures Moves(owners, RACE_STATES[7], RACE[7], RACE_STATES[8])
  {
  }

  lemma TabMovesOn(owners: Owners)
    ensures Moves(owners, RACE_STATES[8], RACE[8], RACE_STATES[9])
  {
  }

  lemma LateJoinLeaves(owners: Owners)
    ensures Moves(owners, RACE_STATES[9], RACE[9], RACE_STATES[10])
  {
    RaceRooms();
    hide Without, Swept;
  }

  lemma LateJoinInserts(owners: Owners)
    ensures Moves(owners, RACE_STATES[10], RACE[10], RACE_STATES[11])
  {
  }

  lemma FirstTabAsksToClose(owners: Owners)
    ensures Moves(owners, RACE_STATES[11], RACE[11], RACE_STATES[12])
  {
  }

  lemma FirstTabLeaves(owners: Owners)
    ensures Moves(owners, RACE_STATES[12], RACE[12], RACE_STATES[13])
  {
    RaceRooms();
    hide Without, Swept;
  }

  lemma FirstTabCloses(owners: Owners)
    ensures Moves(owners, RACE_STATES[13], RACE[13], RACE_STATES[14])
  {
    assert [FIRST_TAB, SECOND_TAB][1..] == [SECOND_TAB] && [SECOND_TAB][1..] == [];
    assert Dropped([SECOND_TAB], FIRST_TAB) == [SECOND_TAB];
    assert Dropped([FIRST_TAB, SECOND_TAB], FIRST_TAB) == [SECOND_TAB];
  }

  lemma SecondTabAsksToClose(owners: Owners)
    ensures Moves(owners, RACE_STATES[14], RACE[14], RACE_STATES[15])
  {
  }

  lemma SecondTabLeaves(owners: Owners)
    ensures Moves(owners, RACE_STATES[15], RACE[15], RACE_STATES[16])
  {
    RaceRooms();
    hide Without, Swept;
  }

  lemma SecondTabCloses(owners: Owners)
    ensures Moves(owners, RACE_STATES[16], RACE[16], RACE_STATES[17])
  {
    assert Dropped([SECOND_TAB], SECOND_TAB) == [];
  }

  lemma RaceBegins(owners: Owners, i: nat)
    requires i < 9
    ensures Moves(owners, RACE_STATES[i], RACE[i], RACE_STATES[i + 1])
  {
    hide Moves;
    match i
    case 0 => FirstTabConnects(owners);
    case 1 => SecondTabConnects(owners);
    case 2 => TextTabAsks(owners);
    case 3 => MusicTabAsks(owners);
    case 4 => TextJoinLeaves(owners);
    case 5 => MusicJoinLeaves(owners);
    case 6 => TextJoinInserts(owners);
    case 7 => MusicJoinInserts(owners);
    case _ => TabMovesOn(owners);
  }

  lemma RaceEnds(owners: Owners, i: nat)
    requires 9 <= i < |RACE|
    ensures Moves(owners, RACE_STATES[i], RACE[i], RACE_STATES[i + 1])
  {
    hide Moves;
    match i
    case 9 => LateJoinLeaves(owners);
    case 10 => LateJoinInserts(owners);
    case 11 => FirstTabAsksToClose(owners);
    case 12 => FirstTabLeaves(owners);
    case 13 => FirstTabCloses(owners);
    case 14 => SecondTabAsksToClose(owners);
    case 15 => SecondTabLeaves(owners);
    case _ => SecondTabCloses(owners);
  }

  /**
   Joins that do not take turns break the promise. The race is a run; half way
   through it the account is in two calls; at its end nobody is connected and nothing
   is in flight, and the account is still in a call, on a connection that is gone.
   */
  lemma {:induction false} RacingJoinsLeaveAGhost(owners: Owners)
    ensures Run(owners, IDLE, RACE)
    ensures !OneRoom(States(IDLE, RACE)[8].voice, ALICE)
    ensures States(IDLE, RACE)[17].connections == map[] && States(IDLE, RACE)[17].tasks == map[]
    ensures At(States(IDLE, RACE)[17].voice, TEXT_CALL, ALICE, FIRST_TAB)
  {
    hide Moves;
    forall i | 0 <= i < |RACE|
      ensures Moves(owners, RACE_STATES[i], RACE[i], RACE_STATES[i + 1])
    {
      if i < 9 {
        RaceBegins(owners, i);
      } else {
        RaceEnds(owners, i);
      }
    }
    RunOf(owners, RACE, RACE_STATES);
    assert In(IN_TEXT_AND_MUSIC, TEXT_CALL, ALICE) && In(IN_TEXT_AND_MUSIC, MUSIC_CALL, ALICE);
  }
}
