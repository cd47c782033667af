/**
 Direct messages and friend requests between two accounts. Each call checks for
 blocks, takes the advisory lock of the unordered pair, looks, and writes; a step
 here is one of those, and the steps of any number of calls interleave. Removing a
 friendship and blocking take no lock.
 */
module Pairs {
  import opened Common

  datatype FriendshipId = FriendshipId(number: int)
  datatype TaskId = TaskId(number: int)

  datatype Pair = Pair(low: AccountId, high: AccountId)

  function PairOf(a: AccountId, b: AccountId): Pair {
    if a.uuid < b.uuid then Pair(a, b) else Pair(b, a)
  }

  datatype Friendship = Friendship(pair: Pair, accepted: bool, requestedBy: AccountId)

  datatype Lock = DmLock(pair: Pair) | FriendLock(pair: Pair)

  /** What a call does next; `a` is the caller, `b` the other account. */
  datatype Pc =
    | DmWaits(a: AccountId, b: AccountId)
    | DmLooks(a: AccountId, b: AccountId)
    | DmInserts(a: AccountId, b: AccountId)
    | DmCommits(a: AccountId, b: AccountId)
    | AskWaits(a: AccountId, b: AccountId)
    | AskLooks(a: AccountId, b: AccountId)
    | AskInserts(a: AccountId, b: AccountId)
    | AskAccepts(a: AccountId, b: AccountId, row: FriendshipId)
    | AskCommits(a: AccountId, b: AccountId)
  {
    function Key(): Lock {
      if DmWaits? || DmLooks? || DmInserts? || DmCommits? then DmLock(PairOf(a, b)) else FriendLock(PairOf(a, b))
    }

    predicate Holds() {
      !DmWaits? && !AskWaits?
    }
  }

  datatype State = State(
    dms: map<ChannelId, set<AccountId>>,
    friendships: map<FriendshipId, Friendship>,
    blocks: set<(AccountId, AccountId)>,
    locks: map<Lock, TaskId>,
    tasks: map<TaskId, Pc>,
    issued: int,
    // who of a pair asked since its row was last removed; only the statements below read it
    asked: set<(Pair, AccountId)>)

  const START := State(map[], map[], {}, map[], map[], 0, {})

  // `Block` and `Remove` stand for their delete: a call that checks for blocks between that
  // and the commit does not see the block yet, and counts as having checked before the step
  datatype Step =
    | StartDm(task: TaskId, a: AccountId, b: AccountId)
    | StartAsk(task: TaskId, a: AccountId, b: AccountId)
    | Advance(task: TaskId)
    | Remove(a: AccountId, b: AccountId)
    | Block(a: AccountId, b: AccountId)
    | Unblock(a: AccountId, b: AccountId)

  predicate Blocked(st: State, a: AccountId, b: AccountId) {
    (a, b) in st.blocks || (b, a) in st.blocks
  }

  predicate Enabled(st: State, step: Step) {
    match step
    case StartDm(t, a, b) => t !in st.tasks && a != b && !Blocked(st, a, b)
    case StartAsk(t, a, b) => t !in st.tasks && a != b && !Blocked(st, a, b)
    case Advance(t) => t in st.tasks && (!st.tasks[t].Holds() ==> st.tasks[t].Key() !in st.locks)
    case Remove(_, _) => true
    case Block(a, b) => a != b
    case Unblock(_, _) => true
  }

  predicate HasDm(st: State, a: AccountId, b: AccountId) {
    exists c :: c in st.dms && st.dms[c] == {a, b}
  }

  /** `find_by_pair`. */
  ghost function RowOf(st: State, p: Pair): Option<FriendshipId> {
    if exists f :: f in st.friendships && st.friendships[f].pair == p then
      var f :| f in st.friendships && st.friendships[f].pair == p;
      Some(f)
    else None
  }

  function Moved(st: State, t: TaskId, pc: Pc): State {
    st.(tasks := st.tasks[t := pc])
  }

  /** Commit or rollback: the call ends and its lock goes. */
  function Ended(st: State, t: TaskId): State
    requires t in st.tasks
  {
    st.(tasks := st.tasks - {t}, locks := st.locks - {st.tasks[t].Key()})
  }

  ghost function AfterLook(st: State, t: TaskId, a: AccountId, b: AccountId): State {
    var found := RowOf(st, PairOf(a, b));
    if found.None? then Moved(st, t, AskInserts(a, b))
    else
      var row := st.friendships[found.value];
      if !row.accepted && row.requestedBy != a then Moved(st, t, AskAccepts(a, b, found.value))
      else Moved(st.(asked := st.asked + {(PairOf(a, b), a)}), t, AskCommits(a, b))
  }

  function AfterAccept(st: State, t: TaskId, a: AccountId, b: AccountId, f: FriendshipId): State
    requires t in st.tasks
  {
    if f in st.friendships then
      Ended(st, t).(friendships := st.friendships[f := st.friendships[f].(accepted := true)],
                    asked := st.asked + {(PairOf(a, b), a)})
    else Ended(st, t) // the row went away meanwhile: the update finds nothing and the call fails
  }

  function WithoutPair(st: State, p: Pair): State {
    st.(friendships := map f | f in st.friendships && st.friendships[f].pair != p :: st.friendships[f],
        asked := set k | k in st.asked && k.0 != p)
  }

  ghost function Advanced(st: State, t: TaskId): State
    requires t in st.tasks
  {
    var pc := st.tasks[t];
    match pc
    case DmWaits(a, b) => Moved(st, t, DmLooks(a, b)).(locks := st.locks[pc.Key() := t])
    case DmLooks(a, b) => Moved(st, t, if HasDm(st, a, b) then DmCommits(a, b) else DmInserts(a, b))
    case DmInserts(a, b) =>
      Ended(st, t).(dms := st.dms[ChannelId(st.issued) := {a, b}], issued := st.issued + 1)
    case DmCommits(_, _) => Ended(st, t)
    case AskWaits(a, b) => Moved(st, t, AskLooks(a, b)).(locks := st.locks[pc.Key() := t])
    case AskLooks(a, b) => AfterLook(st, t, a, b)
    case AskInserts(a, b) =>
      Ended(st, t).(friendships := st.friendships[FriendshipId(st.issued) := Friendship(PairOf(a, b), false, a)],
                    asked := st.asked + {(PairOf(a, b), a)}, issued := st.issued + 1)
    case AskAccepts(a, b, f) => AfterAccept(st, t, a, b, f)
    case AskCommits(_, _) => Ended(st, t)
  }

  ghost function Next(st: State, step: Step): State {
    match step
    case StartDm(t, a, b) => Moved(st, t, DmWaits(a, b))
    case StartAsk(t, a, b) => Moved(st, t, AskWaits(a, b))
    case Advance(t) => if t in st.tasks then Advanced(st, t) else st
    case Remove(a, b) => WithoutPair(st, PairOf(a, b))
    case Block(a, b) => WithoutPair(st, PairOf(a, b)).(blocks := st.blocks + {(a, b)})
    case Unblock(a, b) => st.(blocks := st.blocks - {(a, b)})
  }

  // ---- what every interleaving keeps ----

  /** At most one dm per pair of accounts. */
  ghost predicate DmsUnique(st: State) {
    && (forall c, d :: c in st.dms && d in st.dms && st.dms[c] == st.dms[d] ==> c == d)
    && (forall c :: c in st.dms ==> c.uuid < st.issued)
  }

  type Rows = map<FriendshipId, Friendship>

  /** At most one friendship row per pair, the smaller account first. */
  ghost predicate RowsUnique(rows: Rows, issued: int) {
    && (forall f, g :: f in rows && g in rows && rows[f].pair == rows[g].pair ==> f == g)
    && (forall f :: f in rows ==> f.number < issued && RowOk(rows[f]))
  }

  predicate RowOk(row: Friendship) {
    row.pair.low.uuid < row.pair.high.uuid && (row.requestedBy == row.pair.low || row.requestedBy == row.pair.high)
  }

  /** A call past its wait holds the pair's lock, and what it found still stands. */
  ghost predicate TaskOk(st: State, t: TaskId)
    requires t in st.tasks
  {
    var pc := st.tasks[t];
    && pc.a != pc.b
    && (pc.Holds() ==> pc.Key() in st.locks && st.locks[pc.Key()] == t)
    && (pc.DmInserts? ==> !HasDm(st, pc.a, pc.b))
    && (pc.AskInserts? ==> forall f :: f in st.friendships ==> st.friendships[f].pair != PairOf(pc.a, pc.b))
    && (pc.AskAccepts? ==>
          pc.row.number < st.issued &&
          (pc.row in st.friendships ==>
             st.friendships[pc.row].pair == PairOf(pc.a, pc.b) &&
             !st.friendships[pc.row].accepted && st.friendships[pc.row].requestedBy == pc.b))
  }

  ghost predicate HasRow(rows: Rows, p: Pair) {
    exists f :: f in rows && rows[f].pair == p
  }

  /** There is a row exactly when someone asked, and it is accepted exactly when both did. */
  ghost predicate AskedOk(rows: Rows, asked: set<(Pair, AccountId)>) {
    && (forall p, x :: (p, x) in asked ==> HasRow(rows, p) && (x == p.low || x == p.high))
    && (forall f :: f in rows ==> RowAsked(rows[f], asked))
  }

  predicate RowAsked(row: Friendship, asked: set<(Pair, AccountId)>) {
    && (row.pair, row.requestedBy) in asked
    && (row.accepted <==> (row.pair, row.pair.low) in asked && (row.pair, row.pair.high) in asked)
  }

  ghost predicate PairsOk(st: State) {
    && DmsUnique(st) && RowsUnique(st.friendships, st.issued) && AskedOk(st.friendships, st.asked)
    && (forall a :: (a, a) !in st.blocks)
    && (forall t {:trigger TaskOk(st, t)} :: t in st.tasks ==> TaskOk(st, t))
  }

  /** A task is untouched by changes that keep its lock, its row and its findings. */
  lemma OtherTask(st: State, next: State, t: TaskId)
    requires t in st.tasks && TaskOk(st, t) && t in next.tasks && next.tasks[t] == st.tasks[t]
    requires next.issued >= st.issued
    requires st.tasks[t].Holds() ==>
               st.tasks[t].Key() in next.locks && next.locks[st.tasks[t].Key()] == st.locks[st.tasks[t].Key()]
    requires st.tasks[t].DmInserts? && HasDm(next, st.tasks[t].a, st.tasks[t].b) ==>
               HasDm(st, st.tasks[t].a, st.tasks[t].b)
    requires forall f ::
               (f in next.friendships && st.tasks[t].Holds() &&
                   st.tasks[t].Key() == FriendLock(next.friendships[f].pair)) ==>
                 f in st.friendships && next.friendships[f] == st.friendships[f]
    requires forall f :: f in next.friendships && f !in st.friendships ==> f.number >= st.issued
    requires forall f :: f in next.friendships && f in st.friendships ==>
        next.friendships[f].pair == st.friendships[f].pair
    ensures TaskOk(next, t)
  {
    var pc := st.tasks[t];
    if pc.AskAccepts? && pc.row in next.friendships {
      assert pc.row in st.friendships;
      assert next.friendships[pc.row].pair == PairOf(pc.a, pc.b);
    }
  }

  lemma StartKeeps(st: State, t: TaskId, pc: Pc)
    requires PairsOk(st) && t !in st.tasks && !pc.Holds() && pc.a != pc.b
    ensures PairsOk(Moved(st, t, pc))
  {
    var next := Moved(st, t, pc);
    hide AskedOk;
    forall u | u in next.tasks
      ensures TaskOk(next, u)
    {
      if u != t {
        OtherTask(st, next, u);
      }
    }
  }

  /** Taking the lock, or looking: only the task itself and its lock change. */
  lemma TaskAdvancesKeeps(st: State, t: TaskId, next: State)
    requires PairsOk(st) && t in st.tasks && t in next.tasks
    requires next.dms == st.dms && next.friendships == st.friendships && next.asked == st.asked
    requires next.issued == st.issued && next.blocks == st.blocks
    requires next.tasks == st.tasks[t := next.tasks[t]] && TaskOk(next, t)
    requires next.locks == st.locks ||
             (st.tasks[t].Key() !in st.locks && next.locks == st.locks[st.tasks[t].Key() := t])
    ensures PairsOk(next)
  {
    hide AskedOk;
    forall u | u in next.tasks
      ensures TaskOk(next, u)
    {
      if u != t {
        assert TaskOk(st, u);
        OtherTask(st, next, u);
      }
    }
  }

  /** The call ends: its lock goes, and no other task holds it. */
  lemma EndKeeps(st: State, t: TaskId)
    requires PairsOk(st) && t in st.tasks && st.tasks[t].Holds()
    ensures PairsOk(Ended(st, t))
  {
    var next := Ended(st, t);
    hide AskedOk;
    assert TaskOk(st, t);
    forall u | u in next.tasks
      ensures TaskOk(next, u)
    {
      assert TaskOk(st, u);
      OtherTask(st, next, u);
    }
  }

  lemma DmInsertKeeps(st: State, t: TaskId)
    requires PairsOk(st) && t in st.tasks && st.tasks[t].DmInserts?
    ensures PairsOk(Advanced(st, t))
  {
    var pc := st.tasks[t];
    var next := Advanced(st, t);
    assert TaskOk(st, t);
    hide AskedOk;
    forall u | u in next.tasks
      ensures TaskOk(next, u)
    {
      assert TaskOk(st, u);
      DmInsertApart(st, t, u);
      OtherTask(st, next, u);
    }
  }

  /** Two tasks about to insert a dm are about different pairs. */
  lemma DmInsertApart(st: State, t: TaskId, u: TaskId)
    requires t in st.tasks && u in st.tasks && t != u && TaskOk(st, t) && TaskOk(st, u)
    requires st.tasks[t].DmInserts?
    ensures st.tasks[u].DmInserts? && HasDm(Advanced(st, t), st.tasks[u].a, st.tasks[u].b) ==>
              HasDm(st, st.tasks[u].a, st.tasks[u].b)
  {
    var p, q := st.tasks[t], st.tasks[u];
    if q.DmInserts? {
      assert p.Key() != q.Key();
      assert {p.a, p.b} != {q.a, q.b} by {
        PairIsSet(p.a, p.b, q.a, q.b);
      }
    }
  }

  lemma PairIsSet(a: AccountId, b: AccountId, c: AccountId, d: AccountId)
    requires a != b && c != d
    ensures PairOf(a, b) == PairOf(c, d) <==> {a, b} == {c, d}
  {
    assert a in {a, b} && b in {a, b} && c in {c, d} && d in {c, d};
  }

  lemma LookFindsNothing(st: State, p: Pair)
    ensures RowOf(st, p).None? <==> !HasRow(st.friendships, p)
    ensures RowOf(st, p).Some? ==> RowOf(st, p).value in st.friendships && st.friendships[RowOf(st, p).value].pair == p
  {
  }

  /** Asking again changes nothing: the caller had asked, or both had. */
  lemma LookKeepsAsked(rows: Rows, asked: set<(Pair, AccountId)>, f: FriendshipId, a: AccountId, b: AccountId)
    requires AskedOk(rows, asked) && f in rows && rows[f].pair == PairOf(a, b)
    requires rows[f].accepted || rows[f].requestedBy == a
    ensures asked + {(PairOf(a, b), a)} == asked
  {
    assert RowAsked(rows[f], asked);
  }

  lemma AskLookKeeps(st: State, t: TaskId)
    requires PairsOk(st) && t in st.tasks && st.tasks[t].AskLooks?
    ensures PairsOk(Advanced(st, t))
  {
    var a, b := st.tasks[t].a, st.tasks[t].b;
    var found := RowOf(st, PairOf(a, b));
    LookFindsNothing(st, PairOf(a, b));
    assert TaskOk(st, t);
    LookOk(st, t);
    if found.Some? && (st.friendships[found.value].accepted || st.friendships[found.value].requestedBy == a) {
      LookKeepsAsked(st.friendships, st.asked, found.value, a, b);
    }
    hide PairsOk, TaskOk, RowOf;
    TaskAdvancesKeeps(st, t, AfterLook(st, t, a, b));
  }

  lemma LookOk(st: State, t: TaskId)
    requires t in st.tasks && st.tasks[t].AskLooks? && TaskOk(st, t) && RowsUnique(st.friendships, st.issued)
    ensures t in AfterLook(st, t, st.tasks[t].a, st.tasks[t].b).tasks
    ensures TaskOk(AfterLook(st, t, st.tasks[t].a, st.tasks[t].b), t)
  {
    LookFindsNothing(st, PairOf(st.tasks[t].a, st.tasks[t].b));
    hide RowOf;
  }

  lemma InsertKeepsAsked(rows: Rows, asked: set<(Pair, AccountId)>, f: FriendshipId, a: AccountId, b: AccountId)
    requires AskedOk(rows, asked) && f !in rows && a != b && !HasRow(rows, PairOf(a, b))
    ensures AskedOk(rows[f := Friendship(PairOf(a, b), false, a)], asked + {(PairOf(a, b), a)})
  {
    var p := PairOf(a, b);
    var next := rows[f := Friendship(p, false, a)];
    var log := asked + {(p, a)};
    assert forall x :: (p, x) !in asked;
    forall g | g in next
      ensures RowAsked(next[g], log)
    {
      if g != f {
        assert RowAsked(rows[g], asked) && rows[g].pair != p;
      }
    }
    RowsGrow(rows, next, f);
    assert next[f].pair == p;
  }

  lemma InsertKeepsRows(rows: Rows, issued: int, a: AccountId, b: AccountId)
    requires RowsUnique(rows, issued) && a != b && !HasRow(rows, PairOf(a, b))
    ensures FriendshipId(issued) !in rows
    ensures RowsUnique(rows[FriendshipId(issued) := Friendship(PairOf(a, b), false, a)], issued + 1)
  {
  }

  /** A pair that had a row still has one. */
  lemma RowsGrow(rows: Rows, next: Rows, f: FriendshipId)
    requires rows.Keys <= next.Keys && forall g :: g in rows ==> next[g].pair == rows[g].pair
    ensures forall p :: HasRow(rows, p) ==> HasRow(next, p)
  {
    forall p | HasRow(rows, p)
      ensures HasRow(next, p)
    {
      var g :| g in rows && rows[g].pair == p;
      assert next[g].pair == p;
    }
  }

  lemma AcceptKeepsAsked(rows: Rows, asked: set<(Pair, AccountId)>, f: FriendshipId, a: AccountId, b: AccountId)
    requires AskedOk(rows, asked) && f in rows && rows[f].pair == PairOf(a, b) && a != b && rows[f].requestedBy == b
    requires forall g :: g in rows && rows[g].pair == rows[f].pair ==> g == f
    ensures AskedOk(rows[f := rows[f].(accepted := true)], asked + {(PairOf(a, b), a)})
  {
    var next := rows[f := rows[f].(accepted := true)];
    var log := asked + {(PairOf(a, b), a)};
    forall g | g in next
      ensures RowAsked(next[g], log)
    {
      assert RowAsked(rows[g], asked);
    }
    RowsGrow(rows, next, f);
    assert HasRow(next, PairOf(a, b)) by {
      assert next[f].pair == PairOf(a, b);
    }
  }

  lemma RemoveKeepsAsked(rows: Rows, asked: set<(Pair, AccountId)>, p: Pair)
    requires AskedOk(rows, asked)
    ensures AskedOk(map f | f in rows && rows[f].pair != p :: rows[f], set k | k in asked && k.0 != p)
  {
    var next := map f | f in rows && rows[f].pair != p :: rows[f];
    var log := set k | k in asked && k.0 != p;
    forall q, x | (q, x) in log
      ensures HasRow(next, q)
    {
      assert HasRow(rows, q);
      var g :| g in rows && rows[g].pair == q;
      assert g in next && next[g].pair == q;
    }
    forall g | g in next
      ensures RowAsked(next[g], log)
    {
      assert RowAsked(rows[g], asked);
    }
  }

  lemma AskInsertKeeps(st: State, t: TaskId)
    requires PairsOk(st) && t in st.tasks && st.tasks[t].AskInserts?
    ensures PairsOk(Advanced(st, t))
  {
    var pc := st.tasks[t];
    var next := Advanced(st, t);
    assert TaskOk(st, t);
    InsertKeepsAsked(st.friendships, st.asked, FriendshipId(st.issued), pc.a, pc.b);
    InsertKeepsRows(st.friendships, st.issued, pc.a, pc.b);
    hide AskedOk, HasRow, RowsUnique;
    forall u | u in next.tasks
      ensures TaskOk(next, u)
    {
      assert TaskOk(st, u);
      OtherTask(st, next, u);
    }
  }

  lemma AcceptKeepsTasks(st: State, t: TaskId)
    requires PairsOk(st) && t in st.tasks && st.tasks[t].AskAccepts? && st.tasks[t].row in st.friendships
    ensures forall u :: u in Advanced(st, t).tasks ==> TaskOk(Advanced(st, t), u)
  {
    var next := Advanced(st, t);
    assert TaskOk(st, t);
    hide AskedOk, HasRow;
    forall u | u in next.tasks
      ensures TaskOk(next, u)
    {
      assert TaskOk(st, u);
      OtherTask(st, next, u);
    }
  }

  lemma AskAcceptKeeps(st: State, t: TaskId)
    requires PairsOk(st) && t in st.tasks && st.tasks[t].AskAccepts?
    ensures PairsOk(Advanced(st, t))
  {
    var pc := st.tasks[t];
    assert TaskOk(st, t);
    if pc.row in st.friendships {
      var next := Advanced(st, t);
      AcceptKeepsAsked(st.friendships, st.asked, pc.row, pc.a, pc.b);
      AcceptKeepsTasks(st, t);
      hide AskedOk, HasRow, TaskOk;
    } else {
      EndKeeps(st, t);
    }
  }

  lemma RemoveKeeps(st: State, p: Pair, blocks: set<(AccountId, AccountId)>)
    requires PairsOk(st) && forall a :: (a, a) !in blocks
    ensures PairsOk(WithoutPair(st, p).(blocks := blocks))
  {
    var next := WithoutPair(st, p).(blocks := blocks);
    RemoveKeepsAsked(st.friendships, st.asked, p);
    hide AskedOk, HasRow;
    forall u | u in next.tasks
      ensures TaskOk(next, u)
    {
      assert TaskOk(st, u);
      OtherTask(st, next, u);
    }
  }

  lemma UnblockKeeps(st: State, blocks: set<(AccountId, AccountId)>)
    requires PairsOk(st) && blocks <= st.blocks
    ensures PairsOk(st.(blocks := blocks))
  {
    var next := st.(blocks := blocks);
    hide AskedOk, HasRow, RowsUnique;
    forall u | u in next.tasks
      ensures TaskOk(next, u)
    {
      assert TaskOk(st, u);
    }
  }

  /** Taking the lock, and a dm's look. */
  lemma SmallStepKeeps(st: State, t: TaskId)
    requires PairsOk(st) && Enabled(st, Advance(t))
    requires st.tasks[t].DmWaits? || st.tasks[t].AskWaits? || st.tasks[t].DmLooks?
    ensures PairsOk(Advanced(st, t))
  {
    var next := Advanced(st, t);
    assert TaskOk(st, t);
    assert TaskOk(next, t);
    hide PairsOk, TaskOk, HasDm;
    TaskAdvancesKeeps(st, t, next);
  }

  lemma NoSelfBlocks(st: State)
    requires PairsOk(st)
    ensures forall a :: (a, a) !in st.blocks
  {
  }

  lemma StepKeeps(st: State, step: Step)
    requires PairsOk(st) && Enabled(st, step)
    ensures PairsOk(Next(st, step))
  {
    hide PairsOk;
    match step
    case StartDm(t, a, b) => StartKeeps(st, t, DmWaits(a, b));
    case StartAsk(t, a, b) => StartKeeps(st, t, AskWaits(a, b));
    case Remove(a, b) =>
      NoSelfBlocks(st);
      RemoveKeeps(st, PairOf(a, b), st.blocks);
    case Block(a, b) =>
      NoSelfBlocks(st);
      RemoveKeeps(st, PairOf(a, b), st.blocks + {(a, b)});
    case Unblock(a, b) => UnblockKeeps(st, st.blocks - {(a, b)});
    case Advance(t) =>
      match st.tasks[t] {
        case DmWaits(_, _) => SmallStepKeeps(st, t);
        case DmLooks(_, _) => SmallStepKeeps(st, t);
        case DmInserts(_, _) => DmInsertKeeps(st, t);
        case DmCommits(_, _) => EndKeeps(st, t);
        case AskWaits(_, _) => SmallStepKeeps(st, t);
        case AskLooks(_, _) => AskLookKeeps(st, t);
        case AskInserts(_, _) => AskInsertKeeps(st, t);
        case AskAccepts(_, _, _) => AskAcceptKeeps(st, t);
        case AskCommits(_, _) => EndKeeps(st, t);
      }
  }

  // ---- every run ----

  ghost predicate Runs(st: State, steps: seq<Step>)
    decreases steps
  {
    steps != [] ==> Enabled(st, steps[0]) && Runs(Next(st, steps[0]), steps[1..])
  }

  ghost function Final(st: State, steps: seq<Step>): State
    decreases steps
  {
    if steps == [] then st else Final(Next(st, steps[0]), steps[1..])
  }

  lemma {:induction false} RunKeeps(st: State, steps: seq<Step>)
    requires PairsOk(st) && Runs(st, steps)
    ensures PairsOk(Final(st, steps))
    decreases steps
  {
    hide PairsOk, Enabled, Next;
    if steps != [] {
      StepKeeps(st, steps[0]);
      RunKeeps(Next(st, steps[0]), steps[1..]);
    }
  }

  lemma StartOk()
    ensures PairsOk(START)
  {
  }

  /** Any number of racing calls leave at most one dm and at most one friendship row per unordered pair. */
  lemma {:induction false} OneRowPerPair(steps: seq<Step>)
    requires Runs(START, steps)
    ensures DmsUnique(Final(START, steps))
    ensures RowsUnique(Final(START, steps).friendships, Final(START, steps).issued)
  {
    hide Runs, Final;
    StartOk();
    RunKeeps(START, steps);
  }

  /** There is a row of `p` exactly when one of `a` and `b` asked, and it is accepted exactly when both did. */
  ghost predicate AskedDecides(st: State, p: Pair, a: AccountId, b: AccountId) {
    && (HasRow(st.friendships, p) <==> (p, a) in st.asked || (p, b) in st.asked)
    && forall f :: f in st.friendships && st.friendships[f].pair == p ==>
         (st.friendships[f].accepted <==> (p, a) in st.asked && (p, b) in st.asked)
  }

  /**
   In every reachable state, the accounts of a pair that asked since the pair's row
   was last removed decide the row: none if nobody did, pending if one did, accepted
   if both did, whoever was first and however the calls raced.
   */
  lemma {:induction false} RowSaysWhoAsked(steps: seq<Step>, a: AccountId, b: AccountId)
    requires Runs(START, steps) && a != b
    ensures AskedDecides(Final(START, steps), PairOf(a, b), a, b)
  {
    hide Runs, Final;
    StartOk();
    RunKeeps(START, steps);
    var st := Final(START, steps);
    var p := PairOf(a, b);
    forall f | f in st.friendships
      ensures RowAsked(st.friendships[f], st.asked) && RowOk(st.friendships[f])
    {
    }
  }
}
