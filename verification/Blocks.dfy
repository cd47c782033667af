/**
 What a block promises: it ends a friendship and prevents friend requests and direct
 messages. The calls check for blocks before they take the pair's lock, and blocking
 takes none.
 */
module Blocks {
  import opened Common
  import opened Pairs

  // ---- friend requests ----

  /** The pair is blocked one way or the other and has a friendship row all the same. */
  ghost predicate BlockedFriends(st: State, p: Pair) {
    Blocked(st, p.low, p.high) && HasRow(st.friendships, p)
  }

  /** A request inserts its row after its own check for blocks has gone stale. */
  predicate InsertsUnderBlock(st: State, step: Step, p: Pair) {
    step.Advance? && step.task in st.tasks && st.tasks[step.task].AskInserts? &&
    PairOf(st.tasks[step.task].a, st.tasks[step.task].b) == p && Blocked(st, p.low, p.high)
  }

  /**
   A block is meant to end a friendship and prevent a new one. A step breaks that for
   a pair exactly when it inserts a request whose pair was blocked after the check.
   */
  lemma OnlyLateInsertsBefriendBlocked(st: State, step: Step, p: Pair)
    requires PairsOk(st) && Enabled(st, step) && p.low.uuid < p.high.uuid && !BlockedFriends(st, p)
    ensures BlockedFriends(Next(st, step), p) <==> InsertsUnderBlock(st, step, p)
  {
    hide PairsOk, AskedOk, RowsUnique, DmsUnique, HasDm, RowOf, TaskOk;
    var next := Next(st, step);
    if step.Advance? {
      var pc := st.tasks[step.task];
      if pc.AskInserts? {
        InsertAddsOneRow(st, step.task, p);
        if HasRow(st.friendships, p) {
          InsertKeepsOthers(st, step.task, p);
        }
        hide HasRow;
      } else {
        SameOrFewerRows(st.friendships, next.friendships, p);
      }
    } else {
      SameOrFewerRows(st.friendships, next.friendships, p);
    }
  }

  lemma InsertAddsOneRow(st: State, t: TaskId, p: Pair)
    requires t in st.tasks && st.tasks[t].AskInserts?
    requires PairsOk(st)
    ensures HasRow(Advanced(st, t).friendships, p) <==>
              HasRow(st.friendships, p) || p == PairOf(st.tasks[t].a, st.tasks[t].b)
  {
    hide AskedOk, DmsUnique, HasDm, RowOf, TaskOk;
    var f := FriendshipId(st.issued);
    var next := Advanced(st, t).friendships;
    assert next[f].pair == PairOf(st.tasks[t].a, st.tasks[t].b);
    if HasRow(st.friendships, p) {
      var g :| g in st.friendships && st.friendships[g].pair == p;
      assert next[g].pair == p;
    }
  }

  lemma InsertKeepsOthers(st: State, t: TaskId, p: Pair)
    requires PairsOk(st) && t in st.tasks && st.tasks[t].AskInserts? && HasRow(st.friendships, p)
    ensures PairOf(st.tasks[t].a, st.tasks[t].b) != p
  {
    assert TaskOk(st, t);
  }

  lemma SameOrFewerRows(rows: Rows, next: Rows, p: Pair)
    requires forall f :: f in next ==> f in rows && next[f].pair == rows[f].pair
    ensures HasRow(next, p) ==> HasRow(rows, p)
  {
  }

  /** At no moment of the run does the pair have a friendship row and a block. */
  ghost predicate BlocksRespected(st: State, steps: seq<Step>, p: Pair)
    decreases steps
  {
    !BlockedFriends(st, p) && (steps != [] ==> BlocksRespected(Next(st, steps[0]), steps[1..], p))
  }

  ghost predicate NoLateInsert(st: State, steps: seq<Step>, p: Pair)
    decreases steps
  {
    steps != [] ==> !InsertsUnderBlock(st, steps[0], p) && NoLateInsert(Next(st, steps[0]), steps[1..], p)
  }

  lemma {:induction false} BlocksRespectedFrom(st: State, steps: seq<Step>, p: Pair)
    requires PairsOk(st) && Runs(st, steps) && p.low.uuid < p.high.uuid && !BlockedFriends(st, p)
    ensures BlocksRespected(st, steps, p) <==> NoLateInsert(st, steps, p)
    decreases steps
  {
    hide PairsOk, Enabled, Next, BlockedFriends, InsertsUnderBlock;
    if steps != [] {
      var next := Next(st, steps[0]);
      OnlyLateInsertsBefriendBlocked(st, steps[0], p);
      StepKeeps(st, steps[0]);
      if !BlockedFriends(next, p) {
        BlocksRespectedFrom(next, steps[1..], p);
      }
    }
  }

  /**
   Over whole runs, of any number of racing calls: a blocked pair never has a
   friendship row exactly when no request inserts one after its check went stale.
   */
  lemma {:induction false} BlocksHoldExactlyWithoutLateInserts(steps: seq<Step>, p: Pair)
    requires Runs(START, steps) && p.low.uuid < p.high.uuid
    ensures BlocksRespected(START, steps, p) <==> NoLateInsert(START, steps, p)
  {
    hide BlocksRespected, NoLateInsert;
    BlocksRespectedFrom(START, steps, p);
  }

  // ---- direct messages ----

  /** A direct message channel of the pair appears while the pair is blocked. */
  ghost predicate OpensBlockedDm(st: State, next: State, p: Pair) {
    !HasDm(st, p.low, p.high) && HasDm(next, p.low, p.high) && Blocked(next, p.low, p.high)
  }

  /** A call inserts its channel after its own check for blocks has gone stale. */
  predicate OpensUnderBlock(st: State, step: Step, p: Pair) {
    step.Advance? && step.task in st.tasks && st.tasks[step.task].DmInserts? &&
    PairOf(st.tasks[step.task].a, st.tasks[step.task].b) == p && Blocked(st, p.low, p.high)
  }

  lemma DmInsertAddsOne(st: State, t: TaskId, p: Pair)
    requires PairsOk(st) && t in st.tasks && st.tasks[t].DmInserts? && p.low.uuid < p.high.uuid
    ensures HasDm(Advanced(st, t), p.low, p.high) <==>
              HasDm(st, p.low, p.high) || PairOf(st.tasks[t].a, st.tasks[t].b) == p
    ensures PairOf(st.tasks[t].a, st.tasks[t].b) == p ==> !HasDm(st, p.low, p.high)
  {
    var pc := st.tasks[t];
    assert TaskOk(st, t);
    PairIsSet(pc.a, pc.b, p.low, p.high);
    hide PairsOk, TaskOk;
    var next := Advanced(st, t);
    var c := ChannelId(st.issued);
    assert next.dms[c] == {pc.a, pc.b};
    if HasDm(st, p.low, p.high) {
      var d :| d in st.dms && st.dms[d] == {p.low, p.high};
      assert d != c ==> next.dms[d] == st.dms[d];
      if d == c {
        DmBeforeIssue(st, d);
      }
    }
  }

  lemma DmBeforeIssue(st: State, c: ChannelId)
    requires PairsOk(st) && c in st.dms
    ensures c.uuid < st.issued
  {
  }

  /**
   A block prevents direct messages between the two. A step opens one for a blocked
   pair exactly when it inserts a channel whose pair was blocked after the check.
   */
  lemma OnlyLateInsertsOpenBlockedDms(st: State, step: Step, p: Pair)
    requires PairsOk(st) && Enabled(st, step) && p.low.uuid < p.high.uuid
    ensures OpensBlockedDm(st, Next(st, step), p) <==> OpensUnderBlock(st, step, p)
  {
    if step.Advance? && st.tasks[step.task].DmInserts? {
      DmInsertAddsOne(st, step.task, p);
      hide PairsOk, HasDm;
    } else {
      hide PairsOk, RowOf;
      assert Next(st, step).dms == st.dms;
    }
  }

  /** At no step of the run does a blocked pair get a direct message channel. */
  ghost predicate NeverOpensBlocked(st: State, steps: seq<Step>, p: Pair)
    decreases steps
  {
    steps != [] ==>
      !OpensBlockedDm(st, Next(st, steps[0]), p) && NeverOpensBlocked(Next(st, steps[0]), steps[1..], p)
  }

  ghost predicate NoLateDm(st: State, steps: seq<Step>, p: Pair)
    decreases steps
  {
    steps != [] ==> !OpensUnderBlock(st, steps[0], p) && NoLateDm(Next(st, steps[0]), steps[1..], p)
  }

  lemma {:induction false} NeverOpensBlockedFrom(st: State, steps: seq<Step>, p: Pair)
    requires PairsOk(st) && Runs(st, steps) && p.low.uuid < p.high.uuid
    ensures NeverOpensBlocked(st, steps, p) <==> NoLateDm(st, steps, p)
    decreases steps
  {
    hide PairsOk, Enabled, Next, OpensBlockedDm, OpensUnderBlock;
    if steps != [] {
      OnlyLateInsertsOpenBlockedDms(st, steps[0], p);
      StepKeeps(st, steps[0]);
      NeverOpensBlockedFrom(Next(st, steps[0]), steps[1..], p);
    }
  }

  /** Over whole runs: a blocked pair never gets a new channel exactly when no call inserts one after its check. */
  lemma {:induction false} DmsRespectBlocksExactlyWhen(steps: seq<Step>, p: Pair)
    requires Runs(START, steps) && p.low.uuid < p.high.uuid
    ensures NeverOpensBlocked(START, steps, p) <==> NoLateDm(START, steps, p)
  {
    hide NeverOpensBlocked, NoLateDm;
    StartOk();
    NeverOpensBlockedFrom(START, steps, p);
  }

  // ---- where it fails ----

  const ANA := AccountId(1)
  const BEN := AccountId(2)
  const REQUEST := TaskId(1)
  const ANA_BEN := Pair(ANA, BEN)

  lemma {:induction false} OneMoreBefore(st: State, step: Step, mid: State, rest: seq<Step>)
    requires Enabled(st, step) && Next(st, step) == mid && Runs(mid, rest)
    ensures Runs(st, [step] + rest) && Final(st, [step] + rest) == Final(mid, rest)
  {
    hide Enabled, Next;
    assert ([step] + rest)[1..] == rest;
  }

  /** Ana asks; between her look and her insert, Ben blocks her. */
  const OVERTAKEN: seq<Step> :=
    [StartAsk(REQUEST, ANA, BEN)] +
    ([Advance(REQUEST)] + ([Advance(REQUEST)] + ([Block(BEN, ANA)] + ([Advance(REQUEST)] + []))))

  lemma {:induction false} BlockCanBeOvertaken()
    ensures Runs(START, OVERTAKEN)
    ensures BlockedFriends(Final(START, OVERTAKEN), ANA_BEN)
  {
    hide Runs, Final;
    var held: map<Lock, TaskId> := map[FriendLock(ANA_BEN) := REQUEST];
    var waiting := START.(tasks := map[REQUEST := AskWaits(ANA, BEN)]);
    var looking := START.(tasks := map[REQUEST := AskLooks(ANA, BEN)], locks := held);
    var inserting := START.(tasks := map[REQUEST := AskInserts(ANA, BEN)], locks := held);
    var blocked := inserting.(blocks := {(BEN, ANA)});
    var last := Next(blocked, Advance(REQUEST));
    assert last.friendships[FriendshipId(0)].pair == ANA_BEN;
    assert Runs(last, []) && Final(last, []) == last by {
      NothingRuns(last);
    }
    OneMoreBefore(blocked, Advance(REQUEST), last, []);
    OneMoreBefore(inserting, Block(BEN, ANA), blocked, [Advance(REQUEST)] + []);
    OneMoreBefore(looking, Advance(REQUEST), inserting, [Block(BEN, ANA)] + ([Advance(REQUEST)] + []));
    OneMoreBefore(waiting, Advance(REQUEST), looking,
        [Advance(REQUEST)] + ([Block(BEN, ANA)] + ([Advance(REQUEST)] + [])));
    OneMoreBefore(START, StartAsk(REQUEST, ANA, BEN), waiting,
                  [Advance(REQUEST)] + ([Advance(REQUEST)] + ([Block(BEN, ANA)] + ([Advance(REQUEST)] + []))));
  }

  lemma NothingRuns(st: State)
    ensures Runs(st, []) && Final(st, []) == st
  {
  }

  /** Ana opens a direct message; between her look and her insert, Ben blocks her. */
  const DM_OVERTAKEN: seq<Step> :=
    [StartDm(REQUEST, ANA, BEN)] +
    ([Advance(REQUEST)] + ([Advance(REQUEST)] + ([Block(BEN, ANA)] + ([Advance(REQUEST)] + []))))

  lemma {:induction false} BlockedPairGetsDm()
    ensures Runs(START, DM_OVERTAKEN)
    ensures Blocked(Final(START, DM_OVERTAKEN), ANA, BEN) && HasDm(Final(START, DM_OVERTAKEN), ANA, BEN)
    ensures !HasDm(START, ANA, BEN)
  {
    hide Runs, Final;
    var held: map<Lock, TaskId> := map[DmLock(ANA_BEN) := REQUEST];
    var waiting := START.(tasks := map[REQUEST := DmWaits(ANA, BEN)]);
    var looking := START.(tasks := map[REQUEST := DmLooks(ANA, BEN)], locks := held);
    var inserting := START.(tasks := map[REQUEST := DmInserts(ANA, BEN)], locks := held);
    var blocked := inserting.(blocks := {(BEN, ANA)});
    var last := Next(blocked, Advance(REQUEST));
    assert last.dms[ChannelId(0)] == {ANA, BEN};
    NothingRuns(last);
    OneMoreBefore(blocked, Advance(REQUEST), last, []);
    OneMoreBefore(inserting, Block(BEN, ANA), blocked, [Advance(REQUEST)] + []);
    OneMoreBefore(looking, Advance(REQUEST), inserting, [Block(BEN, ANA)] + ([Advance(REQUEST)] + []));
    OneMoreBefore(waiting, Advance(REQUEST), looking,
        [Advance(REQUEST)] + ([Block(BEN, ANA)] + ([Advance(REQUEST)] + [])));
    OneMoreBefore(START, StartDm(REQUEST, ANA, BEN), waiting,
                  [Advance(REQUEST)] + ([Advance(REQUEST)] + ([Block(BEN, ANA)] + ([Advance(REQUEST)] + []))));
  }
}
