/**
 What friend requests and direct messages come to, told from the steps of the run:
 who started a call, when it ended, and what removed a row in between.
 */
module Friends {
  import opened Common
  import opened Pairs

  /** The state before step `i`. */
  ghost function At(steps: seq<Step>, i: nat): State
    requires i <= |steps|
  {
    if i == 0 then START else Next(At(steps, i - 1), steps[i - 1])
  }

  lemma {:induction false} FinalFrom(st: State, steps: seq<Step>, i: nat)
    requires i <= |steps|
    requires Runs(st, steps)
    ensures Runs(st, steps[..i]) && Runs(Final(st, steps[..i]), steps[i..])
    ensures Final(st, steps) == Final(Final(st, steps[..i]), steps[i..])
    decreases i
  {
    hide Enabled, Next;
    if i == 0 {
      assert steps[..0] == [] && steps[0..] == steps;
    } else {
      FinalFrom(Next(st, steps[0]), steps[1..], i - 1);
      assert steps[..i][1..] == steps[1..][..i - 1] && steps[1..][i - 1..] == steps[i..];
    }
  }

  /** A run in the sense of `Runs` goes through these states, each step enabled, and all of them sound. */
  lemma {:induction false} AtIsFinal(steps: seq<Step>, i: nat)
    requires Runs(START, steps) && i <= |steps|
    ensures At(steps, i) == Final(START, steps[..i])
    ensures PairsOk(At(steps, i))
    ensures i < |steps| ==> Enabled(At(steps, i), steps[i])
    decreases i
  {
    hide Enabled, Next, PairsOk;
    StartOk();
    FinalFrom(START, steps, i);
    RunKeeps(START, steps[..i]);
    if i < |steps| {
      assert steps[i..][0] == steps[i];
    }
    if i == 0 {
      assert steps[..0] == [];
    } else {
      AtIsFinal(steps, i - 1);
      FinalFrom(START, steps[..i], i - 1);
      assert steps[..i][..i - 1] == steps[..i - 1] && steps[..i][i - 1..] == [steps[i - 1]];
      assert [steps[i - 1]][1..] == [];
    }
  }

  // ---- told from the steps ----

  /** The step removes the friendship of the pair, by itself or with a block. */
  predicate Parts(step: Step, p: Pair) {
    (step.Remove? || step.Block?) && PairOf(step.a, step.b) == p
  }

  ghost predicate Undisturbed(steps: seq<Step>, i: nat, j: nat, p: Pair)
    requires i <= j <= |steps|
  {
    forall k :: i <= k < j ==> !Parts(steps[k], p)
  }

  /** The call started by step `i` ends with step `j - 1`. */
  ghost predicate RunsFromTo(steps: seq<Step>, i: nat, j: nat, start: Step)
    requires start.StartAsk? || start.StartDm?
  {
    && i < j <= |steps| && steps[i] == start
    && (forall k {:trigger At(steps, k)} :: i < k < j ==> start.task in At(steps, k).tasks)
    && start.task !in At(steps, j).tasks
  }

  /** The pair has a row, and it is an accepted one. */
  ghost predicate AreFriends(st: State, p: Pair) {
    exists f :: f in st.friendships && st.friendships[f].pair == p && st.friendships[f].accepted
  }

  // ---- requests ----

  /** How far the request of `a` has come, if nothing parted the pair since it started. */
  ghost predicate OnItsWay(st: State, t: TaskId, a: AccountId, b: AccountId) {
    t in st.tasks &&
    var pc := st.tasks[t];
    && Asks(pc) && pc.a == a && pc.b == b
    && (pc.AskAccepts? ==> pc.row in st.friendships)
    && (pc.AskCommits? ==> (PairOf(a, b), a) in st.asked)
  }

  /** A step of another call neither takes the row nor the mark, as long as it does not part the pair. */
  lemma OthersLeaveRequest(st: State, step: Step, t: TaskId, a: AccountId, b: AccountId)
    requires PairsOk(st) && Enabled(st, step) && !Parts(step, PairOf(a, b)) && OnItsWay(st, t, a, b)
    requires step != Advance(t)
    ensures OnItsWay(Next(st, step), t, a, b)
  {
    assert TaskOk(st, t);
    hide PairsOk, Next, TaskOk;
    if st.tasks[t].AskAccepts? {
      RowsStay(st, step, st.tasks[t].row);
    }
    if (PairOf(a, b), a) in st.asked {
      MarkStays(st, step, PairOf(a, b), a);
    }
    TaskStays(st, step, t);
  }

  predicate Asks(pc: Pc) {
    pc.AskWaits? || pc.AskLooks? || pc.AskInserts? || pc.AskAccepts? || pc.AskCommits?
  }

  /** An advance moves its own call on, between the same two accounts, and no other. */
  lemma AdvancedTasks(st: State, t: TaskId, u: TaskId)
    requires t in st.tasks
    ensures var next := Advanced(st, t).tasks;
            && (u != t ==> (u in next <==> u in st.tasks))
            && (u in next ==> u in st.tasks && next[u].a == st.tasks[u].a && next[u].b == st.tasks[u].b)
            && (u in next ==> (Asks(next[u]) <==> Asks(st.tasks[u])))
            && (u in next && u != t ==> next[u] == st.tasks[u])
  {
    hide Advanced;
    if u == t {
      OwnAdvance(st, t);
    } else {
      OtherAdvance(st, t, u);
    }
  }

  lemma OwnAdvance(st: State, t: TaskId)
    requires t in st.tasks
    ensures var next := Advanced(st, t).tasks;
            t in next ==>
              next[t].a == st.tasks[t].a && next[t].b == st.tasks[t].b && (Asks(next[t]) <==> Asks(st.tasks[t]))
  {
    hide RowOf, HasDm, PairOf;
  }

  lemma OtherAdvance(st: State, t: TaskId, u: TaskId)
    requires t in st.tasks && u != t
    ensures var next := Advanced(st, t).tasks;
            (u in next <==> u in st.tasks) && (u in next ==> next[u] == st.tasks[u])
  {
    hide RowOf, HasDm, PairOf, AfterAccept, AfterLook;
    var pc := st.tasks[t];
    match pc {
      case AskLooks(a, b) => LookElsewhere(st, t, a, b, u);
      case AskAccepts(a, b, f) => AcceptElsewhere(st, t, a, b, f, u);
      case _ =>
    }
  }

  lemma LookElsewhere(st: State, t: TaskId, a: AccountId, b: AccountId, u: TaskId)
    requires u != t
    ensures var next := AfterLook(st, t, a, b).tasks;
            (u in next <==> u in st.tasks) && (u in next ==> next[u] == st.tasks[u])
  {
    hide RowOf, PairOf;
  }

  lemma AcceptElsewhere(st: State, t: TaskId, a: AccountId, b: AccountId, f: FriendshipId, u: TaskId)
    requires t in st.tasks && u != t
    ensures var next := AfterAccept(st, t, a, b, f).tasks;
            (u in next <==> u in st.tasks) && (u in next ==> next[u] == st.tasks[u])
  {
    hide PairOf;
  }

  lemma TaskStays(st: State, step: Step, t: TaskId)
    requires Enabled(st, step) && t in st.tasks && step != Advance(t)
    ensures t in Next(st, step).tasks && Next(st, step).tasks[t] == st.tasks[t]
  {
    hide Advanced, WithoutPair;
    if step.Advance? {
      AdvancedTasks(st, step.task, t);
    }
    if step.Remove? || step.Block? || step.Unblock? {
      PartingKeepsTasks(st, step);
    }
  }

  lemma PartingKeepsTasks(st: State, step: Step)
    requires step.Remove? || step.Block? || step.Unblock?
    ensures Next(st, step).tasks == st.tasks
  {
  }

  lemma RowsStay(st: State, step: Step, f: FriendshipId)
    requires f in st.friendships && !Parts(step, st.friendships[f].pair)
    ensures f in Next(st, step).friendships
  {
    hide RowOf, HasDm;
  }

  lemma RequestMoves(st: State, step: Step, t: TaskId, a: AccountId, b: AccountId)
    requires PairsOk(st) && Enabled(st, step) && !Parts(step, PairOf(a, b)) && OnItsWay(st, t, a, b)
    ensures var next := Next(st, step);
            if t in next.tasks then OnItsWay(next, t, a, b) else (PairOf(a, b), a) in next.asked
  {
    hide PairsOk;
    if step == Advance(t) {
      LookFinds(st, PairOf(a, b));
      hide RowOf, HasDm;
    } else {
      OthersLeaveRequest(st, step, t, a, b);
      hide Next, Enabled, OnItsWay;
      assert OnItsWay(Next(st, step), t, a, b);
      IsThere(Next(st, step), t, a, b);
    }
  }

  lemma IsThere(st: State, t: TaskId, a: AccountId, b: AccountId)
    requires OnItsWay(st, t, a, b)
    ensures t in st.tasks
  {
  }

  lemma LookFinds(st: State, p: Pair)
    ensures RowOf(st, p).Some? ==> RowOf(st, p).value in st.friendships
  {
  }

  lemma {:induction false} RequestUnderWay(
    steps: seq<Step>, i: nat, k: nat, t: TaskId, a: AccountId, b: AccountId)
    requires Runs(START, steps) && i < k <= |steps| && steps[i] == StartAsk(t, a, b)
    requires forall l {:trigger At(steps, l)} :: i < l <= k ==> t in At(steps, l).tasks
    requires Undisturbed(steps, i, k, PairOf(a, b))
    ensures OnItsWay(At(steps, k), t, a, b)
    decreases k
  {
    hide Runs, PairsOk;
    AtIsFinal(steps, k - 1);
    if i == k - 1 {
      hide Enabled;
    } else {
      RequestUnderWay(steps, i, k - 1, t, a, b);
      assert !Parts(steps[k - 1], PairOf(a, b));
      RequestMoves(At(steps, k - 1), steps[k - 1], t, a, b);
      hide Next, Enabled, OnItsWay;
      assert t in At(steps, k).tasks;
    }
  }

  lemma MarkStays(st: State, step: Step, p: Pair, a: AccountId)
    requires (p, a) in st.asked && !Parts(step, p)
    ensures (p, a) in Next(st, step).asked
  {
  }

  /** A request that ended left its mark, if nothing parted the pair since it started. */
  lemma {:induction false} RequestLeavesMark(
    steps: seq<Step>, i: nat, j: nat, n: nat, t: TaskId, a: AccountId, b: AccountId)
    requires Runs(START, steps) && RunsFromTo(steps, i, j, StartAsk(t, a, b)) && j <= n <= |steps|
    requires Undisturbed(steps, i, n, PairOf(a, b))
    ensures (PairOf(a, b), a) in At(steps, n).asked
    decreases n
  {
    hide Runs, PairsOk;
    if n > j {
      RequestLeavesMark(steps, i, j, n - 1, t, a, b);
      MarkStays(At(steps, n - 1), steps[n - 1], PairOf(a, b), a);
      hide Next;
    } else {
      assert i < j - 1 by {
        AtIsFinal(steps, i);
        hide Enabled;
        assert t in At(steps, i + 1).tasks;
      }
      AtIsFinal(steps, j - 1);
      RequestUnderWay(steps, i, j - 1, t, a, b);
      assert !Parts(steps[j - 1], PairOf(a, b));
      RequestMoves(At(steps, j - 1), steps[j - 1], t, a, b);
      hide Next, Enabled, OnItsWay;
    }
  }

  /**
   When each of two accounts has asked for the other, and both calls ran to their end
   with nothing parting the two since the first of them started, they are friends,
   whatever raced with what.
   */
  lemma {:induction false} BothAskedMeansFriends(
    steps: seq<Step>, n: nat, a: AccountId, b: AccountId,
    i: nat, j: nat, t: TaskId, i': nat, j': nat, t': TaskId)
    requires Runs(START, steps) && a != b && j <= n <= |steps| && j' <= n
    requires RunsFromTo(steps, i, j, StartAsk(t, a, b)) && RunsFromTo(steps, i', j', StartAsk(t', b, a))
    requires Undisturbed(steps, if i < i' then i else i', n, PairOf(a, b))
    ensures AreFriends(At(steps, n), PairOf(a, b))
  {
    assert i < j && i' < j';
    hide Runs, PairsOk, RunsFromTo, AskedDecides;
    var p := PairOf(a, b);
    SamePair(a, b);
    assert Undisturbed(steps, i, n, p) && Undisturbed(steps, i', n, p);
    RequestLeavesMark(steps, i, j, n, t, a, b);
    RequestLeavesMark(steps, i', j', n, t', b, a);
    AtIsFinal(steps, n);
    FinalFrom(START, steps, n);
    RowSaysWhoAsked(steps[..n], a, b);
    MarkedAreFriends(At(steps, n), p, a, b);
  }

  lemma SamePair(a: AccountId, b: AccountId)
    requires a != b
    ensures PairOf(a, b) == PairOf(b, a)
  {
  }

  lemma MarkedAreFriends(st: State, p: Pair, a: AccountId, b: AccountId)
    requires AskedDecides(st, p, a, b) && (p, a) in st.asked && (p, b) in st.asked
    ensures AreFriends(st, p)
  {
    var f :| f in st.friendships && st.friendships[f].pair == p;
  }

  // ---- only requests make friends ----

  /** Some step before `n` started a request of `a` to `b`. */
  ghost predicate Requested(steps: seq<Step>, n: nat, a: AccountId, b: AccountId)
    requires n <= |steps|
  {
    exists i :: 0 <= i < n && steps[i].StartAsk? && steps[i].a == a && steps[i].b == b
  }

  /** Whoever is marked, or has a request in flight, started one. */
  ghost predicate MarksAreEarned(steps: seq<Step>, n: nat)
    requires n <= |steps|
  {
    && (forall p, a :: (p, a) in At(steps, n).asked ==> exists b :: PairOf(a, b) == p && Requested(steps, n, a, b))
    && (forall t :: t in At(steps, n).tasks && Asks(At(steps, n).tasks[t]) ==>
          Requested(steps, n, At(steps, n).tasks[t].a, At(steps, n).tasks[t].b))
  }

  /** What a step marks comes from its request, the other marks are from before. */
  lemma NewMarks(st: State, step: Step, p: Pair, a: AccountId)
    requires (p, a) in Next(st, step).asked && (p, a) !in st.asked
    ensures exists t :: t in st.tasks && Asks(st.tasks[t]) && st.tasks[t].a == a &&
                        PairOf(a, st.tasks[t].b) == p
  {
    hide RowOf, HasDm;
    assert st.tasks[step.task].a == a;
  }

  lemma NewRequests(st: State, step: Step, t: TaskId)
    requires t in Next(st, step).tasks
    ensures var pc := Next(st, step).tasks[t];
            Asks(pc) ==>
              (step.StartAsk? && step.a == pc.a && step.b == pc.b) ||
              (t in st.tasks && Asks(st.tasks[t]) && st.tasks[t].a == pc.a && st.tasks[t].b == pc.b)
  {
    hide Advanced, WithoutPair;
    if step.Advance? && step.task in st.tasks {
      AdvancedTasks(st, step.task, t);
    } else if step.Remove? || step.Block? || step.Unblock? {
      PartingKeepsTasks(st, step);
    }
  }

  lemma RequestedLater(steps: seq<Step>, n: nat, a: AccountId, b: AccountId)
    requires n < |steps| && Requested(steps, n, a, b)
    ensures Requested(steps, n + 1, a, b)
  {
  }

  lemma {:induction false} MarksEarned(steps: seq<Step>, n: nat)
    requires n <= |steps|
    ensures MarksAreEarned(steps, n)
    decreases n
  {
    if n > 0 {
      MarksEarned(steps, n - 1);
      var st, next := At(steps, n - 1), At(steps, n);
      hide Next, PairOf;
      forall a, b | Requested(steps, n - 1, a, b)
        ensures Requested(steps, n, a, b)
      {
        RequestedLater(steps, n - 1, a, b);
      }
      forall p, a | (p, a) in next.asked
        ensures exists b :: PairOf(a, b) == p && Requested(steps, n, a, b)
      {
        if (p, a) in st.asked {
          var b :| PairOf(a, b) == p && Requested(steps, n - 1, a, b);
        } else {
          NewMarks(st, steps[n - 1], p, a);
          var t :| t in st.tasks && Asks(st.tasks[t]) && st.tasks[t].a == a &&
                PairOf(a, st.tasks[t].b) == p;
          assert Requested(steps, n, a, st.tasks[t].b);
        }
      }
      forall t | t in next.tasks && Asks(next.tasks[t])
        ensures Requested(steps, n, next.tasks[t].a, next.tasks[t].b)
      {
        NewRequests(st, steps[n - 1], t);
      }
    }
  }

  /** Two accounts are friends only if each of them has asked for the other. */
  lemma {:induction false} FriendsHaveBothAsked(steps: seq<Step>, n: nat, a: AccountId, b: AccountId)
    requires Runs(START, steps) && a != b && n <= |steps| && AreFriends(At(steps, n), PairOf(a, b))
    ensures Requested(steps, n, a, b) && Requested(steps, n, b, a)
  {
    hide Runs, PairsOk, Requested;
    AtIsFinal(steps, n);
    FinalFrom(START, steps, n);
    RowSaysWhoAsked(steps[..n], a, b);
    MarksEarned(steps, n);
    OnlyPairs(a, b);
    SamePair(a, b);
    hide PairOf;
  }

  lemma OnlyPairs(a: AccountId, b: AccountId)
    requires a != b
    ensures forall c :: PairOf(a, c) == PairOf(a, b) ==> c == b
    ensures forall c :: PairOf(b, c) == PairOf(a, b) ==> c == a
  {
  }

  // ---- direct messages ----

  ghost predicate DmOnItsWay(st: State, t: TaskId, a: AccountId, b: AccountId) {
    t in st.tasks &&
    var pc := st.tasks[t];
    && (pc.DmWaits? || pc.DmLooks? || pc.DmInserts? || pc.DmCommits?) && pc.a == a && pc.b == b
    && (pc.DmCommits? ==> HasDm(st, a, b))
  }

  lemma DmsStay(st: State, step: Step, a: AccountId, b: AccountId)
    requires PairsOk(st) && HasDm(st, a, b)
    ensures HasDm(Next(st, step), a, b)
  {
    var c :| c in st.dms && st.dms[c] == {a, b};
    hide RowOf, RowsUnique, AskedOk, TaskOk;
    var next := Next(st, step);
    assert c in next.dms && next.dms[c] == {a, b};
  }

  lemma DmMoves(st: State, step: Step, t: TaskId, a: AccountId, b: AccountId)
    requires PairsOk(st) && Enabled(st, step) && DmOnItsWay(st, t, a, b)
    ensures var next := Next(st, step);
            if t in next.tasks then DmOnItsWay(next, t, a, b) else HasDm(next, a, b)
  {
    hide PairsOk, HasDm;
    if HasDm(st, a, b) {
      DmsStay(st, step, a, b);
    }
    if step == Advance(t) {
      OwnDmMoves(st, t, a, b);
      hide DmOnItsWay;
    } else {
      TaskStays(st, step, t);
      hide Next;
    }
  }

  lemma OwnDmMoves(st: State, t: TaskId, a: AccountId, b: AccountId)
    requires DmOnItsWay(st, t, a, b)
    ensures var next := Advanced(st, t);
            if t in next.tasks then DmOnItsWay(next, t, a, b) else HasDm(next, a, b)
  {
    hide RowOf;
    var next := Advanced(st, t);
    if st.tasks[t].DmInserts? {
      assert next.dms[ChannelId(st.issued)] == {a, b};
    } else {
      DmLooksSame(st, next, a, b);
      hide HasDm;
    }
  }

  lemma DmLooksSame(st: State, next: State, a: AccountId, b: AccountId)
    ensures next.dms == st.dms ==> (HasDm(next, a, b) <==> HasDm(st, a, b))
  {
  }

  lemma {:induction false} DmUnderWay(steps: seq<Step>, i: nat, k: nat, t: TaskId, a: AccountId, b: AccountId)
    requires Runs(START, steps) && i < k <= |steps| && steps[i] == StartDm(t, a, b)
    requires forall l {:trigger At(steps, l)} :: i < l <= k ==> t in At(steps, l).tasks
    ensures DmOnItsWay(At(steps, k), t, a, b)
    decreases k
  {
    hide Runs, PairsOk, HasDm;
    AtIsFinal(steps, k - 1);
    if i == k - 1 {
      hide Enabled;
    } else {
      DmUnderWay(steps, i, k - 1, t, a, b);
      DmMoves(At(steps, k - 1), steps[k - 1], t, a, b);
      hide Next, Enabled, DmOnItsWay;
      assert t in At(steps, k).tasks;
    }
  }

  /** Once a call to open a direct message has ended, the two have a channel, ever after. */
  lemma {:induction false} DmCallsLeaveAChannel(
    steps: seq<Step>, i: nat, j: nat, n: nat, t: TaskId, a: AccountId, b: AccountId)
    requires Runs(START, steps) && RunsFromTo(steps, i, j, StartDm(t, a, b)) && j <= n <= |steps|
    ensures HasDm(At(steps, n), a, b)
    decreases n
  {
    hide Runs, PairsOk, HasDm;
    AtIsFinal(steps, n - 1);
    if n > j {
      DmCallsLeaveAChannel(steps, i, j, n - 1, t, a, b);
      DmsStay(At(steps, n - 1), steps[n - 1], a, b);
      hide Next, Enabled;
    } else {
      assert i < j - 1 by {
        hide Enabled;
        assert t in At(steps, i + 1).tasks;
      }
      DmUnderWay(steps, i, j - 1, t, a, b);
      DmMoves(At(steps, j - 1), steps[j - 1], t, a, b);
      hide Next, Enabled, DmOnItsWay;
    }
  }

  // ---- parting ----

  /** Removing and blocking leave no row of the pair; a block refuses either one's calls from then on. */
  lemma PartingParts(st: State, step: Step, t: TaskId, u: TaskId)
    requires Enabled(st, step) && (step.Remove? || step.Block?)
    ensures var next := Next(st, step);
            && (forall f :: f in next.friendships ==> next.friendships[f].pair != PairOf(step.a, step.b))
            && (step.Block? ==>
                  (step.a, step.b) in next.blocks &&
                  !Enabled(next, StartAsk(t, step.a, step.b)) && !Enabled(next, StartAsk(t, step.b, step.a)) &&
                  !Enabled(next, StartDm(u, step.a, step.b)) && !Enabled(next, StartDm(u, step.b, step.a)))
  {
  }

  /** Unblocking lifts that one block and nothing else: no friendship comes back by itself. */
  lemma UnblockingLifts(st: State, a: AccountId, b: AccountId)
    ensures var next := Next(st, Unblock(a, b));
            && (forall x, y :: (x, y) in next.blocks <==> (x, y) in st.blocks && (x, y) != (a, b))
            && next.friendships == st.friendships && next.dms == st.dms
  {
  }

  /** A call starts exactly when neither of the two blocks the other. */
  lemma CallsStartUnlessBlocked(st: State, t: TaskId, a: AccountId, b: AccountId)
    requires t !in st.tasks && a != b
    ensures Enabled(st, StartAsk(t, a, b)) <==> (a, b) !in st.blocks && (b, a) !in st.blocks
    ensures Enabled(st, StartDm(t, a, b)) <==> (a, b) !in st.blocks && (b, a) !in st.blocks
  {
  }
}
