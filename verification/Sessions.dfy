/**
 Sessions over time. Login is a transaction whose `now()` is the moment it began,
 however long it then waits for the account's row lock; verification is a select and
 a conditional touch. The clock only moves forward.
 */
module Sessions {
  import opened Common

  datatype SessionId = SessionId(uuid: int)
  datatype LoginId = LoginId(number: int)
  datatype VerifyId = VerifyId(number: int)

  const MAX_CONCURRENT_SESSIONS := 4
  const DAY: Time := 86400.0
  const IDLE_TIMEOUT: Time := 14.0 * DAY
  const ABSOLUTE_LIFETIME: Time := 90.0 * DAY
  const TOUCH_TOLERANCE: Time := 300.0

  datatype Session = Session(account: AccountId, lastUsed: Time, absoluteExpires: Time, revoked: bool)

  type Table = map<SessionId, Session>

  /** `session_eligibility_sql`, the one definition of a session that still counts. */
  predicate Eligible(row: Session, now: Time) {
    !row.revoked && row.absoluteExpires > now && row.lastUsed + IDLE_TIMEOUT > now
  }

  function EligibleOf(sessions: Table, a: AccountId, now: Time): set<SessionId> {
    set k | k in sessions && sessions[k].account == a && Eligible(sessions[k], now)
  }

  /** A login transaction: when it began, and how far it is. */
  datatype Login =
    | Begun(account: AccountId, start: Time)
    | Locked(account: AccountId, start: Time)
    | Counted(account: AccountId, start: Time)

  datatype State = State(
    clock: Time,
    sessions: Table,
    logins: map<LoginId, Login>,
    rowLocks: map<AccountId, LoginId>,
    verifies: map<VerifyId, SessionId>)

  const START := State(0.0, map[], map[], map[], map[])

  datatype Step =
    | Tick(elapsed: Time)
    | Begin(login: LoginId, account: AccountId)
    | Lock(login: LoginId)
    | Count(login: LoginId)
    | Commit(login: LoginId, session: SessionId)
    | Verify(session: SessionId) // select and touch at one moment
    | Select(verify: VerifyId, session: SessionId) // the same two statements,
    | Touch(verify: VerifyId) //                      time passing in between
    | Revoke(account: AccountId, session: SessionId)
    | RevokeAll(account: AccountId)

  ghost predicate Enabled(st: State, step: Step) {
    match step
    case Tick(d) => d >= 0.0
    case Begin(l, _) => l !in st.logins
    case Lock(l) => l in st.logins && st.logins[l].Begun? && st.logins[l].account !in st.rowLocks
    case Count(l) => l in st.logins && st.logins[l].Locked?
    case Commit(l, k) => l in st.logins && st.logins[l].Counted? && k !in st.sessions
    case Verify(_) => true
    case Select(v, _) => v !in st.verifies
    case Touch(v) => v in st.verifies
    case Revoke(_, _) => true
    case RevokeAll(_) => true
  }

  /** `UPDATE session SET last_used_at = now() WHERE id = $1 AND last_used_at < now() - tolerance`. */
  function Touched(sessions: Table, k: SessionId, now: Time): Table {
    if k in sessions && sessions[k].lastUsed < now - TOUCH_TOLERANCE
    then sessions[k := sessions[k].(lastUsed := now)]
    else sessions
  }

  function EndLogin(st: State, l: LoginId): State
    requires l in st.logins
  {
    st.(logins := st.logins - {l}, rowLocks := st.rowLocks - {st.logins[l].account})
  }

  /** The transaction commits with its one new row, stamped with its own start. */
  function Committed(st: State, l: LoginId, k: SessionId): State
    requires l in st.logins
  {
    var login := st.logins[l];
    var row := Session(login.account, login.start, login.start + ABSOLUTE_LIFETIME, false);
    EndLogin(st, l).(sessions := st.sessions[k := row])
  }

  function AfterCount(st: State, l: LoginId): State
    requires l in st.logins
  {
    var login := st.logins[l];
    if |EligibleOf(st.sessions, login.account, login.start)| >= MAX_CONCURRENT_SESSIONS then EndLogin(st, l)
    else st.(logins := st.logins[l := Counted(login.account, login.start)])
  }

  function AfterLock(st: State, l: LoginId): State
    requires l in st.logins
  {
    var login := st.logins[l];
    st.(logins := st.logins[l := Locked(login.account, login.start)], rowLocks := st.rowLocks[login.account := l])
  }

  function Revoked(sessions: Table, a: AccountId, k: SessionId): Table {
    if k in sessions && sessions[k].account == a then sessions[k := sessions[k].(revoked := true)] else sessions
  }

  function AllRevoked(sessions: Table, a: AccountId): Table {
    map k | k in sessions :: if sessions[k].account == a then sessions[k].(revoked := true) else sessions[k]
  }

  function Next(st: State, step: Step): State {
    match step
    case Tick(d) => st.(clock := st.clock + d)
    case Begin(l, a) => st.(logins := st.logins[l := Begun(a, st.clock)])
    case Lock(l) => if l in st.logins then AfterLock(st, l) else st
    case Count(l) => if l in st.logins then AfterCount(st, l) else st
    case Commit(l, k) => if l in st.logins then Committed(st, l, k) else st
    case Verify(k) =>
      if k in st.sessions && Eligible(st.sessions[k], st.clock)
      then st.(sessions := Touched(st.sessions, k, st.clock)) else st
    case Select(v, k) =>
      if k in st.sessions && Eligible(st.sessions[k], st.clock) then st.(verifies := st.verifies[v := k]) else st
    case Touch(v) =>
      if v in st.verifies
      then st.(sessions := Touched(st.sessions, st.verifies[v], st.clock), verifies := st.verifies - {v}) else st
    case Revoke(a, k) => st.(sessions := Revoked(st.sessions, a, k))
    case RevokeAll(a) => st.(sessions := AllRevoked(st.sessions, a))
  }

  ghost predicate Runs(st: State, steps: seq<Step>)
    decreases steps
  {
    steps != [] ==> Enabled(st, steps[0]) && Runs(Next(st, steps[0]), steps[1..])
  }

  function Final(st: State, steps: seq<Step>): State
    decreases steps
  {
    if steps == [] then st else Final(Next(st, steps[0]), steps[1..])
  }

  // ---- once ineligible, always ineligible ----

  /** The touch of a split verify lands on a session whose idle window closed after the select. */
  predicate TouchesIdle(st: State, step: Step, k: SessionId) {
    step.Touch? && step.verify in st.verifies && st.verifies[step.verify] == k && k in st.sessions &&
    !st.sessions[k].revoked && st.sessions[k].absoluteExpires > st.clock &&
    st.sessions[k].lastUsed + IDLE_TIMEOUT <= st.clock
  }

  /** A known session comes back to life in one step exactly when a late touch does it. */
  lemma RevivesExactlyOnIdleTouch(st: State, step: Step, k: SessionId)
    requires Enabled(st, step) && k in st.sessions && !Eligible(st.sessions[k], st.clock)
    ensures k in Next(st, step).sessions
    ensures Eligible(Next(st, step).sessions[k], Next(st, step).clock) <==> TouchesIdle(st, step, k)
  {
  }

  predicate Splits(step: Step) {
    step.Select? || step.Touch?
  }

  ghost predicate Timely(st: State, step: Step) {
    forall k :: !TouchesIdle(st, step, k)
  }

  /** No touch of the run comes after its session went idle. */
  ghost predicate AllTimely(st: State, steps: seq<Step>)
    decreases steps
  {
    steps != [] ==> Timely(st, steps[0]) && AllTimely(Next(st, steps[0]), steps[1..])
  }

  /** A verification that reads and touches at one moment is always in time. */
  lemma {:induction false} AtomicIsTimely(st: State, steps: seq<Step>)
    requires forall i :: 0 <= i < |steps| ==> !Splits(steps[i])
    ensures AllTimely(st, steps)
    decreases steps
  {
    hide Next;
    if steps != [] {
      assert !Splits(steps[0]);
      AtomicIsTimely(Next(st, steps[0]), steps[1..]);
    }
  }

  /** Along any run without a late touch, a session that stopped counting never counts again. */
  lemma {:induction false} IneligibleForever(st: State, steps: seq<Step>, k: SessionId)
    requires Runs(st, steps) && AllTimely(st, steps)
    requires k in st.sessions && !Eligible(st.sessions[k], st.clock)
    ensures k in Final(st, steps).sessions && !Eligible(Final(st, steps).sessions[k], Final(st, steps).clock)
    decreases steps
  {
    if steps != [] {
      RevivesExactlyOnIdleTouch(st, steps[0], k);
      assert !TouchesIdle(st, steps[0], k);
      hide Next, Enabled, Timely;
      IneligibleForever(Next(st, steps[0]), steps[1..], k);
    }
  }

  // ---- how long a session lasts ----

  /** A revoked session counts at no time, whatever its dates say. */
  ghost predicate Dead(sessions: Table, k: SessionId) {
    k in sessions && forall t :: !Eligible(sessions[k], t)
  }

  /** Revoking a session of the account ends it and leaves every other row as it was; another's is not touched. */
  lemma RevokingEnds(st: State, a: AccountId, k: SessionId)
    ensures var next := Next(st, Revoke(a, k)).sessions;
            && (k in st.sessions && st.sessions[k].account == a ==> Dead(next, k))
            && (forall l :: l in next <==> l in st.sessions)
            && (forall l :: l in next && (l != k || st.sessions[l].account != a) ==> next[l] == st.sessions[l])
  {
  }

  /** Revoking all of them ends every session of the account and no other. */
  lemma RevokingAllEnds(st: State, a: AccountId)
    ensures var next := Next(st, RevokeAll(a)).sessions;
            && (forall l :: l in next <==> l in st.sessions)
            && (forall l :: l in next && st.sessions[l].account == a ==> Dead(next, l))
            && (forall l :: l in next && st.sessions[l].account != a ==> next[l] == st.sessions[l])
  {
  }

  lemma DeadStays(st: State, step: Step, k: SessionId)
    requires Enabled(st, step) && k in st.sessions && st.sessions[k].revoked
    ensures k in Next(st, step).sessions && Next(st, step).sessions[k].revoked
  {
  }

  /** Dead is revoked: a row that is not counts at some time. */
  lemma DeadIsRevoked(sessions: Table, k: SessionId)
    requires k in sessions
    ensures Dead(sessions, k) <==> sessions[k].revoked
  {
    if !sessions[k].revoked {
      var row := sessions[k];
      var t := (if row.absoluteExpires < row.lastUsed + IDLE_TIMEOUT
                then row.absoluteExpires else row.lastUsed + IDLE_TIMEOUT) - 1.0;
      assert Eligible(row, t);
    }
  }

  /** A revoked session never counts again, along any run, late touches included: no verification finds it. */
  lemma {:induction false} RevokedForever(st: State, steps: seq<Step>, k: SessionId)
    requires Runs(st, steps) && Dead(st.sessions, k)
    ensures Dead(Final(st, steps).sessions, k)
    decreases steps
  {
    hide Enabled, Next, Eligible;
    DeadIsRevoked(st.sessions, k);
    if steps != [] {
      DeadStays(st, steps[0], k);
      DeadIsRevoked(Next(st, steps[0]).sessions, k);
      RevokedForever(Next(st, steps[0]), steps[1..], k);
    }
  }

  /** A row keeps its account and its last day. */
  lemma RowKeeps(st: State, step: Step, k: SessionId)
    requires Enabled(st, step) && k in st.sessions
    ensures k in Next(st, step).sessions
    ensures Next(st, step).sessions[k].account == st.sessions[k].account
    ensures Next(st, step).sessions[k].absoluteExpires == st.sessions[k].absoluteExpires
    ensures Next(st, step).clock >= st.clock
  {
  }

  /** No use extends a session past ninety days from the beginning of the login that made it. */
  lemma {:induction false} NeverPastNinetyDays(st: State, steps: seq<Step>, l: LoginId, k: SessionId)
    requires l in st.logins && Enabled(st, Commit(l, k)) && Runs(Next(st, Commit(l, k)), steps)
    ensures var last := Final(Next(st, Commit(l, k)), steps);
            && k in last.sessions && last.sessions[k].account == st.logins[l].account
            && (last.clock >= st.logins[l].start + 7776000.0 ==> !Eligible(last.sessions[k], last.clock))
  {
    var next := Next(st, Commit(l, k));
    LastDayStays(next, steps, k);
    hide Runs, Final;
  }

  lemma {:induction false} LastDayStays(st: State, steps: seq<Step>, k: SessionId)
    requires Runs(st, steps) && k in st.sessions
    ensures k in Final(st, steps).sessions
    ensures Final(st, steps).sessions[k].account == st.sessions[k].account
    ensures Final(st, steps).sessions[k].absoluteExpires == st.sessions[k].absoluteExpires
    decreases steps
  {
    hide Enabled, Next;
    if steps != [] {
      RowKeeps(st, steps[0], k);
      LastDayStays(Next(st, steps[0]), steps[1..], k);
    }
  }

  /**
   A verification that finds the session keeps it for fourteen days, but for the five
   minutes within which it does not write, and for not a moment longer, unless it is
   revoked or its last day comes first.
   */
  lemma UseExtends(st: State, k: SessionId, later: Time)
    requires k in st.sessions && Eligible(st.sessions[k], st.clock) && later >= st.clock
    ensures var row := Next(st, Verify(k)).sessions[k];
            && (later < row.absoluteExpires && later < st.clock + 1209600.0 - 300.0 ==> Eligible(row, later))
            && (later >= st.clock + 1209600.0 && st.sessions[k].lastUsed <= st.clock ==> !Eligible(row, later))
            && (later >= row.absoluteExpires ==> !Eligible(row, later))
  {
  }

  /** A session just made counts until fourteen days without use have passed. */
  lemma FreshSessionLasts(st: State, l: LoginId, k: SessionId, t: Time)
    requires l in st.logins && Enabled(st, Commit(l, k)) && t >= st.logins[l].start
    ensures Eligible(Next(st, Commit(l, k)).sessions[k], t) <==> t < st.logins[l].start + 1209600.0
  {
  }

  // ---- at most four ----

  /** What a run without late touches keeps: the cap, and room for the one login past its count. */
  ghost predicate Capped(st: State) {
    && (forall a :: |EligibleOf(st.sessions, a, st.clock)| <= MAX_CONCURRENT_SESSIONS)
    && (forall l :: l in st.logins ==> LoginOk(st, l))
  }

  ghost predicate LoginOk(st: State, l: LoginId)
    requires l in st.logins
  {
    var login := st.logins[l];
    && login.start <= st.clock
    && (!login.Begun? ==> login.account in st.rowLocks && st.rowLocks[login.account] == l)
    && (login.Counted? ==> |EligibleOf(st.sessions, login.account, st.clock)| < MAX_CONCURRENT_SESSIONS)
  }

  /** Eligibility only shrinks as time passes, so a transaction's own clock never undercounts. */
  lemma EarlierCountsMore(sessions: Table, a: AccountId, start: Time, now: Time)
    requires start <= now
    ensures |EligibleOf(sessions, a, now)| <= |EligibleOf(sessions, a, start)|
  {
    SubsetNoLarger(EligibleOf(sessions, a, now), EligibleOf(sessions, a, start));
  }

  /** Every step in time but a commit can only take sessions out of the eligible set. */
  lemma OnlyCommitAdds(st: State, step: Step, a: AccountId)
    requires Enabled(st, step) && Timely(st, step) && !step.Commit?
    ensures |EligibleOf(Next(st, step).sessions, a, Next(st, step).clock)| <= |EligibleOf(st.sessions, a, st.clock)|
  {
    var next := Next(st, step);
    forall k | k in EligibleOf(next.sessions, a, next.clock)
      ensures k in EligibleOf(st.sessions, a, st.clock)
    {
      assert !TouchesIdle(st, step, k);
    }
    SubsetNoLarger(EligibleOf(next.sessions, a, next.clock), EligibleOf(st.sessions, a, st.clock));
  }

  lemma InsertAddsOne(sessions: Table, k: SessionId, row: Session, a: AccountId, now: Time)
    requires k !in sessions
    ensures |EligibleOf(sessions[k := row], a, now)| <=
            |EligibleOf(sessions, a, now)| + (if a == row.account then 1 else 0)
  {
    if a == row.account {
      SubsetNoLarger(EligibleOf(sessions[k := row], a, now), EligibleOf(sessions, a, now) + {k});
    } else {
      SubsetNoLarger(EligibleOf(sessions[k := row], a, now), EligibleOf(sessions, a, now));
    }
  }

  lemma TouchAddsNone(sessions: Table, k: SessionId, a: AccountId, now: Time)
    requires k in sessions && Eligible(sessions[k], now)
    ensures |EligibleOf(Touched(sessions, k, now), a, now)| <= |EligibleOf(sessions, a, now)|
  {
    SubsetNoLarger(EligibleOf(Touched(sessions, k, now), a, now), EligibleOf(sessions, a, now));
  }

  lemma RevokeAddsNone(sessions: Table, owner: AccountId, k: SessionId, a: AccountId, now: Time)
    ensures |EligibleOf(Revoked(sessions, owner, k), a, now)| <= |EligibleOf(sessions, a, now)|
  {
    SubsetNoLarger(EligibleOf(Revoked(sessions, owner, k), a, now), EligibleOf(sessions, a, now));
  }

  lemma CommitAddsOne(st: State, l: LoginId, k: SessionId, a: AccountId)
    requires Enabled(st, Commit(l, k)) && l in st.logins
    ensures |EligibleOf(Committed(st, l, k).sessions, a, st.clock)| <=
            |EligibleOf(st.sessions, a, st.clock)| + (if a == st.logins[l].account then 1 else 0)
  {
    var login := st.logins[l];
    InsertAddsOne(st.sessions, k, Session(login.account, login.start, login.start + ABSOLUTE_LIFETIME, false), a,
        st.clock);
  }

  lemma CommitKeepsCap(st: State, l: LoginId, k: SessionId)
    requires Capped(st) && Enabled(st, Commit(l, k))
    ensures Capped(Committed(st, l, k))
  {
    hide EligibleOf;
    var next := Committed(st, l, k);
    assert LoginOk(st, l);
    forall a
      ensures |EligibleOf(next.sessions, a, next.clock)| <= MAX_CONCURRENT_SESSIONS
    {
      CommitAddsOne(st, l, k, a);
    }
    forall m | m in next.logins
      ensures LoginOk(next, m)
    {
      assert LoginOk(st, m);
      CommitAddsOne(st, l, k, st.logins[m].account);
    }
  }

  lemma StepKeepsCap(st: State, step: Step)
    requires Capped(st) && Enabled(st, step) && Timely(st, step)
    ensures Capped(Next(st, step))
  {
    hide EligibleOf;
    if step.Commit? {
      CommitKeepsCap(st, step.login, step.session);
    } else {
      var next := Next(st, step);
      forall a
        ensures |EligibleOf(next.sessions, a, next.clock)| <= MAX_CONCURRENT_SESSIONS
      {
        OnlyCommitAdds(st, step, a);
      }
      forall l | l in next.logins
        ensures LoginOk(next, l)
      {
        LoginStaysOk(st, step, l);
      }
    }
  }

  lemma LoginStaysOk(st: State, step: Step, l: LoginId)
    requires Capped(st) && Enabled(st, step) && Timely(st, step) && !step.Commit?
    requires l in Next(st, step).logins
    ensures LoginOk(Next(st, step), l)
  {
    hide EligibleOf;
    var next := Next(st, step);
    if l in st.logins {
      assert LoginOk(st, l);
      OnlyCommitAdds(st, step, st.logins[l].account);
      if step.Count? && step.login == l {
        EarlierCountsMore(st.sessions, st.logins[l].account, st.logins[l].start, st.clock);
      }
      if step.Count? || step.Lock? {
        assert LoginOk(st, step.login);
      }
    }
  }

  // ---- exactly when the cap holds ----

  function CountingNow(st: State, a: AccountId): nat {
    |EligibleOf(st.sessions, a, st.clock)|
  }

  /**
   The step adds a counting session of `a`: a commit whose row still counts, or a touch after
   the idle window closed.
   */
  predicate AddsCounting(st: State, step: Step, a: AccountId) {
    match step
    case Commit(l, _) =>
      l in st.logins && st.logins[l].account == a &&
      st.logins[l].start + ABSOLUTE_LIFETIME > st.clock && st.logins[l].start + IDLE_TIMEOUT > st.clock
    case Touch(v) =>
      v in st.verifies && TouchesIdle(st, step, st.verifies[v]) && st.sessions[st.verifies[v]].account == a
    case _ => false
  }

  /** It does so while four already count. */
  predicate Overfills(st: State, step: Step, a: AccountId) {
    AddsCounting(st, step, a) && CountingNow(st, a) >= MAX_CONCURRENT_SESSIONS
  }

  lemma OneLarger<T>(before: set<T>, after: set<T>, x: T)
    requires x !in before && after == before + {x}
    ensures |after| == |before| + 1
  {
  }

  lemma TouchedEligible(st: State, v: VerifyId, a: AccountId)
    requires v in st.verifies
    ensures |EligibleOf(Touched(st.sessions, st.verifies[v], st.clock), a, st.clock)| <=
            CountingNow(st, a) + (if AddsCounting(st, Touch(v), a) then 1 else 0)
    ensures AddsCounting(st, Touch(v), a) ==>
              |EligibleOf(Touched(st.sessions, st.verifies[v], st.clock), a, st.clock)| == CountingNow(st, a) + 1
  {
    var k := st.verifies[v];
    var before := EligibleOf(st.sessions, a, st.clock);
    var after := EligibleOf(Touched(st.sessions, k, st.clock), a, st.clock);
    if AddsCounting(st, Touch(v), a) {
      OneLarger(before, after, k);
    } else {
      SubsetNoLarger(after, before);
    }
  }

  lemma InsertedEligible(sessions: Table, k: SessionId, row: Session, a: AccountId, now: Time)
    requires k !in sessions
    ensures EligibleOf(sessions[k := row], a, now) ==
            EligibleOf(sessions, a, now) + (if row.account == a && Eligible(row, now) then {k} else {})
  {
  }

  lemma CommittedEligible(st: State, l: LoginId, k: SessionId, a: AccountId)
    requires Enabled(st, Commit(l, k))
    ensures |EligibleOf(Committed(st, l, k).sessions, a, st.clock)| ==
            CountingNow(st, a) + (if AddsCounting(st, Commit(l, k), a) then 1 else 0)
  {
    var login := st.logins[l];
    var row := Session(login.account, login.start, login.start + ABSOLUTE_LIFETIME, false);
    assert k !in EligibleOf(st.sessions, a, st.clock);
    InsertedEligible(st.sessions, k, row, a, st.clock);
    hide EligibleOf;
  }

  /** A step takes an account past four exactly when it adds a counting session to four. */
  lemma PassesFourExactlyWhen(st: State, step: Step, a: AccountId)
    requires Enabled(st, step) && CountingNow(st, a) <= MAX_CONCURRENT_SESSIONS
    ensures CountingNow(Next(st, step), a) > MAX_CONCURRENT_SESSIONS <==> Overfills(st, step, a)
  {
    if step.Commit? {
      CommittedEligible(st, step.login, step.session, a);
    } else if step.Touch? {
      TouchedEligible(st, step.verify, a);
    } else {
      OnlyCommitAdds(st, step, a);
    }
    hide EligibleOf;
  }

  /** At every moment of the run at most four sessions of `a` count. */
  ghost predicate CapThroughout(st: State, steps: seq<Step>, a: AccountId)
    decreases steps
  {
    CountingNow(st, a) <= MAX_CONCURRENT_SESSIONS && (steps != [] ==> CapThroughout(Next(st, steps[0]), steps[1..], a))
  }

  ghost predicate NeverOverfills(st: State, steps: seq<Step>, a: AccountId)
    decreases steps
  {
    steps != [] ==> !Overfills(st, steps[0], a) && NeverOverfills(Next(st, steps[0]), steps[1..], a)
  }

  lemma {:induction false} CapRunExactlyWhen(st: State, steps: seq<Step>, a: AccountId)
    requires Runs(st, steps) && CountingNow(st, a) <= MAX_CONCURRENT_SESSIONS
    ensures CapThroughout(st, steps, a) <==> NeverOverfills(st, steps, a)
    decreases steps
  {
    hide Enabled, Next, CountingNow, Overfills;
    if steps != [] {
      var next := Next(st, steps[0]);
      PassesFourExactlyWhen(st, steps[0], a);
      if CountingNow(next, a) <= MAX_CONCURRENT_SESSIONS {
        CapRunExactlyWhen(next, steps[1..], a);
      }
    }
  }

  /**
   For every run from an empty table, of logins interleaving around the row lock and
   verifications in one moment or two: no more than four sessions of `a` ever count
   exactly when no login commits a counting session, and no touch brings an idle one
   back, while four of them count.
   */
  lemma {:induction false} CapHoldsExactlyWhen(steps: seq<Step>, a: AccountId)
    requires Runs(START, steps)
    ensures CapThroughout(START, steps, a) <==> NeverOverfills(START, steps, a)
  {
    assert EligibleOf(START.sessions, a, START.clock) == {};
    CapRunExactlyWhen(START, steps, a);
  }

  lemma {:induction false} TimelyNeverOverfills(st: State, steps: seq<Step>, a: AccountId)
    requires Capped(st) && Runs(st, steps) && AllTimely(st, steps)
    ensures NeverOverfills(st, steps, a)
    ensures Capped(Final(st, steps))
    decreases steps
  {
    if steps != [] {
      StepKeepsCap(st, steps[0]);
      assert !Overfills(st, steps[0], a) by {
        if steps[0].Commit? {
          assert LoginOk(st, steps[0].login);
        }
      }
      hide Enabled, Next, Capped, Timely, Overfills;
      TimelyNeverOverfills(Next(st, steps[0]), steps[1..], a);
    }
  }

  /**
   The login's own count is enough: every run that breaks the cap, however long logins
   wait for the row lock, has a late touch. `AtomicIsTimely` covers
   every run whose verifications read and touch at one moment.
   */
  lemma {:induction false} AtMostFour(steps: seq<Step>, a: AccountId)
    requires Runs(START, steps)
    ensures CapThroughout(START, steps, a) || !AllTimely(START, steps)
    ensures |EligibleOf(Final(START, steps).sessions, a, Final(START, steps).clock)| <= MAX_CONCURRENT_SESSIONS ||
            !AllTimely(START, steps)
  {
    if AllTimely(START, steps) {
      assert forall b :: EligibleOf(START.sessions, b, START.clock) == {};
      TimelyNeverOverfills(START, steps, a);
      CapHoldsExactlyWhen(steps, a);
    }
  }

  // ---- a verification that takes time ----

  lemma {:induction false} RunsCompose(st: State, first: seq<Step>, second: seq<Step>)
    requires Runs(st, first) && Runs(Final(st, first), second)
    ensures Runs(st, first + second)
    ensures Final(st, first + second) == Final(Final(st, first), second)
    decreases first
  {
    hide Enabled, Next;
    if first == [] {
      assert first + second == second;
    } else {
      assert (first + second)[1..] == first[1..] + second;
      RunsCompose(Next(st, first[0]), first[1..], second);
    }
  }

  /** One more step at the end of a run. */
  lemma {:induction false} RunsOneMore(st: State, steps: seq<Step>, step: Step)
    requires Runs(st, steps) && Enabled(Final(st, steps), step)
    ensures Runs(st, steps + [step])
    ensures Final(st, steps + [step]) == Next(Final(st, steps), step)
  {
    hide Enabled, Next;
    RunsCompose(st, steps, [step]);
  }

  /** An undisturbed login of an account below the cap adds one session, stamped now. */
  lemma {:induction false} LoginSucceeds(st: State, steps: seq<Step>, a: AccountId, l: LoginId, k: SessionId)
    returns (more: seq<Step>)
    requires Runs(st, steps)
    requires l !in Final(st, steps).logins && a !in Final(st, steps).rowLocks && k !in Final(st, steps).sessions
    requires |EligibleOf(Final(st, steps).sessions, a, Final(st, steps).clock)| < MAX_CONCURRENT_SESSIONS
    ensures Runs(st, more)
    ensures var was := Final(st, steps);
            Final(st, more) == was.(sessions :=
              was.sessions[k := Session(a, was.clock, was.clock + ABSOLUTE_LIFETIME, false)])
  {
    hide EligibleOf, Runs, Final;
    var was := Final(st, steps);
    more := steps + [Begin(l, a)];
    RunsOneMore(st, steps, Begin(l, a));
    RunsOneMore(st, more, Lock(l));
    more := more + [Lock(l)];
    RunsOneMore(st, more, Count(l));
    more := more + [Count(l)];
    RunsOneMore(st, more, Commit(l, k));
    more := more + [Commit(l, k)];
    assert Final(st, more).logins == was.logins;
    assert Final(st, more).rowLocks == was.rowLocks;
  }

  const ALICE := AccountId(1)
  const STALE := VerifyId(1)
  const S1 := SessionId(1)
  const S2 := SessionId(2)
  const S3 := SessionId(3)
  const S4 := SessionId(4)
  const S5 := SessionId(5)

  /** A session of the counterexample, last used at `used`. */
  function Row(created: Time, used: Time): Session {
    Session(ALICE, used, created + ABSOLUTE_LIFETIME, false)
  }

  /** Logins one to four, undisturbed, at the start. */
  lemma {:induction false} FourLogins() returns (steps: seq<Step>)
    ensures Runs(START, steps)
    ensures Final(START, steps) ==
            START.(sessions := map[S1 := Row(0.0, 0.0), S2 := Row(0.0, 0.0), S3 := Row(0.0, 0.0), S4 := Row(0.0, 0.0)])
  {
    hide Runs, Final, EligibleOf;
    steps := [];
    assert Runs(START, []) && Final(START, []) == START by {
      NothingRuns(START);
    }
    EligibleWithin(map[], ALICE, 0.0);
    steps := LoginSucceeds(START, steps, ALICE, LoginId(1), S1);
    var one: Table := map[S1 := Row(0.0, 0.0)];
    assert Final(START, steps) == START.(sessions := one);
    EligibleWithin(one, ALICE, 0.0);
    steps := LoginSucceeds(START, steps, ALICE, LoginId(1), S2);
    var two := one[S2 := Row(0.0, 0.0)];
    EligibleWithin(two, ALICE, 0.0);
    steps := LoginSucceeds(START, steps, ALICE, LoginId(1), S3);
    var three := two[S3 := Row(0.0, 0.0)];
    EligibleWithin(three, ALICE, 0.0);
    steps := LoginSucceeds(START, steps, ALICE, LoginId(1), S4);
  }

  lemma NothingRuns(st: State)
    ensures Runs(st, []) && Final(st, []) == st
  {
  }

  lemma EligibleWithin(sessions: Table, a: AccountId, now: Time)
    ensures |EligibleOf(sessions, a, now)| <= |sessions.Keys|
  {
    SubsetNoLarger(EligibleOf(sessions, a, now), sessions.Keys);
  }

  const DORMANT: Table :=
    map[S1 := Row(0.0, 0.0), S2 := Row(0.0, 13.0 * DAY), S3 := Row(0.0, 13.0 * DAY), S4 := Row(0.0, 13.0 * DAY)]

  /**
   Thirteen days on three sessions are used; the other is selected a second before it goes
   idle, and a second passes.
   */
  lemma {:induction false} OneGoesIdle() returns (steps: seq<Step>)
    ensures Runs(START, steps)
    ensures Final(START, steps) == State(14.0 * DAY, DORMANT, map[], map[], map[STALE := S1])
  {
    hide Runs, Final, EligibleOf;
    steps := FourLogins();
    RunsOneMore(START, steps, Tick(13.0 * DAY));
    steps := steps + [Tick(13.0 * DAY)];
    RunsOneMore(START, steps, Verify(S2));
    steps := steps + [Verify(S2)];
    RunsOneMore(START, steps, Verify(S3));
    steps := steps + [Verify(S3)];
    RunsOneMore(START, steps, Verify(S4));
    steps := steps + [Verify(S4)];
    assert Final(START, steps) == State(13.0 * DAY, DORMANT, map[], map[], map[]);
    RunsOneMore(START, steps, Tick(DAY - 1.0));
    steps := steps + [Tick(DAY - 1.0)];
    RunsOneMore(START, steps, Select(STALE, S1));
    steps := steps + [Select(STALE, S1)];
    RunsOneMore(START, steps, Tick(1.0));
    steps := steps + [Tick(1.0)];
  }

  const REVIVED: Table := DORMANT[S5 := Row(14.0 * DAY, 14.0 * DAY)][S1 := Row(0.0, 14.0 * DAY)]

  lemma OneOfFourIsIdle()
    ensures |EligibleOf(DORMANT, ALICE, 14.0 * DAY)| < MAX_CONCURRENT_SESSIONS
  {
    SubsetNoLarger(EligibleOf(DORMANT, ALICE, 14.0 * DAY), {S2, S3, S4});
  }

  lemma FiveCount()
    ensures |EligibleOf(REVIVED, ALICE, 14.0 * DAY)| == MAX_CONCURRENT_SESSIONS + 1
  {
    assert EligibleOf(REVIVED, ALICE, 14.0 * DAY) == {S1, S2, S3, S4, S5};
  }

  /**
   With a second between select and touch the cap can fail: a login takes the place of a
   session that went idle during the pause, and the touch then brings that one back.
   */
  lemma {:induction false} SplitVerifyBreaksCap() returns (steps: seq<Step>)
    ensures Runs(START, steps)
    ensures |EligibleOf(Final(START, steps).sessions, ALICE, Final(START, steps).clock)| == MAX_CONCURRENT_SESSIONS + 1
  {
    hide Runs, Final, EligibleOf;
    steps := OneGoesIdle();
    OneOfFourIsIdle();
    steps := LoginSucceeds(START, steps, ALICE, LoginId(1), S5);
    RunsOneMore(START, steps, Touch(STALE));
    steps := steps + [Touch(STALE)];
    assert Final(START, steps).sessions == REVIVED;
    FiveCount();
  }
}
