/**
 The per-account login throttle: first with each login in one go, then one statement at
 a time. A login reads the lock, verifies the password, which takes long, decides, and
 records the outcome in one update; any statement of another login may come in between.
 */
module Lockout {
  import opened Common

  const LOCKOUT_THRESHOLD := 5
  const LOCKOUT: Time := 900.0

  /** The two columns of the account row. */
  datatype Throttle = Throttle(failed: int, lockedUntil: Option<Time>)

  const FRESH := Throttle(0, None)

  datatype Attempt = Attempt(at: Time, passwordMatches: bool)

  predicate IsLocked(row: Throttle, now: Time) {
    row.lockedUntil.Some? && row.lockedUntil.value > now
  }

  predicate Passes(row: Throttle, attempt: Attempt) {
    attempt.passwordMatches && !IsLocked(row, attempt.at)
  }

  /** The row after the attempt: reset on a pass, counted and perhaps locked on anything else. */
  function After(row: Throttle, attempt: Attempt): Throttle {
    if Passes(row, attempt) then FRESH
    else
      Throttle(row.failed + 1,
               if row.failed + 1 >= LOCKOUT_THRESHOLD then Some(attempt.at + LOCKOUT) else row.lockedUntil)
  }

  function AfterAll(attempts: seq<Attempt>): Throttle {
    if attempts == [] then FRESH else After(AfterAll(attempts[..|attempts| - 1]), attempts[|attempts| - 1])
  }

  /** What the caller saw: which attempts got in. */
  function Outcomes(attempts: seq<Attempt>): (outcomes: seq<bool>)
    ensures |outcomes| == |attempts|
  {
    if attempts == [] then []
    else
      var earlier, last := attempts[..|attempts| - 1], attempts[|attempts| - 1];
      Outcomes(earlier) + [Passes(AfterAll(earlier), last)]
  }

  /** Failures since the last success. */
  function Streak(outcomes: seq<bool>): nat {
    if outcomes == [] || outcomes[|outcomes| - 1] then 0 else Streak(outcomes[..|outcomes| - 1]) + 1
  }

  lemma {:induction false} OutcomesOfPrefix(attempts: seq<Attempt>, n: nat)
    requires n <= |attempts|
    ensures Outcomes(attempts)[..n] == Outcomes(attempts[..n])
    decreases |attempts|
  {
    if n == |attempts| {
      assert attempts[..n] == attempts;
    } else {
      var earlier := attempts[..|attempts| - 1];
      OutcomesOfPrefix(earlier, n);
      assert earlier[..n] == attempts[..n];
      assert Outcomes(attempts)[..n] == Outcomes(earlier)[..n];
    }
  }

  /** The columns in terms of what the caller saw. */
  lemma {:induction false} RowCountsStreak(attempts: seq<Attempt>)
    ensures AfterAll(attempts).failed == Streak(Outcomes(attempts))
    ensures AfterAll(attempts).lockedUntil ==
            if Streak(Outcomes(attempts)) >= LOCKOUT_THRESHOLD then Some(attempts[|attempts| - 1].at + LOCKOUT)
            else None
  {
    if attempts != [] {
      var earlier := attempts[..|attempts| - 1];
      RowCountsStreak(earlier);
      assert Outcomes(attempts)[..|attempts| - 1] == Outcomes(earlier);
    }
  }

  /**
   An attempt gets in exactly when the password matches and it is not one that comes
   within fifteen minutes of the previous one after five failures in a row. Nothing
   but what the caller itself did and saw decides it.
   */
  lemma {:induction false} GetsInExactlyWhen(attempts: seq<Attempt>, i: nat)
    requires i < |attempts|
    ensures Outcomes(attempts)[i] <==>
              attempts[i].passwordMatches &&
              !(Streak(Outcomes(attempts)[..i]) >= LOCKOUT_THRESHOLD &&
                attempts[i].at < attempts[i - 1].at + LOCKOUT)
  {
    RowCountsStreak(attempts[..i]);
    OutcomesOfPrefix(attempts, i);
    OutcomesOfPrefix(attempts, i + 1);
    assert attempts[..i + 1][..i] == attempts[..i];
    assert Outcomes(attempts)[i] == Outcomes(attempts)[..i + 1][i];
  }

  /** Guessing on without a pause never gets in again, right password or not. */
  lemma {:induction false} NoPauseNoEntry(attempts: seq<Attempt>, from: nat, i: nat)
    requires from <= i < |attempts|
    requires Streak(Outcomes(attempts)[..from]) >= LOCKOUT_THRESHOLD
    requires forall n {:trigger attempts[n]} :: from <= n <= i ==> attempts[n].at < attempts[n - 1].at + LOCKOUT
    ensures !Outcomes(attempts)[i]
    ensures Streak(Outcomes(attempts)[..i]) >= LOCKOUT_THRESHOLD
    decreases i
  {
    if i > from {
      NoPauseNoEntry(attempts, from, i - 1);
      assert Outcomes(attempts)[..i][..i - 1] == Outcomes(attempts)[..i - 1];
    }
    GetsInExactlyWhen(attempts, i);
  }

  /** After five wrong passwords in a row the right one is refused for fifteen minutes, after four it is not. */
  lemma {:induction false} FiveWrongLockOut(wrong: seq<Attempt>, right: Attempt)
    requires right.passwordMatches && forall i :: 0 <= i < |wrong| ==> !wrong[i].passwordMatches
    ensures Outcomes(wrong + [right])[|wrong|] <==>
              |wrong| < 5 || wrong[|wrong| - 1].at + 900.0 <= right.at
  {
    var attempts := wrong + [right];
    AllWrongStreak(wrong);
    assert attempts[..|wrong|] == wrong;
    OutcomesOfPrefix(attempts, |wrong|);
    GetsInExactlyWhen(attempts, |wrong|);
  }

  lemma {:induction false} AllWrongStreak(wrong: seq<Attempt>)
    requires forall i :: 0 <= i < |wrong| ==> !wrong[i].passwordMatches
    ensures Streak(Outcomes(wrong)) == |wrong|
  {
    if wrong != [] {
      var earlier := wrong[..|wrong| - 1];
      AllWrongStreak(earlier);
      assert Outcomes(wrong)[..|wrong| - 1] == Outcomes(earlier);
    }
  }

  // ---- one statement at a time ----

  datatype LoginId = LoginId(number: int)

  /** What a login does next; `read` is how many outcomes were recorded when it read the lock. */
  datatype Pc =
    | Decides(passwordMatches: bool, seen: Option<Time>, read: nat)
    | Records(passed: bool)

  datatype Entry = Entry(at: Time, passed: bool)

  datatype State = State(row: Throttle, logins: map<LoginId, Pc>, log: seq<Entry>)

  const START := State(FRESH, map[], [])

  datatype Step =
    | Read(login: LoginId, passwordMatches: bool)
    | Decide(login: LoginId)
    | Record(login: LoginId)

  datatype Moment = Moment(at: Time, step: Step)

  predicate Enabled(st: State, step: Step) {
    match step
    case Read(l, _) => l !in st.logins
    case Decide(l) => l in st.logins && st.logins[l].Decides?
    case Record(l) => l in st.logins && st.logins[l].Records?
  }

  /** The update, on the row as it is then. */
  function Recorded(row: Throttle, now: Time, passed: bool): Throttle {
    if passed then FRESH
    else Throttle(row.failed + 1, if row.failed + 1 >= LOCKOUT_THRESHOLD then Some(now + LOCKOUT) else row.lockedUntil)
  }

  predicate Lets(pc: Pc, now: Time)
    requires pc.Decides?
  {
    pc.passwordMatches && !(pc.seen.Some? && pc.seen.value > now)
  }

  function Next(st: State, now: Time, step: Step): State {
    match step
    case Read(l, matches) => st.(logins := st.logins[l := Decides(matches, st.row.lockedUntil, |st.log|)])
    case Decide(l) =>
      if l in st.logins && st.logins[l].Decides? then st.(logins := st.logins[l := Records(Lets(st.logins[l], now))])
      else st
    case Record(l) =>
      if l in st.logins && st.logins[l].Records? then
        State(Recorded(st.row, now, st.logins[l].passed), st.logins - {l}, st.log + [Entry(now, st.logins[l].passed)])
      else st
  }

  /** A login none of whose statements is overtaken is the one step above. */
  lemma InOneGo(st: State, l: LoginId, attempt: Attempt)
    requires l !in st.logins
    ensures var read := Next(st, attempt.at, Read(l, attempt.passwordMatches));
            var decided := Next(read, attempt.at, Decide(l));
            var last := Next(decided, attempt.at, Record(l));
            last.row == After(st.row, attempt) && last.logins == st.logins &&
            last.log == st.log + [Entry(attempt.at, Passes(st.row, attempt))]
  {
    var read := Next(st, attempt.at, Read(l, attempt.passwordMatches));
    var decided := Next(read, attempt.at, Decide(l));
    assert decided.logins[l] == Records(Passes(st.row, attempt));
    assert decided.logins - {l} == st.logins;
  }

  ghost predicate Runs(st: State, moments: seq<Moment>)
    decreases moments
  {
    moments != [] ==>
      Enabled(st, moments[0].step) && Runs(Next(st, moments[0].at, moments[0].step), moments[1..])
  }

  function Final(st: State, moments: seq<Moment>): State
    decreases moments
  {
    if moments == [] then st else Final(Next(st, moments[0].at, moments[0].step), moments[1..])
  }

  /** Failures recorded since the last recorded success. */
  function Failures(log: seq<Entry>): nat {
    if log == [] || log[|log| - 1].passed then 0 else Failures(log[..|log| - 1]) + 1
  }

  /** The lock that the recorded outcomes call for: fifteen minutes from the last of five or more failures. */
  function LockOf(log: seq<Entry>): Option<Time> {
    if Failures(log) >= LOCKOUT_THRESHOLD then Some(log[|log| - 1].at + LOCKOUT) else None
  }

  /** The row says what was recorded, and every login in flight holds the lock as of its read. */
  ghost predicate InStep(st: State) {
    && st.row == Throttle(Failures(st.log), LockOf(st.log))
    && forall l :: l in st.logins && st.logins[l].Decides? ==>
         st.logins[l].read <= |st.log| && st.logins[l].seen == LockOf(st.log[..st.logins[l].read])
  }

  lemma {:induction false} FailuresOneMore(log: seq<Entry>, entry: Entry)
    ensures Failures(log + [entry]) == if entry.passed then 0 else Failures(log) + 1
    ensures Recorded(Throttle(Failures(log), LockOf(log)), entry.at, entry.passed) ==
            Throttle(Failures(log + [entry]), LockOf(log + [entry]))
  {
    var more := log + [entry];
    assert more[..|log|] == log && more[|more| - 1] == entry;
  }

  lemma {:induction false} StepKeeps(st: State, now: Time, step: Step)
    requires InStep(st)
    ensures InStep(Next(st, now, step))
  {
    hide Failures, LockOf, Recorded;
    var next := Next(st, now, step);
    assert st.log[..|st.log|] == st.log;
    if step.Record? && step.login in st.logins && st.logins[step.login].Records? {
      FailuresOneMore(st.log, Entry(now, st.logins[step.login].passed));
    }
    forall l | l in next.logins && next.logins[l].Decides?
      ensures next.logins[l].read <= |next.log| && next.logins[l].seen == LockOf(next.log[..next.logins[l].read])
    {
      if l in st.logins && st.logins[l] == next.logins[l] {
        assert next.log[..next.logins[l].read] == st.log[..next.logins[l].read];
      }
    }
  }

  lemma {:induction false} RunKeeps(st: State, moments: seq<Moment>)
    requires InStep(st)
    ensures InStep(Final(st, moments))
    decreases moments
  {
    hide InStep, Next;
    if moments != [] {
      StepKeeps(st, moments[0].at, moments[0].step);
      RunKeeps(Next(st, moments[0].at, moments[0].step), moments[1..]);
    }
  }

  /**
   However logins overlap, the columns are the failures recorded since the last success and
   the lock they call for.
   */
  lemma {:induction false} RowCountsRecorded(moments: seq<Moment>)
    ensures var st := Final(START, moments); st.row == Throttle(Failures(st.log), LockOf(st.log))
  {
    RunKeeps(START, moments);
  }

  /** A lock is in force at `now` after these outcomes. */
  predicate LockedAfter(log: seq<Entry>, now: Time) {
    LockOf(log).Some? && LockOf(log).value > now
  }

  /**
   However logins overlap, one gets in exactly when the password matches and no lock is
   in force by the outcomes recorded before its read.
   */
  lemma {:induction false} DecidesByItsRead(moments: seq<Moment>, l: LoginId, now: Time)
    requires var st := Final(START, moments); l in st.logins && st.logins[l].Decides?
    ensures var st := Final(START, moments);
            var pc := st.logins[l];
            pc.read <= |st.log| &&
            (Next(st, now, Decide(l)).logins[l] == Records(true) <==>
               pc.passwordMatches && !LockedAfter(st.log[..pc.read], now))
  {
    RunKeeps(START, moments);
    hide Failures, LockOf, Final;
  }

  /** The login gets in although the account is locked by then. */
  predicate PassesLock(st: State, now: Time, step: Step) {
    step.Decide? && step.login in st.logins && st.logins[step.login].Decides? &&
    Lets(st.logins[step.login], now) && IsLocked(st.row, now)
  }

  /**
   A lock is meant to stop every login. In a run it lets one pass exactly when the
   password matches, the outcomes recorded since its read put the lock in force, and
   those before it did not: the login overtakes the failure that locks.
   */
  lemma {:induction false} PassesLockExactlyWhen(moments: seq<Moment>, now: Time, step: Step)
    requires Enabled(Final(START, moments), step)
    ensures var st := Final(START, moments);
            PassesLock(st, now, step) <==>
              step.Decide? &&
              var pc := st.logins[step.login];
              pc.passwordMatches && pc.read < |st.log| &&
              !LockedAfter(st.log[..pc.read], now) && LockedAfter(st.log, now)
  {
    RunKeeps(START, moments);
    hide Failures, LockOf, Final;
    var st := Final(START, moments);
    assert st.log[..|st.log|] == st.log;
  }

  // ---- where it fails ----

  const RIGHT := LoginId(0)

  /** A wrong password, in one go. */
  function WrongGuess(n: nat): seq<Moment> {
    [Moment(0.0, Read(LoginId(n), false)), Moment(0.0, Decide(LoginId(n))), Moment(0.0, Record(LoginId(n)))]
  }

  /** A login with the right password reads the lock; `k` wrong guesses follow. */
  function ReadThenGuesses(k: nat): seq<Moment> {
    if k == 0 then [Moment(0.0, Read(RIGHT, true))] else ReadThenGuesses(k - 1) + WrongGuess(k)
  }

  function Fails(k: nat): (log: seq<Entry>)
    ensures |log| == k
  {
    if k == 0 then [] else Fails(k - 1) + [Entry(0.0, false)]
  }

  function AfterGuesses(k: nat): State {
    State(Throttle(k, if k >= LOCKOUT_THRESHOLD then Some(LOCKOUT) else None), map[RIGHT := Decides(true, None, 0)],
        Fails(k))
  }

  lemma {:induction false} RunsCompose(st: State, first: seq<Moment>, second: seq<Moment>)
    requires Runs(st, first) && Runs(Final(st, first), second)
    ensures Runs(st, first + second) && Final(st, first + second) == Final(Final(st, first), second)
    decreases first
  {
    hide Enabled, Next;
    if first == [] {
      assert first + second == second;
    } else {
      RunsCompose(Next(st, first[0].at, first[0].step), first[1..], second);
      assert (first + second)[1..] == first[1..] + second;
    }
  }

  lemma {:induction false} OneGuess(k: nat)
    requires k > 0
    ensures Runs(AfterGuesses(k - 1), WrongGuess(k)) && Final(AfterGuesses(k - 1), WrongGuess(k)) == AfterGuesses(k)
  {
    var st := AfterGuesses(k - 1);
    var moments := WrongGuess(k);
    InOneGo(st, LoginId(k), Attempt(0.0, false));
    var read := Next(st, 0.0, Read(LoginId(k), false));
    var decided := Next(read, 0.0, Decide(LoginId(k)));
    var last := Next(decided, 0.0, Record(LoginId(k)));
    assert moments[1..][1..] == [moments[2]];
    assert Runs(last, []) && Final(last, []) == last;
    assert Runs(decided, [moments[2]]) && Final(decided, [moments[2]]) == last;
    assert Runs(read, moments[1..]) && Final(read, moments[1..]) == last;
  }

  lemma {:induction false} GuessesRun(k: nat)
    ensures Runs(START, ReadThenGuesses(k)) && Final(START, ReadThenGuesses(k)) == AfterGuesses(k)
    decreases k
  {
    if k > 0 {
      GuessesRun(k - 1);
      OneGuess(k);
      hide Runs, Final, AfterGuesses, WrongGuess;
      RunsCompose(START, ReadThenGuesses(k - 1), WrongGuess(k));
    }
  }

  /** It gets in under the lock that the five wrong guesses brought about, and lifts it. */
  lemma {:induction false} OvertakingLoginPassesLock()
    ensures var moments := ReadThenGuesses(LOCKOUT_THRESHOLD);
            var st := Final(START, moments);
            && Runs(START, moments)
            && PassesLock(st, 0.0, Decide(RIGHT))
            && Next(Next(st, 0.0, Decide(RIGHT)), 0.0, Record(RIGHT)).row == FRESH
  {
    GuessesRun(LOCKOUT_THRESHOLD);
    hide ReadThenGuesses, Runs, Final, Fails;
  }
}
