/**
 The auth service: its tables are fields it changes in place, statement by statement.
 Each method is one transaction, proved against the step of the same name in
 `Lockout`, `Sessions` or `Registration`; `Valid` is what those runs keep.
 */
module Auth {
  import opened Common
  import Lockout
  import Registration
  import Sessions

  datatype LoginError = InvalidCredentials | SessionLimitReached

  datatype LoginResult = LoggedIn(session: Sessions.SessionId) | Refused(error: LoginError)

  class AuthService {
    var throttles: map<AccountId, Lockout.Throttle>
    var sessions: Sessions.Table
    var pending: map<Registration.Email, Registration.Pending>
    var accounts: map<Registration.Email, Registration.Username>
    ghost var log: seq<Registration.Event>
    ghost var clock: Time // when the last call ran

    ghost function Registrations(): Registration.State
      reads this
    {
      Registration.State(pending, accounts, map[], log)
    }

    ghost predicate Valid()
      reads this
    {
      && (forall a :: |Sessions.EligibleOf(sessions, a, clock)| <= Sessions.MAX_CONCURRENT_SESSIONS)
      && Registration.LedgerOk(Registrations(), clock)
      && Registration.Settled(Registrations())
    }

    constructor ()
      ensures Valid() && throttles == map[] && sessions == map[] && Registrations() == Registration.START
    {
      throttles, sessions, pending, accounts := map[], map[], map[], map[];
      log, clock := [], 0.0;
      new;
      assert forall a :: Sessions.EligibleOf(map[], a, 0.0) == {};
      Registration.StartLedger();
    }

    /** The clock moves; nothing else does. */
    lemma TimePasses(now: Time)
      requires Valid() && clock <= now
      ensures forall a :: |Sessions.EligibleOf(sessions, a, now)| <= Sessions.MAX_CONCURRENT_SESSIONS
      ensures Registration.LedgerOk(Registrations(), clock) && Registration.LedgerOk(Registrations(), now)
    {
      forall a
        ensures |Sessions.EligibleOf(sessions, a, now)| <= Sessions.MAX_CONCURRENT_SESSIONS
      {
        Sessions.EarlierCountsMore(sessions, a, clock, now);
      }
      Registration.LedgerAges(Registrations(), clock, now);
    }

    /**
     `account` is the one the email names, if any. The throttle is updated first and
     stays updated when the session limit then refuses the login.
     */
    method Login(now: Time, account: Option<AccountId>, passwordMatches: bool, id: Sessions.SessionId)
      returns (result: LoginResult)
      requires Valid() && clock <= now && id !in sessions
      requires account.Some? ==> account.value in throttles
      modifies this`throttles, this`sessions, this`clock
      ensures Valid() && clock == now
      ensures account.None? ==>
                throttles == old(throttles) && sessions == old(sessions) && result == Refused(InvalidCredentials)
      ensures account.Some? ==>
                var a := account.value;
                var row := old(throttles)[a];
                var attempt := Lockout.Attempt(now, passwordMatches);
                && throttles == old(throttles)[a := Lockout.After(row, attempt)]
                && (!Lockout.Passes(row, attempt) ==>
                      sessions == old(sessions) && result == Refused(InvalidCredentials))
                && (Lockout.Passes(row, attempt) ==>
                      if |Sessions.EligibleOf(old(sessions), a, now)| >= Sessions.MAX_CONCURRENT_SESSIONS
                      then sessions == old(sessions) && result == Refused(SessionLimitReached)
                      else result == LoggedIn(id) &&
                           sessions == old(sessions)[
                             id := Sessions.Session(a, now, now + Sessions.ABSOLUTE_LIFETIME, false)])
    {
      hide Registration.LedgerOk, Registration.Settled, Sessions.EligibleOf;
      TimePasses(now);
      clock := now;
      if account.None? {
        return Refused(InvalidCredentials);
      }
      var a := account.value;
      var row := throttles[a];
      var isLocked := row.lockedUntil.Some? && row.lockedUntil.value > now;
      if !passwordMatches || isLocked {
        var failed := row.failed + 1;
        if failed >= Lockout.LOCKOUT_THRESHOLD {
          row := row.(lockedUntil := Some(now + Lockout.LOCKOUT));
        }
        throttles := throttles[a := row.(failed := failed)];
        return Refused(InvalidCredentials);
      }
      throttles := throttles[a := Lockout.Throttle(0, None)];
      var active := |Sessions.EligibleOf(sessions, a, now)|;
      if active >= Sessions.MAX_CONCURRENT_SESSIONS {
        return Refused(SessionLimitReached);
      }
      var session := Sessions.Session(a, now, now + Sessions.ABSOLUTE_LIFETIME, false);
      ghost var next := sessions[id := session];
      forall b
        ensures |Sessions.EligibleOf(next, b, now)| <= Sessions.MAX_CONCURRENT_SESSIONS
      {
        Sessions.InsertAddsOne(sessions, id, session, b, now);
      }
      sessions := sessions[id := session];
      return LoggedIn(id);
    }

    /** The session's account if it still counts; slides its idle window when the last use is stale. */
    method VerifySession(now: Time, id: Sessions.SessionId) returns (account: Option<AccountId>)
      requires Valid() && clock <= now
      modifies this`sessions, this`clock
      ensures Valid() && clock == now
      ensures account == if id in old(sessions) && Sessions.Eligible(old(sessions)[id], now)
                         then Some(old(sessions)[id].account) else None
      ensures account.None? ==> sessions == old(sessions)
      ensures account.Some? ==>
                var row := old(sessions)[id];
                sessions == old(sessions)[
                  id := row.(lastUsed := if row.lastUsed < now - 300.0 then now else row.lastUsed)]
    {
      hide Registration.LedgerOk, Registration.Settled, Sessions.EligibleOf;
      TimePasses(now);
      clock := now;
      if id !in sessions || !Sessions.Eligible(sessions[id], now) {
        return None;
      }
      account := Some(sessions[id].account);
      ghost var next := Sessions.Touched(sessions, id, now);
      forall b
        ensures |Sessions.EligibleOf(next, b, now)| <= Sessions.MAX_CONCURRENT_SESSIONS
      {
        Sessions.TouchAddsNone(sessions, id, b, now);
      }
      if sessions[id].lastUsed < now - Sessions.TOUCH_TOLERANCE {
        sessions := sessions[id := sessions[id].(lastUsed := now)];
      }
      assert sessions == next;
    }

    /** Scoped to the account's own rows; a second revocation finds nothing. */
    method RevokeSession(now: Time, a: AccountId, id: Sessions.SessionId) returns (found: bool)
      requires Valid() && clock <= now
      modifies this`sessions, this`clock
      ensures Valid() && clock == now
      ensures found <==> id in old(sessions) && old(sessions)[id].account == a && !old(sessions)[id].revoked
      ensures sessions.Keys == old(sessions).Keys
      ensures forall k :: k in sessions && !(found && k == id) ==> sessions[k] == old(sessions)[k]
      ensures id in sessions && sessions[id].account == a ==>
                sessions[id] == old(sessions)[id].(revoked := true) && !Sessions.Eligible(sessions[id], now)
    {
      hide Registration.LedgerOk, Registration.Settled, Sessions.EligibleOf;
      TimePasses(now);
      clock := now;
      ghost var next := Sessions.Revoked(sessions, a, id);
      forall b
        ensures |Sessions.EligibleOf(next, b, now)| <= Sessions.MAX_CONCURRENT_SESSIONS
      {
        Sessions.RevokeAddsNone(sessions, a, id, b, now);
      }
      found := id in sessions && sessions[id].account == a && !sessions[id].revoked;
      if found {
        sessions := sessions[id := sessions[id].(revoked := true)];
      }
      assert sessions == next;
    }

    /** Every session of the account ends; the others are as they were. */
    method RevokeAllSessions(now: Time, a: AccountId)
      requires Valid() && clock <= now
      modifies this`sessions, this`clock
      ensures Valid() && clock == now
      ensures sessions.Keys == old(sessions).Keys
      ensures forall k :: k in sessions && sessions[k].account == a ==>
                sessions[k] == old(sessions)[k].(revoked := true) && !Sessions.Eligible(sessions[k], now)
      ensures forall k :: k in sessions && sessions[k].account != a ==> sessions[k] == old(sessions)[k]
    {
      TimePasses(now);
      clock := now;
      ghost var before := sessions;
      sessions := map k | k in sessions ::
        if sessions[k].account == a then sessions[k].(revoked := true) else sessions[k];
      forall b
        ensures |Sessions.EligibleOf(sessions, b, now)| <= Sessions.MAX_CONCURRENT_SESSIONS
      {
        SubsetNoLarger(Sessions.EligibleOf(sessions, b, now), Sessions.EligibleOf(before, b, now));
      }
    }

    /** A call keeps what runs of registrations in one go keep. */
    lemma CallKeepsValid(now: Time, call: Registration.Call)
      requires Valid() && clock <= now && Registration.ClockOk(call, now)
      requires !call.StartRegister? && !call.StartResend?
      ensures Registration.LedgerOk(Registration.After(Registrations(), now, call).0, now)
      ensures Registration.Settled(Registration.After(Registrations(), now, call).0)
    {
      hide Registration.LedgerOk, Registration.Settled, Registration.After;
      Registration.CallKeepsLedger(Registrations(), clock, now, call);
      Registration.CallKeepsSettled(Registrations(), clock, now, call);
    }

    /**
     `delivered` is the mailer's answer; without it the transaction rolls back. The
     unique key on the name cannot fire here, the checks having just passed.
     */
    method Register(
      now: Time, e: Registration.Email, u: Registration.Username, code: Registration.Code, delivered: bool)
      returns (answer: Registration.Answer)
      requires Valid() && clock <= now
      modifies this`pending, this`log, this`clock
      ensures Valid() && clock == now
      ensures (Registrations(), answer) == Registration.AfterRegister(old(Registrations()), now, e, u, code, delivered)
    {
      hide Registration.LedgerOk, Registration.Settled, Sessions.EligibleOf;
      TimePasses(now);
      CallKeepsValid(now, Registration.Register(e, u, code, delivered));
      clock := now;
      if (exists k :: k in accounts && accounts[k] == u) ||
         (exists k :: k in pending && pending[k].username == u && pending[k].expires > now)
      {
        return Registration.UsernameTaken;
      }
      Registration.FreeNameIsUnreserved(Registrations(), e, u, now);
      if e in accounts {
        return Registration.Done;
      }
      if e in pending && pending[e].expires > now {
        return Registration.Done;
      }
      var recentlyMailed :=
        e in pending && pending[e].expires > now + Registration.CODE_TTL - Registration.RESEND_COOLDOWN;
      var rows := map k |
        k in pending && !(pending[k].expires <= now && (k == e || pending[k].username == u)) :: pending[k];
      rows := rows[e := Registration.Pending(u, code, 0, now + Registration.CODE_TTL)];
      if !recentlyMailed {
        if !delivered {
          return Registration.MailDelivery;
        }
        log := log + [Registration.Issued(e, now, now, code, true, false)];
      }
      pending := rows;
      return Registration.Done;
    }

    method ResendVerificationCode(now: Time, e: Registration.Email, code: Registration.Code, delivered: bool)
      returns (answer: Registration.Answer)
      requires Valid() && clock <= now
      modifies this`pending, this`log, this`clock
      ensures Valid() && clock == now
      ensures (Registrations(), answer) == Registration.AfterResend(old(Registrations()), now, e, code, delivered)
    {
      hide Registration.LedgerOk, Registration.Settled, Sessions.EligibleOf;
      TimePasses(now);
      CallKeepsValid(now, Registration.Resend(e, code, delivered));
      clock := now;
      if e in pending && pending[e].expires > now + Registration.CODE_TTL - Registration.RESEND_COOLDOWN {
        return Registration.Done;
      }
      if e !in pending {
        return Registration.Done;
      }
      var row := pending[e].(code := code, attempts := 0, expires := now + Registration.CODE_TTL);
      if !delivered {
        return Registration.MailDelivery;
      }
      pending := pending[e := row];
      log := log + [Registration.Issued(e, now, now, code, true, false)];
      return Registration.Done;
    }

    method VerifyRegistration(now: Time, e: Registration.Email, guess: Registration.Code)
      returns (answer: Registration.Answer)
      requires Valid() && clock <= now
      modifies this`pending, this`accounts, this`log, this`clock
      ensures Valid() && clock == now
      ensures (Registrations(), answer) == Registration.AfterVerify(old(Registrations()), now, now, e, guess)
      ensures answer == Registration.Done <==> e !in old(accounts) && e in accounts
      ensures answer == Registration.InvalidVerificationCode <==>
                !(e in old(pending) && now < old(pending)[e].expires && old(pending)[e].code == guess)
    {
      hide Registration.LedgerOk, Registration.Settled, Sessions.EligibleOf;
      TimePasses(now);
      CallKeepsValid(now, Registration.VerifyRegistration(e, guess, now));
      clock := now;
      if e !in pending || pending[e].expires <= now {
        return Registration.InvalidVerificationCode;
      }
      var row := pending[e];
      if guess != row.code {
        var attempts := row.attempts + 1;
        log := log + [Registration.WrongGuess(e, now)];
        if attempts >= Registration.MAX_ATTEMPTS {
          pending := pending - {e};
          log := log + [Registration.Burned(e, now)];
        } else {
          pending := pending[e := row.(attempts := attempts)];
        }
        return Registration.InvalidVerificationCode;
      }
      if (exists k :: k in accounts && accounts[k] == row.username) || e in accounts {
        return Registration.UsernameTaken;
      }
      accounts := accounts[e := row.username];
      pending := pending - {e};
      log := log + [Registration.Promoted(e, now, guess)];
      return Registration.Done;
    }
  }
}
