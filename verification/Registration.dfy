/**
 Registrations waiting for their mailed code. The table holds one row per address;
 the log records what was issued, guessed and decided. A registration or a resend
 runs in one go, or statement by statement with any other call in between.
 */
module Registration {
  import opened Common

  datatype Email = Email(address: string)
  datatype Username = Username(normalized: string)

  type Code = string

  const CODE_TTL: Time := 900.0
  const RESEND_COOLDOWN: Time := 60.0
  const MAX_ATTEMPTS := 5

  datatype Pending = Pending(username: Username, code: Code, attempts: int, expires: Time)

  // `clock` is when the transaction began, which is what it takes for now; `late` says
  // that the row, looked at again, would have refused the mail
  datatype Event =
    | Issued(email: Email, at: Time, clock: Time, code: Code, mailed: bool, late: bool)
    | WrongGuess(email: Email, at: Time)
    | Burned(email: Email, at: Time)
    | Promoted(email: Email, at: Time, guess: Code)

  datatype Flight = Flight(number: int)

  /** What a call in flight does next. */
  datatype Pc =
    | LooksForAccount(email: Email, username: Username) // the name was free
    | Begins(email: Email, username: Username) // and the address without an account
    | LooksForRow(email: Email, username: Username, begun: Time)
    | LooksForMail(email: Email, username: Username, begun: Time)
    | Inserts(email: Email, username: Username, begun: Time, recent: bool)
    | ResendLooks(email: Email, begun: Time)
    | Updates(email: Email, begun: Time)
  {
    function Rank(): nat {
      match this
      case LooksForAccount(_, _) => 5
      case Begins(_, _) => 4
      case LooksForRow(_, _, _) => 3
      case LooksForMail(_, _, _) => 2
      case ResendLooks(_, _) => 2
      case Inserts(_, _, _, _) => 1
      case Updates(_, _) => 1
    }

    predicate Writes() {
      Inserts? || Updates?
    }

    predicate BegunBy(now: Time) {
      !LooksForAccount? && !Begins? ==> begun <= now
    }
  }

  datatype State = State(
    pending: map<Email, Pending>,
    accounts: map<Email, Username>,
    flights: map<Flight, Pc>,
    log: seq<Event>)

  const START := State(map[], map[], map[], [])

  datatype Answer =
    | Done // also when nothing was sent
    | Proceeds // to the next statement
    | UsernameTaken
    | InvalidVerificationCode
    | MailDelivery // the mail could not be sent and the transaction rolled back
    | Dropped // the call ended without an effect

  // `code` is what the generator drew, `delivered` whether the mailer took the mail,
  // `begun` the clock of a transaction that may have waited
  datatype Call =
    | Register(email: Email, username: Username, code: Code, delivered: bool) // in one go,
    | StartRegister(flight: Flight, email: Email, username: Username) // or statement by statement
    | Resend(email: Email, code: Code, delivered: bool)
    | StartResend(flight: Flight, email: Email)
    | Advance(flight: Flight, code: Code, delivered: bool)
    | Abandon(flight: Flight)
    | VerifyRegistration(email: Email, guess: Code, begun: Time)
    | Purge(begun: Time)
    | Rename(email: Email, username: Username) // an existing account takes a name

  predicate ClockOk(call: Call, now: Time) {
    call.VerifyRegistration? || call.Purge? ==> call.begun <= now
  }

  // ---- the queries ----

  predicate LiveRow(st: State, e: Email, now: Time) {
    e in st.pending && st.pending[e].expires > now
  }

  predicate HasAccount(st: State, u: Username) {
    exists e :: e in st.accounts && st.accounts[e] == u
  }

  predicate NameTaken(st: State, u: Username, now: Time) {
    HasAccount(st, u) || exists e :: e in st.pending && st.pending[e].username == u && st.pending[e].expires > now
  }

  /** The cooldown test, read off the expiry. */
  predicate MailedWithinCooldown(st: State, e: Email, now: Time) {
    e in st.pending && st.pending[e].expires > now + CODE_TTL - RESEND_COOLDOWN
  }

  // ---- the operations ----

  /** The expired rows in the way of a new one go first. */
  function Cleared(pending: map<Email, Pending>, e: Email, u: Username, now: Time): map<Email, Pending> {
    map k | k in pending && !(pending[k].expires <= now && (k == e || pending[k].username == u)) :: pending[k]
  }

  /** Another row holds the name, expired or not, once the rows in the way are gone. */
  predicate NameReserved(st: State, e: Email, u: Username, now: Time) {
    var rows := Cleared(st.pending, e, u, now);
    exists k :: k in rows && k != e && rows[k].username == u
  }

  /** The end of the registering transaction: nothing is checked again, the unique keys answer. */
  function AfterInsert(
    st: State, now: Time, begun: Time, e: Email, u: Username, recent: bool, code: Code, delivered: bool)
    : (State, Answer)
  {
    if LiveRow(st, e, begun) then (st, Done)
    else if NameReserved(st, e, u, begun) then (st, UsernameTaken)
    else if !recent && !delivered then (st, MailDelivery)
    else
      var rows := Cleared(st.pending, e, u, begun)[e := Pending(u, code, 0, begun + CODE_TTL)];
      (st.(pending := rows, log := st.log + [Issued(e, now, begun, code, !recent, false)]), Done)
  }

  function AfterTransaction(st: State, now: Time, e: Email, u: Username, code: Code, delivered: bool): (State, Answer) {
    if LiveRow(st, e, now) then (st, Done)
    else AfterInsert(st, now, now, e, u, MailedWithinCooldown(st, e, now), code, delivered)
  }

  function AfterRegister(st: State, now: Time, e: Email, u: Username, code: Code, delivered: bool): (State, Answer) {
    if NameTaken(st, u, now) then (st, UsernameTaken)
    else if e in st.accounts then (st, Done)
    else AfterTransaction(st, now, e, u, code, delivered)
  }

  /** The end of the resending transaction: the update asks neither for the cooldown nor for the expiry. */
  function AfterUpdate(st: State, now: Time, begun: Time, e: Email, code: Code, delivered: bool): (State, Answer) {
    if e !in st.pending then (st, Done)
    else if !delivered then (st, MailDelivery)
    else
      var row := st.pending[e].(code := code, attempts := 0, expires := begun + CODE_TTL);
      var event := Issued(e, now, begun, code, true, MailedWithinCooldown(st, e, now));
      (st.(pending := st.pending[e := row], log := st.log + [event]), Done)
  }

  function AfterResend(st: State, now: Time, e: Email, code: Code, delivered: bool): (State, Answer) {
    if MailedWithinCooldown(st, e, now) then (st, Done) else AfterUpdate(st, now, now, e, code, delivered)
  }

  /** A number already in use is not a new flight: no such call. */
  function AfterStartRegister(st: State, now: Time, f: Flight, e: Email, u: Username): (State, Answer) {
    if f in st.flights then (st, Dropped)
    else if NameTaken(st, u, now) then (st, UsernameTaken)
    else (st.(flights := st.flights[f := LooksForAccount(e, u)]), Proceeds)
  }

  function AfterStartResend(st: State, now: Time, f: Flight, e: Email): (State, Answer) {
    if f in st.flights then (st, Dropped) else (st.(flights := st.flights[f := ResendLooks(e, now)]), Proceeds)
  }

  function AfterAdvance(st: State, now: Time, f: Flight, code: Code, delivered: bool): (State, Answer) {
    if f !in st.flights then (st, Dropped)
    else
      var rest := st.(flights := st.flights - {f});
      match st.flights[f]
      case LooksForAccount(e, u) => if e in st.accounts then (rest, Done) else GoesOn(st, f, Begins(e, u))
      case Begins(e, u) => GoesOn(st, f, LooksForRow(e, u, now))
      case LooksForRow(e, u, begun) =>
        if LiveRow(st, e, begun) then (rest, Done) else GoesOn(st, f, LooksForMail(e, u, begun))
      case LooksForMail(e, u, begun) => GoesOn(st, f, Inserts(e, u, begun, MailedWithinCooldown(st, e, begun)))
      case Inserts(e, u, begun, recent) => AfterInsert(rest, now, begun, e, u, recent, code, delivered)
      case ResendLooks(e, begun) =>
        if MailedWithinCooldown(st, e, begun) then (rest, Done) else GoesOn(st, f, Updates(e, begun))
      case Updates(e, begun) => AfterUpdate(rest, now, begun, e, code, delivered)
  }

  function GoesOn(st: State, f: Flight, pc: Pc): (State, Answer) {
    (st.(flights := st.flights[f := pc]), Proceeds)
  }

  function AfterVerify(st: State, now: Time, begun: Time, e: Email, guess: Code): (State, Answer) {
    if !LiveRow(st, e, begun) then (st, InvalidVerificationCode)
    else
      var row := st.pending[e];
      if guess != row.code then
        var log := st.log + [WrongGuess(e, now)];
        if row.attempts + 1 >= MAX_ATTEMPTS
        then (st.(pending := st.pending - {e}, log := log + [Burned(e, now)]), InvalidVerificationCode)
        else (st.(pending := st.pending[e := row.(attempts := row.attempts + 1)], log := log), InvalidVerificationCode)
      else if HasAccount(st, row.username) || e in st.accounts then (st, UsernameTaken)
      else
        (st.(pending := st.pending - {e}, accounts := st.accounts[e := row.username],
             log := st.log + [Promoted(e, now, guess)]), Done)
  }

  function After(st: State, now: Time, call: Call): (State, Answer) {
    match call
    case Register(e, u, code, delivered) => AfterRegister(st, now, e, u, code, delivered)
    case StartRegister(f, e, u) => AfterStartRegister(st, now, f, e, u)
    case Resend(e, code, delivered) => AfterResend(st, now, e, code, delivered)
    case StartResend(f, e) => AfterStartResend(st, now, f, e)
    case Advance(f, code, delivered) => AfterAdvance(st, now, f, code, delivered)
    case Abandon(f) => (st.(flights := st.flights - {f}), Dropped)
    case VerifyRegistration(e, guess, begun) => AfterVerify(st, now, begun, e, guess)
    case Purge(begun) =>
      (st.(pending := map e | e in st.pending && st.pending[e].expires > begun :: st.pending[e]), Done)
    case Rename(e, u) =>
      if e in st.accounts && !HasAccount(st, u) then (st.(accounts := st.accounts[e := u]), Done)
      else (st, UsernameTaken)
  }

  // ---- one go is the statements with nothing in between ----

  /** Flight `f` runs to its end, all at one moment. */
  function Finished(st: State, now: Time, f: Flight, code: Code, delivered: bool, last: Answer): (State, Answer)
    decreases if f in st.flights then st.flights[f].Rank() else 0
  {
    if f !in st.flights then (st, last)
    else
      var (next, answer) := AfterAdvance(st, now, f, code, delivered);
      Finished(next, now, f, code, delivered, answer)
  }

  /** One more statement of the flight, or none if it is over. */
  lemma FinishedOneMore(st: State, now: Time, f: Flight, code: Code, delivered: bool, last: Answer)
    ensures f in st.flights ==>
              var (next, answer) := AfterAdvance(st, now, f, code, delivered);
              Finished(st, now, f, code, delivered, last) == Finished(next, now, f, code, delivered, answer)
    ensures f !in st.flights ==> Finished(st, now, f, code, delivered, last) == (st, last)
  {
  }

  lemma {:induction false} RegisterIsItsStatements(
    st: State, now: Time, f: Flight, e: Email, u: Username, code: Code, delivered: bool)
    requires f !in st.flights
    ensures var (first, answer) := AfterStartRegister(st, now, f, e, u);
            Finished(first, now, f, code, delivered, answer) == AfterRegister(st, now, e, u, code, delivered)
  {
    hide AfterInsert, AfterTransaction, NameTaken, Finished;
    var (first, answer) := AfterStartRegister(st, now, f, e, u);
    FinishedOneMore(first, now, f, code, delivered, answer);
    if f in first.flights {
      assert first.(flights := first.flights - {f}) == st;
      var (next, more) := AfterAdvance(first, now, f, code, delivered);
      if e in st.accounts {
        FinishedOneMore(next, now, f, code, delivered, more);
      } else {
        assert next.flights == st.flights[f := Begins(e, u)];
        TransactionIsItsStatements(st, now, f, e, u, code, delivered);
      }
    }
  }

  lemma {:induction false} TransactionIsItsStatements(
    st: State, now: Time, f: Flight, e: Email, u: Username, code: Code, delivered: bool)
    requires f !in st.flights
    ensures var begins := st.(flights := st.flights[f := Begins(e, u)]);
            Finished(begins, now, f, code, delivered, Proceeds) == AfterTransaction(st, now, e, u, code, delivered)
  {
    hide LiveRow, MailedWithinCooldown, NameReserved, Finished;
    var begins := st.(flights := st.flights[f := Begins(e, u)]);
    var looks := st.(flights := st.flights[f := LooksForRow(e, u, now)]);
    FinishedOneMore(begins, now, f, code, delivered, Proceeds);
    assert begins.flights[f := LooksForRow(e, u, now)] == looks.flights;
    SameMeasure(st, looks, e, now);
    FinishedOneMore(looks, now, f, code, delivered, Proceeds);
    if LiveRow(st, e, now) {
      assert looks.(flights := looks.flights - {f}) == st;
      FinishedOneMore(st, now, f, code, delivered, Done);
    } else {
      InsertIsItsStatements(st, now, f, e, u, code, delivered);
      var measures := st.(flights := st.flights[f := LooksForMail(e, u, now)]);
      assert looks.flights[f := LooksForMail(e, u, now)] == measures.flights;
      hide AfterInsert;
    }
  }

  lemma {:induction false} InsertIsItsStatements(
    st: State, now: Time, f: Flight, e: Email, u: Username, code: Code, delivered: bool)
    requires f !in st.flights
    ensures var measures := st.(flights := st.flights[f := LooksForMail(e, u, now)]);
            Finished(measures, now, f, code, delivered, Proceeds) ==
            AfterInsert(st, now, now, e, u, MailedWithinCooldown(st, e, now), code, delivered)
  {
    hide LiveRow, MailedWithinCooldown, NameReserved, Finished;
    var recent := MailedWithinCooldown(st, e, now);
    var measures := st.(flights := st.flights[f := LooksForMail(e, u, now)]);
    var inserts := st.(flights := st.flights[f := Inserts(e, u, now, recent)]);
    FinishedOneMore(measures, now, f, code, delivered, Proceeds);
    SameMeasure(st, measures, e, now);
    assert measures.flights[f := Inserts(e, u, now, recent)] == inserts.flights;
    FinishedOneMore(inserts, now, f, code, delivered, Proceeds);
    assert inserts.(flights := inserts.flights - {f}) == st;
    var (next, answer) := AfterInsert(st, now, now, e, u, recent, code, delivered);
    FinishedOneMore(next, now, f, code, delivered, answer);
  }

  lemma SameMeasure(st: State, next: State, e: Email, now: Time)
    requires next.pending == st.pending
    ensures MailedWithinCooldown(next, e, now) == MailedWithinCooldown(st, e, now)
    ensures LiveRow(next, e, now) == LiveRow(st, e, now)
  {
  }

  lemma {:induction false} ResendIsItsStatements(
    st: State, now: Time, f: Flight, e: Email, code: Code, delivered: bool)
    requires f !in st.flights
    ensures var (first, answer) := AfterStartResend(st, now, f, e);
            Finished(first, now, f, code, delivered, answer) == AfterResend(st, now, e, code, delivered)
  {
    hide MailedWithinCooldown, Finished;
    var first := st.(flights := st.flights[f := ResendLooks(e, now)]);
    var updates := st.(flights := st.flights[f := Updates(e, now)]);
    SameMeasure(st, first, e, now);
    assert first.(flights := first.flights - {f}) == st && updates.(flights := updates.flights - {f}) == st;
    assert first.flights[f := Updates(e, now)] == updates.flights;
    FinishedOneMore(first, now, f, code, delivered, Proceeds);
    FinishedOneMore(updates, now, f, code, delivered, Proceeds);
    FinishedOneMore(st, now, f, code, delivered, Done);
    var (next, answer) := AfterUpdate(st, now, now, e, code, delivered);
    FinishedOneMore(next, now, f, code, delivered, answer);
  }

  // ---- what the log says about an address ----

  datatype Issue = Issue(at: Time, clock: Time, code: Code, mailed: bool)

  /** The last code issued, when a mail last went out, the wrong guesses, and whether the row was burned or promoted. */
  datatype Sight = Sight(issue: Option<Issue>, sent: Option<Time>, guesses: nat, burned: bool, promoted: bool)

  function See(seen: Sight, event: Event, e: Email): Sight {
    if event.email != e then seen
    else
      match event
      case Issued(_, at, clock, code, mailed, _) =>
        Sight(Some(Issue(at, clock, code, mailed)), if mailed then Some(at) else seen.sent, 0, false, false)
      case WrongGuess(_, _) => seen.(guesses := seen.guesses + 1)
      case Burned(_, _) => seen.(burned := true)
      case Promoted(_, _, _) => seen.(promoted := true)
  }

  function View(log: seq<Event>, e: Email): Sight {
    if log == [] then Sight(None, None, 0, false, false) else See(View(log[..|log| - 1], e), log[|log| - 1], e)
  }

  lemma {:induction false} ViewOneMore(log: seq<Event>, event: Event, e: Email)
    ensures View(log + [event], e) == See(View(log, e), event, e)
  {
    assert (log + [event])[..|log|] == log;
  }

  function RowOf(st: State, e: Email): Option<Pending> {
    if e in st.pending then Some(st.pending[e]) else None
  }

  // ---- what every call keeps ----

  /** A row is the code last issued, with its guesses counted; once it is gone, the log says how. */
  ghost predicate Accounted(row: Option<Pending>, account: bool, seen: Sight, now: Time) {
    && (row.Some? ==>
          seen.issue.Some? && row.value.code == seen.issue.value.code &&
          row.value.expires == seen.issue.value.clock + CODE_TTL &&
          row.value.attempts == seen.guesses < MAX_ATTEMPTS && !seen.burned && !seen.promoted)
    && (seen.issue.None? ==> !account && seen.guesses == 0 && !seen.burned && !seen.promoted && seen.sent.None?)
    && (seen.issue.Some? ==> seen.issue.value.clock <= seen.issue.value.at <= now)
    && (seen.issue.Some? && seen.issue.value.mailed ==> seen.sent == Some(seen.issue.value.at))
    && (seen.issue.Some? && seen.sent.Some? ==> seen.sent.value <= seen.issue.value.at)
    && (seen.burned ==> !seen.promoted && seen.guesses == MAX_ATTEMPTS)
    && (!seen.burned ==> seen.guesses < MAX_ATTEMPTS)
    && (seen.promoted ==> account)
    && (seen.issue.Some? && row.None? && !seen.burned && !seen.promoted ==>
          seen.issue.value.clock + CODE_TTL <= now)
  }

  ghost predicate FlightsOk(flights: map<Flight, Pc>, now: Time) {
    forall f :: f in flights ==> flights[f].BegunBy(now)
  }

  ghost predicate LedgerOk(st: State, now: Time) {
    && FlightsOk(st.flights, now)
    && forall e {:trigger View(st.log, e)} :: Accounted(RowOf(st, e), e in st.accounts, View(st.log, e), now)
  }

  lemma {:induction false} AccountedAges(st: State, was: Time, now: Time, e: Email)
    requires Accounted(RowOf(st, e), e in st.accounts, View(st.log, e), was) && was <= now
    ensures Accounted(RowOf(st, e), e in st.accounts, View(st.log, e), now)
  {
    hide View;
  }

  lemma {:induction false} InsertKeeps(
    st: State, was: Time, now: Time, begun: Time, o: Email, u: Username, recent: bool, code: Code, delivered: bool,
    e: Email)
    requires Accounted(RowOf(st, e), e in st.accounts, View(st.log, e), was) && was <= now && begun <= now
    ensures var next := AfterInsert(st, now, begun, o, u, recent, code, delivered).0;
            Accounted(RowOf(next, e), e in next.accounts, View(next.log, e), now)
  {
    ViewOneMore(st.log, Issued(o, now, begun, code, !recent, false), e);
    hide View, NameReserved;
  }

  lemma {:induction false} UpdateKeeps(
    st: State, was: Time, now: Time, begun: Time, o: Email, code: Code, delivered: bool, e: Email)
    requires Accounted(RowOf(st, e), e in st.accounts, View(st.log, e), was) && was <= now && begun <= now
    ensures var next := AfterUpdate(st, now, begun, o, code, delivered).0;
            Accounted(RowOf(next, e), e in next.accounts, View(next.log, e), now)
  {
    ViewOneMore(st.log, Issued(o, now, begun, code, true, MailedWithinCooldown(st, o, now)), e);
    hide View;
  }

  lemma {:induction false} OneGoKeeps(st: State, was: Time, now: Time, call: Call, e: Email)
    requires Accounted(RowOf(st, e), e in st.accounts, View(st.log, e), was) && was <= now
    requires call.Register? || call.Resend?
    ensures var next := After(st, now, call).0;
            Accounted(RowOf(next, e), e in next.accounts, View(next.log, e), now)
  {
    hide AfterInsert, AfterUpdate, View, NameTaken, Accounted;
    AccountedAges(st, was, now, e);
    match call {
      case Register(o, u, code, delivered) =>
        InsertKeeps(st, was, now, now, o, u, MailedWithinCooldown(st, o, now), code, delivered, e);
      case Resend(o, code, delivered) =>
        UpdateKeeps(st, was, now, now, o, code, delivered, e);
    }
  }

  lemma {:induction false} AdvanceKeeps(
    st: State, was: Time, now: Time, f: Flight, code: Code, delivered: bool, e: Email)
    requires Accounted(RowOf(st, e), e in st.accounts, View(st.log, e), was) && was <= now
    requires FlightsOk(st.flights, was)
    ensures var next := AfterAdvance(st, now, f, code, delivered).0;
            Accounted(RowOf(next, e), e in next.accounts, View(next.log, e), now)
  {
    hide AfterInsert, AfterUpdate, View, Accounted;
    AccountedAges(st, was, now, e);
    if f in st.flights {
      var rest := st.(flights := st.flights - {f});
      match st.flights[f] {
        case Inserts(o, u, begun, recent) =>
          InsertKeeps(rest, was, now, begun, o, u, recent, code, delivered, e);
        case Updates(o, begun) =>
          UpdateKeeps(rest, was, now, begun, o, code, delivered, e);
        case _ =>
      }
    }
  }

  lemma {:induction false} GuessKeeps(st: State, was: Time, now: Time, begun: Time, o: Email, guess: Code, e: Email)
    requires Accounted(RowOf(st, e), e in st.accounts, View(st.log, e), was) && was <= now
    requires LiveRow(st, o, begun) && guess != st.pending[o].code
    ensures var next := AfterVerify(st, now, begun, o, guess).0;
            Accounted(RowOf(next, e), e in next.accounts, View(next.log, e), now)
  {
    ViewOneMore(st.log, WrongGuess(o, now), e);
    ViewOneMore(st.log + [WrongGuess(o, now)], Burned(o, now), e);
    hide View, HasAccount;
  }

  lemma {:induction false} PromotionKeeps(st: State, was: Time, now: Time, begun: Time, o: Email, e: Email)
    requires Accounted(RowOf(st, e), e in st.accounts, View(st.log, e), was) && was <= now
    requires LiveRow(st, o, begun)
    ensures var next := AfterVerify(st, now, begun, o, st.pending[o].code).0;
            Accounted(RowOf(next, e), e in next.accounts, View(next.log, e), now)
  {
    ViewOneMore(st.log, Promoted(o, now, st.pending[o].code), e);
    hide View, HasAccount;
  }

  lemma {:induction false} VerifyKeeps(st: State, was: Time, now: Time, begun: Time, o: Email, guess: Code, e: Email)
    requires Accounted(RowOf(st, e), e in st.accounts, View(st.log, e), was) && was <= now
    ensures var next := AfterVerify(st, now, begun, o, guess).0;
            Accounted(RowOf(next, e), e in next.accounts, View(next.log, e), now)
  {
    if LiveRow(st, o, begun) && guess != st.pending[o].code {
      GuessKeeps(st, was, now, begun, o, guess, e);
      hide AfterVerify, View, Accounted;
    } else if LiveRow(st, o, begun) {
      PromotionKeeps(st, was, now, begun, o, e);
      hide AfterVerify, View, Accounted;
    } else {
      AccountedAges(st, was, now, e);
      hide View, Accounted;
    }
  }

  lemma {:induction false} OtherCallKeeps(st: State, was: Time, now: Time, call: Call, e: Email)
    requires Accounted(RowOf(st, e), e in st.accounts, View(st.log, e), was) && was <= now && ClockOk(call, now)
    requires call.StartRegister? || call.StartResend? || call.Abandon? || call.Purge? || call.Rename?
    ensures var next := After(st, now, call).0;
            Accounted(RowOf(next, e), e in next.accounts, View(next.log, e), now)
  {
    hide View, HasAccount, NameTaken;
  }

  lemma CallKeepsFlights(st: State, was: Time, now: Time, call: Call)
    requires FlightsOk(st.flights, was) && was <= now
    ensures FlightsOk(After(st, now, call).0.flights, now)
  {
    hide HasAccount, NameTaken, NameReserved, LiveRow, MailedWithinCooldown;
  }

  lemma {:induction false} CallKeepsLedger(st: State, was: Time, now: Time, call: Call)
    requires LedgerOk(st, was) && was <= now && ClockOk(call, now)
    ensures LedgerOk(After(st, now, call).0, now)
  {
    CallKeepsFlights(st, was, now, call);
    hide FlightsOk, Accounted, View, HasAccount,
      AfterVerify, AfterResend, AfterRegister, AfterAdvance, AfterStartRegister;
    var next := After(st, now, call).0;
    forall e
      ensures Accounted(RowOf(next, e), e in next.accounts, View(next.log, e), now)
    {
      assert Accounted(RowOf(st, e), e in st.accounts, View(st.log, e), was);
      match call {
        case Register(_, _, _, _) => OneGoKeeps(st, was, now, call, e);
        case Resend(_, _, _) => OneGoKeeps(st, was, now, call, e);
        case Advance(f, code, delivered) => AdvanceKeeps(st, was, now, f, code, delivered, e);
        case VerifyRegistration(o, guess, begun) => VerifyKeeps(st, was, now, begun, o, guess, e);
        case _ => OtherCallKeeps(st, was, now, call, e);
      }
    }
  }

  lemma {:induction false} LedgerAges(st: State, was: Time, now: Time)
    requires LedgerOk(st, was) && was <= now
    ensures LedgerOk(st, now)
  {
    hide Accounted, View;
    forall e
      ensures Accounted(RowOf(st, e), e in st.accounts, View(st.log, e), now)
    {
      assert Accounted(RowOf(st, e), e in st.accounts, View(st.log, e), was);
      AccountedAges(st, was, now, e);
    }
  }

  // ---- every run ----

  datatype Request = Request(at: Time, call: Call)

  /** The state before request `i`. */
  function Before(calls: seq<Request>, i: nat): State
    requires i <= |calls|
  {
    if i == 0 then START else After(Before(calls, i - 1), calls[i - 1].at, calls[i - 1].call).0
  }

  lemma OneMore(calls: seq<Request>, i: nat)
    requires i < |calls|
    ensures Before(calls, i + 1) == After(Before(calls, i), calls[i].at, calls[i].call).0
  {
  }

  ghost predicate InOrder(calls: seq<Request>) {
    && (forall i :: 0 <= i < |calls| ==> calls[i].at >= 0.0 && ClockOk(calls[i].call, calls[i].at))
    && (forall i, j :: 0 <= i <= j < |calls| ==> calls[i].at <= calls[j].at)
  }

  /** When the state before request `i` came about. */
  function Since(calls: seq<Request>, i: nat): Time
    requires i <= |calls|
  {
    if i == 0 then 0.0 else calls[i - 1].at
  }

  /** Every registration and every resend of the run is done in one go. */
  ghost predicate Atomic(calls: seq<Request>) {
    forall i :: 0 <= i < |calls| ==> !calls[i].call.StartRegister? && !calls[i].call.StartResend?
  }

  lemma StartLedger()
    ensures LedgerOk(START, 0.0)
  {
  }

  lemma {:induction false} ReachableLedger(calls: seq<Request>, i: nat)
    requires InOrder(calls) && i <= |calls|
    ensures LedgerOk(Before(calls, i), Since(calls, i))
    decreases i
  {
    hide LedgerOk, After, ClockOk;
    if i == 0 {
      StartLedger();
    } else {
      ReachableLedger(calls, i - 1);
      CallKeepsLedger(Before(calls, i - 1), Since(calls, i - 1), calls[i - 1].at, calls[i - 1].call);
    }
  }

  lemma {:induction false} ReachableAccounted(calls: seq<Request>, i: nat, e: Email)
    requires InOrder(calls) && i <= |calls|
    ensures Accounted(
              RowOf(Before(calls, i), e), e in Before(calls, i).accounts,
              View(Before(calls, i).log, e), Since(calls, i))
  {
    hide After, View, Accounted;
    ReachableLedger(calls, i);
  }

  /** In one go, rows and burned rows never belong to an account, and every code is mailed at once. */
  ghost predicate SettledAt(st: State, e: Email) {
    && (e in st.accounts ==> e !in st.pending && !View(st.log, e).burned)
    && (View(st.log, e).issue.Some? ==>
          View(st.log, e).issue.value.mailed &&
          View(st.log, e).issue.value.clock == View(st.log, e).issue.value.at)
  }

  ghost predicate Settled(st: State) {
    st.flights == map[] && forall e :: SettledAt(st, e)
  }

  lemma {:induction false} MailKeepsSettled(st: State, now: Time, call: Call, e: Email)
    requires SettledAt(st, e) && (call.Register? || call.Resend?)
    ensures SettledAt(After(st, now, call).0, e)
  {
    hide View, HasAccount, NameTaken, NameReserved;
    ViewOneMore(st.log, Issued(call.email, now, now, call.code, true, false), e);
  }

  lemma {:induction false} GuessKeepsSettled(st: State, was: Time, now: Time, call: Call, e: Email)
    requires Accounted(RowOf(st, e), e in st.accounts, View(st.log, e), was)
    requires SettledAt(st, e) && call.VerifyRegistration?
    ensures SettledAt(After(st, now, call).0, e)
  {
    ViewOneMore(st.log, WrongGuess(call.email, now), e);
    ViewOneMore(st.log + [WrongGuess(call.email, now)], Burned(call.email, now), e);
    ViewOneMore(st.log, Promoted(call.email, now, call.guess), e);
    hide View, HasAccount;
  }

  lemma {:induction false} CallKeepsSettled(st: State, was: Time, now: Time, call: Call)
    requires LedgerOk(st, was) && Settled(st) && !call.StartRegister? && !call.StartResend?
    ensures Settled(After(st, now, call).0)
  {
    var next := After(st, now, call).0;
    assert next.flights == map[] by {
      hide View, LedgerOk, HasAccount, NameTaken, NameReserved, LiveRow, MailedWithinCooldown;
    }
    forall e
      ensures SettledAt(next, e)
    {
      assert Accounted(RowOf(st, e), e in st.accounts, View(st.log, e), was);
      assert SettledAt(st, e);
      hide View, LedgerOk, Settled;
      if call.VerifyRegistration? {
        GuessKeepsSettled(st, was, now, call, e);
        hide After;
      } else if call.Register? || call.Resend? {
        MailKeepsSettled(st, now, call, e);
        hide After;
      }
    }
  }

  lemma StartSettled()
    ensures Settled(START)
  {
  }

  lemma {:induction false} ReachableSettled(calls: seq<Request>, i: nat)
    requires InOrder(calls) && Atomic(calls) && i <= |calls|
    ensures Settled(Before(calls, i))
    decreases i
  {
    hide After, LedgerOk, Settled;
    if i == 0 {
      StartSettled();
    } else {
      ReachableSettled(calls, i - 1);
      ReachableLedger(calls, i - 1);
      CallKeepsSettled(Before(calls, i - 1), Since(calls, i - 1), calls[i - 1].at, calls[i - 1].call);
    }
  }

  /**
   In every reachable state at most five wrong guesses met the last code, five means
   its row is gone, and a burned code made no account: in a run of calls in one go,
   the address has none at all.
   */
  lemma {:induction false} AtMostFiveGuesses(calls: seq<Request>, i: nat, e: Email)
    requires InOrder(calls) && i <= |calls|
    ensures View(Before(calls, i).log, e).guesses <= MAX_ATTEMPTS
    ensures View(Before(calls, i).log, e).guesses == MAX_ATTEMPTS <==> View(Before(calls, i).log, e).burned
    ensures View(Before(calls, i).log, e).burned ==>
              e !in Before(calls, i).pending && !View(Before(calls, i).log, e).promoted
    ensures View(Before(calls, i).log, e).burned && Atomic(calls) ==> e !in Before(calls, i).accounts
  {
    hide After, View;
    ReachableAccounted(calls, i, e);
    if Atomic(calls) {
      ReachableSettled(calls, i);
      assert SettledAt(Before(calls, i), e);
    }
  }

  /**
   Request `i` presents the code last issued to `e`, not used, not burned, and issued
   less than fifteen minutes before the verification began.
   */
  ghost predicate ProvesAddress(calls: seq<Request>, i: nat, e: Email)
    requires i < |calls|
  {
    var seen := View(Before(calls, i).log, e);
    && calls[i].call.VerifyRegistration? && calls[i].call.email == e
    && seen.issue.Some? && seen.issue.value.code == calls[i].call.guess
    && calls[i].call.begun < seen.issue.value.clock + CODE_TTL <= seen.issue.value.at + CODE_TTL
    && !seen.burned && !seen.promoted
  }

  lemma {:induction false} NewAccountProves(calls: seq<Request>, i: nat, e: Email)
    requires InOrder(calls) && i < |calls|
    requires e !in Before(calls, i).accounts && e in Before(calls, i + 1).accounts
    ensures ProvesAddress(calls, i, e)
  {
    ReachableAccounted(calls, i, e);
    OnlyGuessesPromote(Before(calls, i), calls[i].at, calls[i].call, e);
    hide View, After, Before;
  }

  lemma OnlyGuessesPromote(st: State, now: Time, call: Call, e: Email)
    requires e !in st.accounts && e in After(st, now, call).0.accounts
    ensures call.VerifyRegistration? && call.email == e
    ensures LiveRow(st, e, call.begun) && st.pending[e].code == call.guess
  {
    hide HasAccount, NameTaken, NameReserved, MailedWithinCooldown;
  }

  // ---- what the calls answer ----

  /**
   `Done` exactly when the call made the account, under the name of the row, which it
   takes away; an invalid code exactly when no live row or another code was there.
   */
  lemma VerifyAnswers(st: State, now: Time, begun: Time, e: Email, guess: Code)
    ensures var (next, answer) := After(st, now, VerifyRegistration(e, guess, begun));
            && (answer == Done <==> e !in st.accounts && e in next.accounts)
            && (answer == Done ==>
                  e in st.pending && next.accounts == st.accounts[e := st.pending[e].username] &&
                  next.pending == st.pending - {e})
            && (answer == InvalidVerificationCode <==>
                  !(e in st.pending && begun < st.pending[e].expires && st.pending[e].code == guess))
            && (answer == UsernameTaken <==>
                  (e in st.pending && begun < st.pending[e].expires && st.pending[e].code == guess) &&
                  (e in st.accounts || exists f :: f in st.accounts && st.accounts[f] == st.pending[e].username))
            && answer in {Done, InvalidVerificationCode, UsernameTaken}
  {
  }

  /** A wrong code costs the row one of five guesses, and the fifth the row; nothing else changes. */
  lemma WrongGuessCosts(st: State, now: Time, begun: Time, e: Email, guess: Code)
    requires e in st.pending && begun < st.pending[e].expires && st.pending[e].code != guess
    ensures var next := After(st, now, VerifyRegistration(e, guess, begun)).0;
            var row := st.pending[e];
            && next.accounts == st.accounts && next.flights == st.flights
            && (row.attempts < 4 ==> next.pending == st.pending[e := row.(attempts := row.attempts + 1)])
            && (row.attempts >= 4 ==> next.pending == st.pending - {e})
  {
  }

  /**
   A registration in one go: the name is refused exactly when an account or a live row
   has it; otherwise nothing happens if the address has an account or a live row; and
   otherwise the code goes out and the row waits fifteen minutes, or nothing is kept.
   */
  lemma RegisterAnswers(st: State, now: Time, e: Email, u: Username, code: Code, delivered: bool)
    ensures var (next, answer) := After(st, now, Register(e, u, code, delivered));
            var taken := (exists f :: f in st.accounts && st.accounts[f] == u) ||
                         (exists f :: f in st.pending && st.pending[f].username == u && now < st.pending[f].expires);
            var known := e in st.accounts || (e in st.pending && now < st.pending[e].expires);
            && (answer == UsernameTaken <==> taken)
            && (answer == MailDelivery <==> !taken && !known && !delivered)
            && (answer == Done <==> !taken && (known || delivered))
            && (taken || known || !delivered ==> next == st)
            && (!taken && !known && delivered ==>
                  && e in next.pending && next.pending[e] == Pending(u, code, 0, now + 900.0)
                  && next.accounts == st.accounts && next.flights == st.flights
                  && (forall f :: f in next.pending && f != e ==> f in st.pending && next.pending[f] == st.pending[f])
                  && (forall f :: f in st.pending && now < st.pending[f].expires ==> f in next.pending)
                  && next.log == st.log + [Issued(e, now, now, code, true, false)])
  {
    if !NameTaken(st, u, now) {
      FreeNameIsUnreserved(st, e, u, now);
      assert !exists f :: f in st.accounts && st.accounts[f] == u;
    }
    hide NameReserved;
  }

  /** A resend replaces the code, resets the guesses and the fifteen minutes, or leaves everything as it was. */
  lemma ResendAnswers(st: State, now: Time, e: Email, code: Code, delivered: bool)
    ensures var (next, answer) := After(st, now, Resend(e, code, delivered));
            var due := e in st.pending && st.pending[e].expires <= now + 840.0;
            && (answer == MailDelivery <==> due && !delivered)
            && (answer == Done <==> !due || delivered)
            && (due && delivered ==>
                  next.pending == st.pending[e := Pending(st.pending[e].username, code, 0, now + 900.0)] &&
                  next.accounts == st.accounts && next.flights == st.flights &&
                  next.log == st.log + [Issued(e, now, now, code, true, false)])
            && (!due || !delivered ==> next == st)
  {
  }

  /**
   The last statements in flight answer by the row as it is then: a live row wins in
   silence, another's name refuses, a lost mail rolls back; the clock is the transaction's.
   */
  lemma InsertAnswers(
    st: State, now: Time, f: Flight, e: Email, u: Username, begun: Time, recent: bool, code: Code, delivered: bool)
    requires f in st.flights && st.flights[f] == Inserts(e, u, begun, recent)
    ensures var (next, answer) := After(st, now, Advance(f, code, delivered));
            var live := e in st.pending && begun < st.pending[e].expires;
            var reserved := exists k :: k in st.pending && k != e && st.pending[k].username == u &&
                                        begun < st.pending[k].expires;
            && f !in next.flights && next.accounts == st.accounts
            && (answer == UsernameTaken <==> !live && reserved)
            && (answer == MailDelivery <==> !live && !reserved && !recent && !delivered)
            && (answer == Done <==> live || (!reserved && (recent || delivered)))
            && (live || reserved || (!recent && !delivered) ==> next.pending == st.pending && next.log == st.log)
            && (!live && !reserved && (recent || delivered) ==>
                  && e in next.pending && next.pending[e] == Pending(u, code, 0, begun + 900.0)
                  && (forall k :: k in next.pending && k != e ==> k in st.pending && next.pending[k] == st.pending[k])
                  && (forall k :: k in st.pending && begun < st.pending[k].expires ==> k in next.pending)
                  && next.log == st.log + [Issued(e, now, begun, code, !recent, false)])
  {
    var rows := Cleared(st.pending, e, u, begun);
    assert forall k :: k in rows && k != e && rows[k].username == u ==> begun < st.pending[k].expires;
    assert forall k :: k in st.pending && begun < st.pending[k].expires ==> k in rows && rows[k] == st.pending[k];
  }

  lemma UpdateAnswers(st: State, now: Time, f: Flight, e: Email, begun: Time, code: Code, delivered: bool)
    requires f in st.flights && st.flights[f] == Updates(e, begun)
    ensures var (next, answer) := After(st, now, Advance(f, code, delivered));
            && f !in next.flights && next.accounts == st.accounts
            && (answer == MailDelivery <==> e in st.pending && !delivered)
            && (answer == Done <==> e !in st.pending || delivered)
            && (e in st.pending && delivered ==>
                  next.pending == st.pending[e := Pending(st.pending[e].username, code, 0, begun + 900.0)])
            && (e !in st.pending || !delivered ==> next.pending == st.pending && next.log == st.log)
  {
  }

  /** A call given up leaves no trace. */
  lemma AbandonLeavesNoTrace(st: State, now: Time, f: Flight)
    ensures var next := After(st, now, Abandon(f)).0;
            && next == st.(flights := next.flights)
            && (forall g :: g in next.flights <==> g in st.flights && g != f)
            && (forall g :: g in next.flights ==> next.flights[g] == st.flights[g])
  {
  }

  /** Purging takes exactly the rows that had expired when it began; the names they held are free again. */
  lemma PurgeClears(st: State, now: Time, begun: Time)
    ensures var next := After(st, now, Purge(begun)).0;
            && (forall e :: e in next.pending <==> e in st.pending && begun < st.pending[e].expires)
            && (forall e :: e in next.pending ==> next.pending[e] == st.pending[e])
            && next.accounts == st.accounts && next.flights == st.flights && next.log == st.log
  {
  }

  /** An account takes a name exactly when no account has it. */
  lemma RenameAnswers(st: State, now: Time, e: Email, u: Username)
    requires e in st.accounts
    ensures var (next, answer) := After(st, now, Rename(e, u));
            var taken := exists f :: f in st.accounts && st.accounts[f] == u;
            && (answer == UsernameTaken <==> taken) && (answer == Done <==> !taken)
            && next == if taken then st else st.(accounts := st.accounts[e := u])
  {
  }

  // ---- names ----

  /** No two accounts have the same name. */
  ghost predicate NamesUnique(accounts: map<Email, Username>) {
    forall e, f :: e in accounts && f in accounts && accounts[e] == accounts[f] ==> e == f
  }

  lemma CallKeepsNames(st: State, now: Time, call: Call)
    requires NamesUnique(st.accounts)
    ensures NamesUnique(After(st, now, call).0.accounts)
    ensures forall e :: e in st.accounts ==> e in After(st, now, call).0.accounts
  {
    hide NameTaken, NameReserved, LiveRow, MailedWithinCooldown;
  }

  /** In every state of every run the names of accounts are distinct, and an account once made stays. */
  lemma {:induction false} NamesStayUnique(calls: seq<Request>, n: nat, i: nat, e: Email)
    requires i <= n <= |calls|
    ensures NamesUnique(Before(calls, n).accounts)
    ensures e in Before(calls, i).accounts ==> e in Before(calls, n).accounts
    decreases n
  {
    hide After, NamesUnique;
    if n == 0 {
      NoNames();
    } else {
      if i < n {
        NamesStayUnique(calls, n - 1, i, e);
      } else {
        NamesStayUnique(calls, n - 1, n - 1, e);
      }
      CallKeepsNames(Before(calls, n - 1), calls[n - 1].at, calls[n - 1].call);
    }
  }

  lemma NoNames()
    ensures NamesUnique(START.accounts)
  {
  }

  // ---- which calls mail ----

  /**
   The test on the expiry says that the row's last code was issued by a transaction begun
   less than a minute ago; where calls are done in one go, that it was mailed then.
   */
  lemma {:induction false} CooldownMeansMailedRecently(calls: seq<Request>, i: nat, e: Email, now: Time)
    requires InOrder(calls) && i <= |calls|
    ensures var seen := View(Before(calls, i).log, e);
            MailedWithinCooldown(Before(calls, i), e, now) <==>
              e in Before(calls, i).pending && seen.issue.Some? && now < seen.issue.value.clock + RESEND_COOLDOWN
    ensures Atomic(calls) ==>
              (MailedWithinCooldown(Before(calls, i), e, now) <==>
                 e in Before(calls, i).pending && MailedLately(View(Before(calls, i).log, e), now))
  {
    hide After, View;
    ReachableAccounted(calls, i, e);
    if Atomic(calls) {
      ReachableSettled(calls, i);
      assert SettledAt(Before(calls, i), e);
    }
  }

  /** The call issues a code to `e`, mailed or not. */
  predicate Issues(st: State, now: Time, call: Call, e: Email, mailed: bool) {
    var log := After(st, now, call).0.log;
    |log| > |st.log| && log[|st.log|].Issued? && log[|st.log|].email == e && log[|st.log|].mailed == mailed
  }

  /** The call sends a mail to `e`. */
  predicate Mails(st: State, now: Time, call: Call, e: Email) {
    Issues(st, now, call, e, true)
  }

  /** The last code issued still stands at `now`, neither burned nor promoted nor expired. */
  predicate Stands(seen: Sight, now: Time) {
    seen.issue.Some? && !seen.burned && !seen.promoted && now < seen.issue.value.clock + CODE_TTL
  }

  /** The guards that let a mail to `e` through, as a caller can read them off before the call. */
  predicate LetsMailThrough(st: State, now: Time, call: Call, e: Email) {
    match call
    case Register(o, u, _, delivered) =>
      o == e && delivered && e !in st.accounts && !NameTaken(st, u, now) && !Stands(View(st.log, e), now)
    case Resend(o, _, delivered) =>
      o == e && delivered && e in st.pending && !MailedWithinCooldown(st, e, now)
    case Advance(f, _, delivered) =>
      f in st.flights && delivered &&
      (match st.flights[f]
       case Inserts(o, u, begun, recent) =>
         o == e && !recent && !LiveRow(st, e, begun) && !NameReserved(st, e, u, begun)
       case Updates(o, _) => o == e && e in st.pending
       case _ => false)
    case _ => false
  }

  /** Who has no live name in the way has no reserved one either. */
  lemma FreeNameIsUnreserved(st: State, e: Email, u: Username, now: Time)
    requires !NameTaken(st, u, now)
    ensures !NameReserved(st, e, u, now)
  {
  }

  /** Where no row is live, a transaction in one go mails unless the name is reserved, and the cooldown has no say. */
  lemma {:induction false} TransactionMails(
    st: State, now: Time, e: Email, u: Username, code: Code, delivered: bool)
    ensures !LiveRow(st, e, now) ==> !MailedWithinCooldown(st, e, now)
    ensures AfterTransaction(st, now, e, u, code, delivered).0.log ==
            if !LiveRow(st, e, now) && !NameReserved(st, e, u, now) && delivered
            then st.log + [Issued(e, now, now, code, true, false)] else st.log
  {
    hide NameReserved;
  }

  lemma {:induction false} LiveRowStands(st: State, was: Time, now: Time, e: Email)
    requires Accounted(RowOf(st, e), e in st.accounts, View(st.log, e), was) && was <= now
    ensures LiveRow(st, e, now) <==> Stands(View(st.log, e), now)
  {
    hide View;
  }

  lemma {:induction false} RegisterMailsExactlyWhen(
    st: State, was: Time, now: Time, o: Email, u: Username, code: Code, delivered: bool, e: Email)
    requires Accounted(RowOf(st, o), o in st.accounts, View(st.log, o), was) && was <= now
    ensures Mails(st, now, Register(o, u, code, delivered), e) <==>
              LetsMailThrough(st, now, Register(o, u, code, delivered), e)
  {
    TransactionMails(st, now, o, u, code, delivered);
    LiveRowStands(st, was, now, o);
    if !NameTaken(st, u, now) {
      FreeNameIsUnreserved(st, o, u, now);
    }
    hide View, NameTaken, NameReserved, AfterTransaction, LiveRow, Stands, Accounted;
  }

  lemma {:induction false} AdvanceMailsExactlyWhen(
    st: State, now: Time, f: Flight, code: Code, delivered: bool, e: Email)
    ensures Mails(st, now, Advance(f, code, delivered), e) <==>
              LetsMailThrough(st, now, Advance(f, code, delivered), e)
  {
    if f in st.flights {
      var rest := st.(flights := st.flights - {f});
      match st.flights[f] {
        case Inserts(o, u, begun, recent) =>
          assert NameReserved(rest, o, u, begun) == NameReserved(st, o, u, begun);
          hide NameReserved;
        case _ =>
      }
    }
  }

  /** A call mails exactly when its guards let it. */
  lemma {:induction false} MailsExactlyWhen(st: State, was: Time, now: Time, call: Call, e: Email)
    requires LedgerOk(st, was) && was <= now
    ensures Mails(st, now, call, e) <==> LetsMailThrough(st, now, call, e)
  {
    match call
    case Register(o, u, code, delivered) =>
      assert Accounted(RowOf(st, o), o in st.accounts, View(st.log, o), was);
      RegisterMailsExactlyWhen(st, was, now, o, u, code, delivered, e);
    case Advance(f, code, delivered) =>
      AdvanceMailsExactlyWhen(st, now, f, code, delivered, e);
    case _ =>
      hide LedgerOk, View, NameTaken, HasAccount;
  }

  // ---- spacing of mails ----

  predicate MailedLately(seen: Sight, now: Time) {
    seen.sent.Some? && now < seen.sent.value + RESEND_COOLDOWN
  }

  /** Under a minute after a mail to `e` went out, nothing stops the next one. */
  predicate ForgetsCooldown(st: State, now: Time, call: Call, e: Email) {
    MailedLately(View(st.log, e), now) && LetsMailThrough(st, now, call, e)
  }

  /**
   Within a minute of a mail to `e` another one goes out exactly when the guards let it,
   and then for one of four causes, each to be read off before the call: wrong guesses
   burned the row; the address got its account while a registration was in flight; a
   resend tested before the row was last written; or the last code was issued by a
   transaction that had begun well before.
   */
  lemma {:induction false} SoonMailsExactlyWhen(st: State, was: Time, now: Time, call: Call, e: Email)
    requires LedgerOk(st, was) && was <= now
    requires MailedLately(View(st.log, e), now)
    ensures Mails(st, now, call, e) <==>
              LetsMailThrough(st, now, call, e) && Cause(st, now, call, e)
  {
    MailsExactlyWhen(st, was, now, call, e);
    assert Accounted(RowOf(st, e), e in st.accounts, View(st.log, e), was);
    assert FlightsOk(st.flights, was);
    if LetsMailThrough(st, now, call, e) {
      SoonMailHasCause(st, was, now, call, e);
    }
    hide View, LedgerOk, Mails, LetsMailThrough, Cause;
  }

  /** Why the cooldown does not hold. */
  predicate Cause(st: State, now: Time, call: Call, e: Email) {
    var seen := View(st.log, e);
    || seen.burned
    || (call.Advance? && seen.promoted)
    || (call.Advance? && call.flight in st.flights && st.flights[call.flight].Updates? &&
        MailedWithinCooldown(st, e, now))
    || Predated(seen)
  }

  /** The last code was issued by a transaction that began before it wrote the row. */
  predicate Predated(seen: Sight) {
    seen.issue.Some? && seen.issue.value.clock < seen.issue.value.at
  }

  lemma {:induction false} SoonMailHasCause(st: State, was: Time, now: Time, call: Call, e: Email)
    requires Accounted(RowOf(st, e), e in st.accounts, View(st.log, e), was) && was <= now
    requires FlightsOk(st.flights, was)
    requires MailedLately(View(st.log, e), now) && LetsMailThrough(st, now, call, e)
    ensures Cause(st, now, call, e)
  {
    hide View, NameTaken, NameReserved;
  }

  /**
   Every mail of the log is a minute after the one before it to that address, unless
   the last row was burned; or, where other calls may come in between, promoted, or
   predated, or the mail is a resend's that a test would by then have refused.
   */
  ghost predicate Spaced(log: seq<Event>, e: Email, atomic: bool) {
    log == [] ||
    (var earlier, last := log[..|log| - 1], log[|log| - 1];
     && Spaced(earlier, e, atomic)
     && ((last.Issued? && last.mailed && last.email == e) ==> MayFollow(View(earlier, e), last, atomic)))
  }

  predicate MayFollow(seen: Sight, event: Event, atomic: bool)
    requires event.Issued?
  {
    MailedLately(seen, event.at) ==>
      seen.burned || (!atomic && (seen.promoted || Predated(seen) || event.late))
  }

  lemma {:induction false} SpacedOneMore(log: seq<Event>, event: Event, e: Email, atomic: bool)
    requires Spaced(log, e, atomic)
    requires (event.Issued? && event.mailed && event.email == e) ==> MayFollow(View(log, e), event, atomic)
    ensures Spaced(log + [event], e, atomic)
  {
    assert (log + [event])[..|log|] == log;
  }

  /** What one call appends to the log. */
  function Appended(st: State, now: Time, call: Call): seq<Event> {
    After(st, now, call).0.log[|st.log|..]
  }

  lemma {:induction false} CallAppends(st: State, now: Time, call: Call)
    ensures |After(st, now, call).0.log| >= |st.log|
    ensures After(st, now, call).0.log == st.log + Appended(st, now, call)
    ensures |Appended(st, now, call)| <= 2
    ensures |Appended(st, now, call)| == 2 ==> Appended(st, now, call)[1].Burned?
  {
    hide HasAccount, NameTaken, NameReserved;
  }

  /** A mail is the first event its call appends, dated by the call. */
  lemma {:induction false} MailIsAppended(st: State, now: Time, call: Call, e: Email)
    ensures Mails(st, now, call, e) <==>
              var more := Appended(st, now, call);
              more != [] && more[0].Issued? && more[0].mailed && more[0].email == e
    ensures Mails(st, now, call, e) ==> Appended(st, now, call)[0].at == now
    ensures Mails(st, now, call, e) ==>
              (Appended(st, now, call)[0].late <==>
                 call.Advance? && st.flights[call.flight].Updates? && MailedWithinCooldown(st, e, now))
  {
    hide HasAccount, NameTaken, NameReserved;
  }

  lemma {:induction false} MailMayFollow(st: State, was: Time, now: Time, call: Call, e: Email, atomic: bool)
    requires LedgerOk(st, was) && was <= now && (atomic ==> Settled(st))
    requires Mails(st, now, call, e)
    ensures var more := Appended(st, now, call);
            more != [] && more[0].Issued? && MayFollow(View(st.log, e), more[0], atomic)
  {
    MailIsAppended(st, now, call, e);
    if MailedLately(View(st.log, e), now) {
      SoonMailsExactlyWhen(st, was, now, call, e);
      if atomic {
        assert SettledAt(st, e);
      }
    }
    hide View, LedgerOk, Appended, LetsMailThrough, Mails;
  }

  lemma {:induction false} CallKeepsSpacing(
    st: State, was: Time, now: Time, call: Call, e: Email, atomic: bool)
    requires LedgerOk(st, was) && was <= now && Spaced(st.log, e, atomic) && (atomic ==> Settled(st))
    ensures Spaced(After(st, now, call).0.log, e, atomic)
  {
    hide View, Spaced, LedgerOk, Settled, After, Appended, Mails, MayFollow;
    var more := Appended(st, now, call);
    CallAppends(st, now, call);
    MailIsAppended(st, now, call, e);
    if more != [] {
      if Mails(st, now, call, e) {
        MailMayFollow(st, was, now, call, e, atomic);
      }
      SpacedOneMore(st.log, more[0], e, atomic);
      if |more| == 2 {
        SpacedOneMore(st.log + [more[0]], more[1], e, atomic);
        assert more == [more[0]] + [more[1]];
        assert st.log + more == (st.log + [more[0]]) + [more[1]];
      } else {
        assert more == [more[0]];
      }
    } else {
      assert st.log + [] == st.log;
    }
  }

  /**
   Along any run, two mails to an address less than a minute apart have a cause: where
   calls are done in one go, a burned row between them; otherwise that, or a promotion
   between them, a row predated by its transaction, or a resend that tested too early.
   */
  lemma {:induction false} MailsAreSpaced(calls: seq<Request>, i: nat, e: Email)
    requires InOrder(calls) && i <= |calls|
    ensures Spaced(Before(calls, i).log, e, Atomic(calls))
    decreases i
  {
    hide After, Spaced, LedgerOk, Settled;
    if i == 0 {
      SpacedEmpty(e, Atomic(calls));
    } else {
      MailsAreSpaced(calls, i - 1, e);
      ReachableLedger(calls, i - 1);
      if Atomic(calls) {
        ReachableSettled(calls, i - 1);
      }
      CallKeepsSpacing(
        Before(calls, i - 1), Since(calls, i - 1), calls[i - 1].at, calls[i - 1].call, e, Atomic(calls));
    }
  }

  lemma SpacedEmpty(e: Email, atomic: bool)
    ensures Spaced([], e, atomic)
  {
  }

  /** Every mail of the log is a minute after the one before it to that address. */
  ghost predicate Apart(log: seq<Event>, e: Email) {
    log == [] ||
    (var earlier, last := log[..|log| - 1], log[|log| - 1];
     && Apart(earlier, e)
     && ((last.Issued? && last.mailed && last.email == e) ==> !MailedLately(View(earlier, e), last.at)))
  }

  lemma {:induction false} ApartOneMore(log: seq<Event>, event: Event, e: Email)
    ensures Apart(log + [event], e) <==>
              Apart(log, e) &&
              ((event.Issued? && event.mailed && event.email == e) ==> !MailedLately(View(log, e), event.at))
  {
    assert (log + [event])[..|log|] == log;
  }

  lemma {:induction false} CallKeepsApart(st: State, was: Time, now: Time, call: Call, e: Email)
    requires LedgerOk(st, was) && was <= now
    ensures Apart(After(st, now, call).0.log, e) <==> Apart(st.log, e) && !ForgetsCooldown(st, now, call, e)
  {
    hide View, Apart, LedgerOk, After, Appended, Mails, MailedLately, LetsMailThrough;
    var more := Appended(st, now, call);
    MailsExactlyWhen(st, was, now, call, e);
    CallAppends(st, now, call);
    MailIsAppended(st, now, call, e);
    if more != [] {
      ApartOneMore(st.log, more[0], e);
      if |more| == 2 {
        ApartOneMore(st.log + [more[0]], more[1], e);
        assert more == [more[0]] + [more[1]];
        assert st.log + more == (st.log + [more[0]]) + [more[1]];
      } else {
        assert more == [more[0]];
      }
    } else {
      assert st.log + [] == st.log;
    }
  }

  ghost predicate ForgetsAt(calls: seq<Request>, i: nat, e: Email)
    requires i < |calls|
  {
    ForgetsCooldown(Before(calls, i), calls[i].at, calls[i].call, e)
  }

  lemma {:induction false} ApartAtFirst(calls: seq<Request>, e: Email)
    ensures Apart(Before(calls, 0).log, e)
  {
    assert Before(calls, 0) == START;
  }

  lemma {:induction false} RequestKeepsApart(calls: seq<Request>, i: nat, e: Email)
    requires InOrder(calls) && i < |calls|
    ensures Apart(Before(calls, i + 1).log, e) <==> Apart(Before(calls, i).log, e) && !ForgetsAt(calls, i, e)
  {
    hide After, Apart, LedgerOk, ForgetsCooldown;
    ReachableLedger(calls, i);
    CallKeepsApart(Before(calls, i), Since(calls, i), calls[i].at, calls[i].call, e);
  }

  /**
   Over whole runs, however registrations and resends overlap: mails to `e` keep the
   minimum gap exactly when no call whose guards let its mail through comes within a
   minute of one; what lets it through then is one of the causes of `SoonMailsExactlyWhen`.
   */
  lemma {:induction false} GapKeptExactlyWhen(calls: seq<Request>, n: nat, e: Email)
    requires InOrder(calls) && n <= |calls|
    ensures Apart(Before(calls, n).log, e) <==> forall i :: 0 <= i < n ==> !ForgetsAt(calls, i, e)
    decreases n
  {
    hide InOrder, Before, Apart, ForgetsAt;
    if n == 0 {
      ApartAtFirst(calls, e);
    } else {
      GapKeptExactlyWhen(calls, n - 1, e);
      RequestKeepsApart(calls, n - 1, e);
    }
  }

  // ---- codes that are never mailed ----

  /** A row that came and went between two statements of a registration makes it keep its mail back. */
  predicate Withholds(st: State, call: Call, e: Email) {
    && call.Advance? && call.flight in st.flights
    && (match st.flights[call.flight]
        case Inserts(o, u, begun, recent) =>
          o == e && recent && !LiveRow(st, e, begun) && !NameReserved(st, e, u, begun)
        case _ => false)
  }

  /** A code is issued without a mail exactly by such an insert, never by a call in one go. */
  lemma {:induction false} WithholdsExactlyWhen(st: State, now: Time, call: Call, e: Email)
    ensures Issues(st, now, call, e, false) <==> Withholds(st, call, e)
  {
    match call
    case Register(o, u, code, delivered) =>
      TransactionMails(st, now, o, u, code, delivered);
      hide AfterTransaction, NameTaken, NameReserved;
    case Advance(f, code, delivered) =>
      if f in st.flights && st.flights[f].Inserts? {
        var pc := st.flights[f];
        var rest := st.(flights := st.flights - {f});
        assert NameReserved(rest, pc.email, pc.username, pc.begun) == NameReserved(st, pc.email, pc.username, pc.begun);
      }
      hide NameReserved;
    case _ =>
      hide HasAccount, NameTaken;
  }

  ghost predicate WithholdsAt(calls: seq<Request>, i: nat, e: Email)
    requires i < |calls|
  {
    Withholds(Before(calls, i), calls[i].call, e)
  }

  lemma {:induction false} UnmailedOneMore(st: State, now: Time, call: Call, e: Email)
    requires !Withholds(st, call, e)
    requires View(st.log, e).issue.Some? ==> View(st.log, e).issue.value.mailed
    ensures var seen := View(After(st, now, call).0.log, e); seen.issue.Some? ==> seen.issue.value.mailed
  {
    WithholdsExactlyWhen(st, now, call, e);
    CallAppends(st, now, call);
    hide View, After, Withholds, Appended;
    var log := After(st, now, call).0.log;
    var more := Appended(st, now, call);
    if more == [] {
      assert log == st.log;
    } else {
      assert log[|st.log|] == more[0];
      ViewOneMore(st.log, more[0], e);
      if |more| == 2 {
        ViewOneMore(st.log + [more[0]], more[1], e);
        assert log == (st.log + [more[0]]) + [more[1]];
      } else {
        assert log == st.log + [more[0]];
      }
    }
  }

  /** The last code was mailed, unless some insert kept its mail back. */
  lemma {:induction false} CodesAreMailedUnlessWithheld(calls: seq<Request>, n: nat, e: Email)
    requires n <= |calls| && forall i :: 0 <= i < n ==> !WithholdsAt(calls, i, e)
    ensures var seen := View(Before(calls, n).log, e); seen.issue.Some? ==> seen.issue.value.mailed
    decreases n
  {
    hide View, After, Withholds;
    if n == 0 {
      NothingSeen(e);
    } else {
      CodesAreMailedUnlessWithheld(calls, n - 1, e);
      assert !WithholdsAt(calls, n - 1, e);
      UnmailedOneMore(Before(calls, n - 1), calls[n - 1].at, calls[n - 1].call, e);
    }
  }

  lemma NothingSeen(e: Email)
    ensures View(START.log, e).issue.None?
  {
  }

  /** Whoever has an account got it through a live, matching code, and a mailed one unless an insert kept it back. */
  lemma {:induction false} AccountsComeFromCodes(calls: seq<Request>, n: nat, e: Email) returns (i: nat)
    requires InOrder(calls) && n <= |calls| && e in Before(calls, n).accounts
    ensures i < n && ProvesAddress(calls, i, e)
    ensures (forall j :: 0 <= j < n ==> !WithholdsAt(calls, j, e)) ==>
              View(Before(calls, i).log, e).issue.value.mailed
    decreases n
  {
    hide After, View, WithholdsAt;
    if e in Before(calls, n - 1).accounts {
      i := AccountsComeFromCodes(calls, n - 1, e);
    } else {
      i := n - 1;
      NewAccountProves(calls, i, e);
      if forall j :: 0 <= j < n ==> !WithholdsAt(calls, j, e) {
        CodesAreMailedUnlessWithheld(calls, i, e);
      }
    }
  }

  // ---- where the promises stop ----

  /**
   A resend is meant for a live registration. Where none is live, it issues a code and
   makes the row live again exactly when an expired row has not been purged yet.
   */
  lemma {:induction false} ResendRevivesExactlyWhen(st: State, now: Time, e: Email, code: Code)
    requires !LiveRow(st, e, now)
    ensures Mails(st, now, Resend(e, code, true), e) <==> e in st.pending
    ensures LiveRow(After(st, now, Resend(e, code, true)).0, e, now) <==> e in st.pending
  {
    assert |After(st, now, Resend(e, code, true)).0.log| == |st.log| + (if e in st.pending then 1 else 0);
  }

  const ADA := Email("ada@example.org")
  const NAME := Username("ada")

  function OneRow(code: Code, guesses: nat, clock: Time): map<Email, Pending> {
    map[ADA := Pending(NAME, code, guesses, clock + CODE_TTL)]
  }

  function Mail(at: Time, clock: Time, code: Code): Event {
    Issued(ADA, at, clock, code, true, false)
  }

  /** A registration, and a resend long after it expired. */
  const LATE_RESEND: seq<Request> := [
    Request(0.0, Register(ADA, NAME, "11111111", true)), Request(5000.0, Resend(ADA, "22222222", true))]

  lemma {:induction false} FirstMail(calls: seq<Request>, i: nat, flights: map<Flight, Pc>, at: Time)
    requires i < |calls| && calls[i] == Request(at, Register(ADA, NAME, "11111111", true))
    requires Before(calls, i) == START.(flights := flights)
    ensures Before(calls, i + 1) ==
            State(OneRow("11111111", 0, at), map[], flights, [Mail(at, at, "11111111")])
    ensures Mails(Before(calls, i), at, calls[i].call, ADA)
  {
    assert Cleared(map[], ADA, NAME, at) == map[];
    assert [] + [Mail(at, at, "11111111")] == [Mail(at, at, "11111111")];
    assert START.pending == map[];
  }

  lemma {:induction false} ExpiredRowComesBack()
    ensures InOrder(LATE_RESEND)
    ensures !LiveRow(Before(LATE_RESEND, 1), ADA, 5000.0)
    ensures Mails(Before(LATE_RESEND, 1), 5000.0, LATE_RESEND[1].call, ADA)
    ensures LiveRow(Before(LATE_RESEND, 2), ADA, 5000.0)
  {
    assert Before(LATE_RESEND, 0) == START.(flights := map[]);
    FirstMail(LATE_RESEND, 0, map[], 0.0);
  }

  const WRONG := VerifyRegistration(ADA, "", 0.0)

  /** Five wrong guesses between two registrations, all at the same moment. */
  const BURN: seq<Request> := [
    Request(0.0, Register(ADA, NAME, "11111111", true)),
    Request(0.0, WRONG), Request(0.0, WRONG), Request(0.0, WRONG), Request(0.0, WRONG), Request(0.0, WRONG),
    Request(0.0, Register(ADA, NAME, "22222222", true))]

  function Guessed(n: nat): seq<Event> {
    if n == 0 then [Mail(0.0, 0.0, "11111111")] else Guessed(n - 1) + [WrongGuess(ADA, 0.0)]
  }

  /** Wrong guesses from request `k` on pile up, whatever is in flight. */
  lemma {:induction false} GuessesPileUp(calls: seq<Request>, k: nat, n: nat, flights: map<Flight, Pc>)
    requires n < MAX_ATTEMPTS && k + n <= |calls|
    requires Before(calls, k) == State(OneRow("11111111", 0, 0.0), map[], flights, Guessed(0))
    requires forall i :: k <= i < k + n ==> calls[i] == Request(0.0, WRONG)
    ensures Before(calls, k + n) == State(OneRow("11111111", n, 0.0), map[], flights, Guessed(n))
    decreases n
  {
    hide Before;
    if n > 0 {
      GuessesPileUp(calls, k, n - 1, flights);
      OneMore(calls, k + n - 1);
      assert calls[k + n - 1] == Request(0.0, WRONG);
      hide HasAccount;
    }
  }

  lemma {:induction false} FifthBurns(calls: seq<Request>, k: nat, flights: map<Flight, Pc>)
    requires k + 5 <= |calls|
    requires Before(calls, k) == State(OneRow("11111111", 0, 0.0), map[], flights, Guessed(0))
    requires forall i :: k <= i < k + 5 ==> calls[i] == Request(0.0, WRONG)
    ensures Before(calls, k + 5) ==
            State(map[], map[], flights, (Guessed(4) + [WrongGuess(ADA, 0.0)]) + [Burned(ADA, 0.0)])
  {
    GuessesPileUp(calls, k, 4, flights);
    hide Guessed;
    assert calls[k + 4] == Request(0.0, WRONG);
    assert Before(calls, k + 5).pending == map[];
  }

  /** Burning the row forgets the cooldown: two mails to one address at the same moment. */
  lemma {:induction false} BurnForgetsCooldown()
    ensures InOrder(BURN) && Atomic(BURN)
    ensures Mails(Before(BURN, 0), 0.0, BURN[0].call, ADA)
    ensures Mails(Before(BURN, 6), 0.0, BURN[6].call, ADA)
  {
    assert Before(BURN, 0) == START.(flights := map[]);
    FirstMail(BURN, 0, map[], 0.0);
    FifthBurns(BURN, 1, map[]);
    hide Guessed;
    assert Before(BURN, 6).pending == map[] && Before(BURN, 6).accounts == map[];
  }

  const FIRST_TAB := Flight(1)
  const SECOND_TAB := Flight(2)

  /** A registration done and verified while another one, of the same name, is past its first checks. */
  const TWO_TABS: seq<Request> := [
    Request(0.0, StartRegister(SECOND_TAB, ADA, NAME)), Request(0.0, Advance(SECOND_TAB, "", true)),
    Request(0.0, Register(ADA, NAME, "11111111", true)),
    Request(1.0, VerifyRegistration(ADA, "11111111", 1.0)),
    Request(2.0, Advance(SECOND_TAB, "", true)), Request(2.0, Advance(SECOND_TAB, "", true)),
    Request(2.0, Advance(SECOND_TAB, "", true)), Request(2.0, Advance(SECOND_TAB, "22222222", true))]

  const MAILED := [Mail(0.0, 0.0, "11111111")]

  lemma {:induction false} TwoTabsStart()
    ensures var tab: map<Flight, Pc> := map[SECOND_TAB := Begins(ADA, NAME)];
            Before(TWO_TABS, 2) == START.(flights := tab) &&
            Before(TWO_TABS, 3) == State(OneRow("11111111", 0, 0.0), map[], tab, MAILED)
    ensures Mails(Before(TWO_TABS, 2), 0.0, TWO_TABS[2].call, ADA)
  {
    assert Before(TWO_TABS, 0) == START;
    assert Before(TWO_TABS, 1) == START.(flights := map[SECOND_TAB := LooksForAccount(ADA, NAME)]);
    var tab: map<Flight, Pc> := map[SECOND_TAB := Begins(ADA, NAME)];
    assert Before(TWO_TABS, 2) == START.(flights := tab);
    FirstMail(TWO_TABS, 2, tab, 0.0);
  }

  const PROMOTED := MAILED + [Promoted(ADA, 1.0, "11111111")]

  lemma {:induction false} TwoTabsPromoted()
    ensures Before(TWO_TABS, 4) == State(map[], map[ADA := NAME], map[SECOND_TAB := Begins(ADA, NAME)], PROMOTED)
  {
    TwoTabsStart();
    hide Before;
    OneMore(TWO_TABS, 3);
  }

  /** The second transaction finds no row and inserts one. */
  lemma {:induction false} TwoTabsInsert()
    ensures Before(TWO_TABS, 7) ==
            State(map[], map[ADA := NAME], map[SECOND_TAB := Inserts(ADA, NAME, 2.0, false)], PROMOTED)
    ensures Mails(Before(TWO_TABS, 7), 2.0, TWO_TABS[7].call, ADA)
  {
    TwoTabsPromoted();
    hide Before;
    OneMore(TWO_TABS, 4);
    OneMore(TWO_TABS, 5);
    OneMore(TWO_TABS, 6);
    var st := Before(TWO_TABS, 4);
    assert Before(TWO_TABS, 5) == st.(flights := map[SECOND_TAB := LooksForRow(ADA, NAME, 2.0)]);
    assert Before(TWO_TABS, 6) == st.(flights := map[SECOND_TAB := LooksForMail(ADA, NAME, 2.0)]);
  }

  /** Checks gone stale forget the cooldown too, and mail an address that already has its account. */
  lemma {:induction false} TwoTabsForgetCooldown()
    ensures InOrder(TWO_TABS)
    ensures Mails(Before(TWO_TABS, 2), 0.0, TWO_TABS[2].call, ADA)
    ensures Mails(Before(TWO_TABS, 7), 2.0, TWO_TABS[7].call, ADA)
    ensures ADA in Before(TWO_TABS, 7).accounts
    ensures !View(Before(TWO_TABS, 7).log, ADA).burned
  {
    TwoTabsStart();
    TwoTabsInsert();
    hide Before, After;
    assert PROMOTED == [Mail(0.0, 0.0, "11111111"), Promoted(ADA, 1.0, "11111111")];
  }

  /** Two resends test the cooldown before either one has written. */
  const TWO_RESENDS: seq<Request> := [
    Request(0.0, Register(ADA, NAME, "11111111", true)),
    Request(60.0, StartResend(FIRST_TAB, ADA)), Request(60.0, StartResend(SECOND_TAB, ADA)),
    Request(60.0, Advance(FIRST_TAB, "", true)), Request(60.0, Advance(SECOND_TAB, "", true)),
    Request(60.0, Advance(FIRST_TAB, "22222222", true)), Request(60.0, Advance(SECOND_TAB, "33333333", true))]

  lemma {:induction false} TwoResendsTest()
    ensures Before(TWO_RESENDS, 5) ==
            State(OneRow("11111111", 0, 0.0), map[],
                  map[FIRST_TAB := Updates(ADA, 60.0), SECOND_TAB := Updates(ADA, 60.0)], MAILED)
  {
    assert Before(TWO_RESENDS, 0) == START.(flights := map[]);
    FirstMail(TWO_RESENDS, 0, map[], 0.0);
    hide Before;
    OneMore(TWO_RESENDS, 1);
    OneMore(TWO_RESENDS, 2);
    OneMore(TWO_RESENDS, 3);
    OneMore(TWO_RESENDS, 4);
    var st := Before(TWO_RESENDS, 1);
    var tested: map<Flight, Pc> := map[FIRST_TAB := Updates(ADA, 60.0), SECOND_TAB := ResendLooks(ADA, 60.0)];
    assert Before(TWO_RESENDS, 2) == st.(flights := map[FIRST_TAB := ResendLooks(ADA, 60.0)]);
    assert Before(TWO_RESENDS, 4) == st.(flights := tested);
  }

  /** Both mail at one moment, with no row burned or promoted and no registration near. */
  lemma {:induction false} OverlappingResendsForgetCooldown()
    ensures InOrder(TWO_RESENDS)
    ensures Mails(Before(TWO_RESENDS, 5), 60.0, TWO_RESENDS[5].call, ADA)
    ensures Mails(Before(TWO_RESENDS, 6), 60.0, TWO_RESENDS[6].call, ADA)
    ensures Before(TWO_RESENDS, 6).log == MAILED + [Mail(60.0, 60.0, "22222222")]
  {
    TwoResendsTest();
    hide Before;
    OneMore(TWO_RESENDS, 5);
  }

  /** A resend whose mail takes fifty seconds: the row is dated by its beginning. */
  const SLOW_MAIL: seq<Request> := [
    Request(0.0, Register(ADA, NAME, "11111111", true)),
    Request(60.0, StartResend(FIRST_TAB, ADA)), Request(60.0, Advance(FIRST_TAB, "", true)),
    Request(110.0, Advance(FIRST_TAB, "22222222", true)),
    Request(120.0, Resend(ADA, "33333333", true))]

  lemma {:induction false} SlowMailStarts()
    ensures Before(SLOW_MAIL, 3) ==
            State(OneRow("11111111", 0, 0.0), map[], map[FIRST_TAB := Updates(ADA, 60.0)], MAILED)
  {
    assert Before(SLOW_MAIL, 0) == START.(flights := map[]);
    FirstMail(SLOW_MAIL, 0, map[], 0.0);
    hide Before;
    OneMore(SLOW_MAIL, 1);
    OneMore(SLOW_MAIL, 2);
    assert Before(SLOW_MAIL, 2) == Before(SLOW_MAIL, 1).(flights := map[FIRST_TAB := ResendLooks(ADA, 60.0)]);
  }

  /** The next resend mails ten seconds after it. */
  lemma {:induction false} SlowMailShortensCooldown()
    ensures InOrder(SLOW_MAIL)
    ensures Mails(Before(SLOW_MAIL, 3), 110.0, SLOW_MAIL[3].call, ADA)
    ensures Mails(Before(SLOW_MAIL, 4), 120.0, SLOW_MAIL[4].call, ADA)
  {
    SlowMailStarts();
    hide Before;
    OneMore(SLOW_MAIL, 3);
  }

  /** Between the two looks of a registration another one inserts its row; five wrong guesses burn it. */
  const KEPT_BACK: seq<Request> := [
    Request(0.0, StartRegister(FIRST_TAB, ADA, NAME)), Request(0.0, Advance(FIRST_TAB, "", true)),
    Request(0.0, Advance(FIRST_TAB, "", true)), Request(0.0, Advance(FIRST_TAB, "", true)),
    Request(0.0, Register(ADA, NAME, "11111111", true)),
    Request(0.0, Advance(FIRST_TAB, "", true)),
    Request(0.0, WRONG), Request(0.0, WRONG), Request(0.0, WRONG), Request(0.0, WRONG), Request(0.0, WRONG),
    Request(0.0, Advance(FIRST_TAB, "22222222", true))]

  lemma {:induction false} KeptBackLooks()
    ensures Before(KEPT_BACK, 4) == START.(flights := map[FIRST_TAB := LooksForMail(ADA, NAME, 0.0)])
  {
    assert Before(KEPT_BACK, 0) == START;
    hide Before;
    OneMore(KEPT_BACK, 0);
    OneMore(KEPT_BACK, 1);
    OneMore(KEPT_BACK, 2);
    OneMore(KEPT_BACK, 3);
    assert Before(KEPT_BACK, 1) == START.(flights := map[FIRST_TAB := LooksForAccount(ADA, NAME)]);
    assert Before(KEPT_BACK, 2) == START.(flights := map[FIRST_TAB := Begins(ADA, NAME)]);
    assert Before(KEPT_BACK, 3) == START.(flights := map[FIRST_TAB := LooksForRow(ADA, NAME, 0.0)]);
  }

  lemma {:induction false} KeptBackMeasures()
    ensures Before(KEPT_BACK, 6) ==
            State(OneRow("11111111", 0, 0.0), map[], map[FIRST_TAB := Inserts(ADA, NAME, 0.0, true)], MAILED)
  {
    KeptBackLooks();
    hide Before;
    FirstMail(KEPT_BACK, 4, map[FIRST_TAB := LooksForMail(ADA, NAME, 0.0)], 0.0);
    OneMore(KEPT_BACK, 5);
  }

  /** The registration answers as if it had mailed, and its live row has a code nobody received. */
  lemma {:induction false} CodeKeptBack()
    ensures InOrder(KEPT_BACK)
    ensures Issues(Before(KEPT_BACK, 11), 0.0, KEPT_BACK[11].call, ADA, false)
    ensures After(Before(KEPT_BACK, 11), 0.0, KEPT_BACK[11].call).1 == Done
    ensures LiveRow(Before(KEPT_BACK, 12), ADA, 0.0)
  {
    KeptBackMeasures();
    FifthBurns(KEPT_BACK, 6, map[FIRST_TAB := Inserts(ADA, NAME, 0.0, true)]);
    hide Before, Guessed;
    OneMore(KEPT_BACK, 11);
  }
}
