/** Identifiers, the clock, and the result types every module shares. */
module Common {

  datatype AccountId = AccountId(uuid: int)
  datatype ServerId = ServerId(uuid: int)
  datatype RoleId = RoleId(uuid: int)
  datatype ChannelId = ChannelId(uuid: int)

  /** A point on the clock, or a length of time, in seconds. Operations take the current time as an argument. */
  type Time = real

  datatype Option<+T> = None | Some(value: T) {
    function GetOr(default: T): T {
      match this
      case Some(v) => v
      case None => default
    }
  }

  /** The `DomainError` variants the modelled operations can return. */
  datatype Error =
    | ServerNotFound
    | ChannelNotFound
    | ThreadGone
    | RoleNotFound
    | AccountNotFound
    | InvalidInvite
    | MissingPermission
    | InsufficientHierarchy
    | CannotModifyDefaultRole
    | CannotActOnSelf
    | CannotActOnOwner
    | OwnerCannotLeave
    | MemberTimedOut
    | AlreadyMember
    | Banned
    | AlreadyBanned
    | RoleLimitReached
    | ChannelLimitReached
    | Validation
    | Conflict // a primary or unique key violation reported by the database

  datatype Result<+T> = Ok(value: T) | Err(error: Error) {
    predicate IsFailure() {
      Err?
    }

    function PropagateFailure<U>(): Result<U>
      requires Err?
    {
      Err(error)
    }

    function Extract(): T
      requires Ok?
    {
      value
    }
  }

  datatype Outcome = Pass | Fail(error: Error) {
    predicate IsFailure() {
      Fail?
    }

    function PropagateFailure<U>(): Result<U>
      requires Fail?
    {
      Err(error)
    }
  }

  /** Fails with `error` unless `condition` holds. */
  function Need(condition: bool, error: Error): Outcome {
    if condition then Pass else Fail(error)
  }

  ghost function Pick<T>(xs: set<T>): (x: T)
    requires xs != {}
    ensures x in xs
  {
    var x :| x in xs;
    x
  }

  lemma SubsetNoLarger<T>(a: set<T>, b: set<T>)
    requires a <= b
    ensures |a| <= |b|
  {
    assert b == a + (b - a);
  }
}
