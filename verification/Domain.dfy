/** Values shared by every module: optional columns, outcomes and the error
    names the stores and services answer with. */
module Domain {
  /** A nullable column or an optional argument. */
  datatype Option<+T> = None | Some(value: T)

  /** A store or service answer: a value, or the error the caller sees. */
  datatype Result<+T> = Ok(value: T) | Err(error: Error)

  datatype Error =
    | NotFound
    | InvalidInput
    | InvalidState
    | Conflict
    | StaleRevision
    | PoolLimitReached
    | PoolLocked
    | NoCurrentDraw
    | CurrentDrawExists
    | DrawInProgress
    | DrawNotRevealed
    | CurrentDrawChanged
    | AcquisitionLocked
    | NoActiveWildcard
    | ActiveWildcardExists
    | WildcardChanged
    | NextUpChanged
    | HandoffConfirmationRequired
    | InvalidCredentials
    | InviteInvalid
    | InviteUsed
    | SessionInvalid
    | StoreFailed

  /** SQL COALESCE over one nullable column. */
  function Coalesce<T>(column: Option<T>, fallback: T): Option<T> {
    if column.Some? then column else Some(fallback)
  }

  /** The largest index below n that satisfies p: ORDER BY id DESC LIMIT 1. */
  function FindLast(p: nat -> bool, n: nat): (r: Option<nat>)
    ensures r.Some? ==> r.value < n && p(r.value)
    ensures r.Some? ==> forall i: nat :: r.value < i < n ==> !p(i)
    ensures r.None? ==> forall i: nat :: i < n ==> !p(i)
  {
    if n == 0 then None
    else if p(n - 1) then Some(n - 1)
    else FindLast(p, n - 1)
  }
}
