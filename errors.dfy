/**
 * Outcomes shared by every layer: an optional value, and the failures the
 * cache client and the store raise. The source throws these as exceptions;
 * here they are returned.
 */
module Errors {

  datatype Option<T> = None | Some(value: T)

  /** What a Redis command or a Prisma call can fail with. */
  datatype Failure =
    | CacheUnavailable      // the Redis client could not run the command (connection lost, timeout)
    | InvalidExpireTime     // Redis refuses SETEX with a negative number of seconds
    | WrongArity            // Redis refuses MSET / MGET without a single key
    | NotFound              // Prisma P2025: no record with that id
    | UniqueViolation       // Prisma P2002: the id or a unique field is already taken
    | ForeignKeyViolation   // Prisma P2003: the referenced site does not exist

  datatype Result<T> = Ok(value: T) | Err(error: Failure)

  /** The result of a command that returns nothing (`Promise<void>`). */
  datatype Outcome = Pass | Fail(error: Failure)

  /**
   * `Promise.all` over commands that return nothing: it fails with the first
   * failure in the list, and passes when every command passed.
   */
  function Settle(outcomes: seq<Outcome>): (r: Outcome)
    ensures r.Pass? <==> forall i :: 0 <= i < |outcomes| ==> outcomes[i].Pass?
    ensures r.Fail? ==> r in outcomes
  {
    if outcomes == [] then Pass
    else if outcomes[0].Fail? then outcomes[0]
    else Settle(outcomes[1..])
  }
}
