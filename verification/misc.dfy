/** Helpers shared by the handlers (src/misc.rs). */
module Misc {
  import opened Wrappers
  import opened External
  import opened Registry

  /** `is_unknown_user`: whether the registry lacks a record for `id`; reads the registry only. */
  method IsUnknownUser(db: Db, id: UserId) returns (unknown: bool)
    ensures unknown <==> id !in db.users
  {
    unknown := id !in db.users;
  }

  /**
   * `log_error`: hands its argument back unchanged; the second component is
   * what gets written to the error log (the error, if there is one).
   */
  function LogError<T, E>(x: Result<T, E>): (r: (Result<T, E>, Option<E>))
    ensures r.0 == x
    ensures r.1.Some? <==> x.Err?
    ensures x.Err? ==> r.1.value == x.error
  {
    var logged := if x.Err? then Some(x.error) else None;
    (x, logged)
  }
}
