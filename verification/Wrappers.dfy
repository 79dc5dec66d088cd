/** Result and option types, and a predicate on sequences, shared by the other
    modules. */
module Wrappers {

  datatype Option<+T> = None | Some(value: T)

  /** The outcome of a call that may throw (TypeScript) or revert (Solidity). */
  datatype Result<+T, +E> = Ok(value: T) | Err(error: E)

  function Failure<T, E>(r: Result<T, E>): Option<E> {
    match r
    case Ok(_) => None
    case Err(e) => Some(e)
  }

  ghost predicate NoRepeats<T>(s: seq<T>) {
    forall i, j :: 0 <= i < j < |s| ==> s[i] != s[j]
  }

  /** `e` is the first of `checks` that fails. */
  ghost predicate FirstFailing<E(!new)>(checks: seq<E>, fails: E -> bool, e: E) {
    exists i :: 0 <= i < |checks| && checks[i] == e && fails(e) && forall j :: 0 <= j < i ==> !fails(checks[j])
  }

  ghost predicate NoneFails<E(!new)>(checks: seq<E>, fails: E -> bool) {
    forall i :: 0 <= i < |checks| ==> !fails(checks[i])
  }

  lemma FirstAt<E(!new)>(checks: seq<E>, fails: E -> bool, i: nat)
    requires i < |checks| && fails(checks[i]) && forall j :: 0 <= j < i ==> !fails(checks[j])
    ensures FirstFailing(checks, fails, checks[i])
  {
  }
}
