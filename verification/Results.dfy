/** The two result shapes the services share. */
module Results {

  datatype Option<+T> = None | Some(value: T)

  /** An answer, or the HTTP status carried by the refusal (`LedgerError`, `GrantError`, `HTTPException`). */
  datatype Outcome<+T> = Ok(value: T) | Refused(status: nat)

  /** The clock reading every store accepts: `stamp()` refuses a reading that is not finite and positive. */
  predicate Usable(now: real) {
    now > 0.0
  }

  /** The elements of `s` are pairwise different. */
  ghost predicate Distinct<T>(s: seq<T>) {
    forall i, j :: 0 <= i < j < |s| ==> s[i] != s[j]
  }
}
