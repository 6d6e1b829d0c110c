/**
 * The application error the entity validators return (`utils.AppError`, built by
 * `NewLocAppError(where, id, params, details)`), and the rule they all follow:
 * checks run in a fixed order and the first one that fails decides the error.
 */
module Validation {
  import opened Wrappers

  datatype AppError = AppError(location: string, id: string, details: string)

  /** One validation step: whether it fails, and the error it reports if it does. */
  datatype Check = Check(fails: bool, error: AppError)

  /** Check `i` fails and every check before it passes. */
  predicate FailsFirstAt(checks: seq<Check>, i: int) {
    0 <= i < |checks| && checks[i].fails && forall j :: 0 <= j < i ==> !checks[j].fails
  }

  lemma FailsFirstAtTail(checks: seq<Check>, i: int)
    requires |checks| > 0 && !checks[0].fails && FailsFirstAt(checks, i)
    ensures i > 0 && FailsFirstAt(checks[1..], i - 1)
  {
    assert forall j :: 0 <= j < i - 1 ==> checks[1..][j] == checks[j + 1];
  }

  /** Reference semantics of ordered validation: the error of the first failing check, if any. */
  function FirstFailure(checks: seq<Check>): (r: Option<AppError>)
    ensures r.None? <==> forall i :: 0 <= i < |checks| ==> !checks[i].fails
    ensures forall i :: FailsFirstAt(checks, i) ==> r == Some(checks[i].error)
  {
    if checks == [] then None
    else if checks[0].fails then Some(checks[0].error)
    else
      assert forall i :: FailsFirstAt(checks, i) ==> FailsFirstAt(checks[1..], i - 1) by {
        forall i | FailsFirstAt(checks, i) ensures FailsFirstAt(checks[1..], i - 1) {
          FailsFirstAtTail(checks, i);
        }
      }
      assert forall i :: 1 <= i < |checks| ==> checks[i] == checks[1..][i - 1];
      FirstFailure(checks[1..])
  }
}
