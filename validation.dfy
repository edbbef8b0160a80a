/**
 * The validation discipline every MUSA Create follows: a fixed sequence of
 * checks, each with the status it reports, where the first check that fails
 * decides the status and success means every check passed.
 */
module Validation {
  import opened Operators

  datatype Check = Check(passes: bool, failure: Status)

  predicate ReportsErrors(checks: seq<Check>)
  {
    forall i :: 0 <= i < |checks| ==> checks[i].failure != Success
  }

  /** The status of running `checks` in order and stopping at the first one that fails. */
  function FirstFailure(checks: seq<Check>): Status
  {
    if |checks| == 0 then Success
    else if !checks[0].passes then checks[0].failure
    else FirstFailure(checks[1..])
  }

  /** Success exactly when every check passes (given that every check reports an error status). */
  lemma {:induction false} FirstFailureSucceeds(checks: seq<Check>)
    requires ReportsErrors(checks)
    ensures FirstFailure(checks) == Success <==> forall i :: 0 <= i < |checks| ==> checks[i].passes
  {
    if |checks| > 0 {
      FirstFailureSucceeds(checks[1..]);
      assert forall i :: 1 <= i < |checks| ==> checks[i] == checks[1..][i - 1];
    }
  }

  /** When check k is the first to fail, its status is the one reported. */
  lemma {:induction false} FirstFailureIsFirst(checks: seq<Check>, k: nat)
    requires k < |checks| && !checks[k].passes
    requires forall i :: 0 <= i < k ==> checks[i].passes
    ensures FirstFailure(checks) == checks[k].failure
  {
    if k > 0 {
      assert checks[0].passes;
      FirstFailureIsFirst(checks[1..], k - 1);
    }
  }
}
