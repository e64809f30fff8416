/**
 * A chain of guards with early returns, as the form handlers and the validators write it:
 * the checks run in order and the first one that fails decides the outcome.
 */
module Guards {
  import opened Wrappers

  /** One guard: whether it passes, and what is reported when it does not. */
  datatype Check<R> = Check(passes: bool, reason: R)

  /**
   * The reason of the first failing check, or None when every check passes.
   * A later check is never reported while an earlier one fails.
   */
  function FirstFailing<R>(checks: seq<Check<R>>): (r: Option<R>)
    ensures r.None? <==> forall i :: 0 <= i < |checks| ==> checks[i].passes
    ensures forall k :: 0 <= k < |checks| && !checks[k].passes && (forall j :: 0 <= j < k ==> checks[j].passes)
                        ==> r == Some(checks[k].reason)
  {
    if checks == [] then None
    else if !checks[0].passes then Some(checks[0].reason)
    else
      var rest := FirstFailing(checks[1..]);
      assert forall k :: 1 <= k < |checks| ==> checks[k] == checks[1..][k - 1];
      rest
  }
}
