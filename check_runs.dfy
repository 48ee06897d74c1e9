/**
 * The check-runs data that the GitHub commit check-runs endpoint returns,
 * and the one classification rule applied to it: a run counts as failed
 * exactly when its conclusion is `failure`.
 */
module CheckRuns {
  import opened Wrappers

  /** Conclusion of a completed check run, a closed set of tags. */
  datatype Conclusion =
    | Success
    | Failure
    | Neutral
    | Cancelled
    | Skipped
    | TimedOut
    | ActionRequired
    | Stale

  /** One check run; only its conclusion is read, and it is absent (null) while the run is not completed. */
  datatype CheckRun = CheckRun(conclusion: Option<Conclusion>)

  /** Body of the check-runs response; its list of runs may itself be null. */
  datatype CheckRunsResponse = CheckRunsResponse(checkRuns: Option<seq<CheckRun>>)

  /** The lambda handed to `Any`: the conclusion equals `Failure` (a null conclusion does not). */
  predicate IsFailure(run: CheckRun)
    ensures run.conclusion.None? ==> !IsFailure(run)
    ensures IsFailure(run) ==> run.conclusion.value.Failure?
    ensures run.conclusion == Some(Failure) ==> IsFailure(run)
  {
    run.conclusion == Some(Failure)
  }

  /** Some run in `runs` has conclusion `Failure`: the reference meaning of the `Any` call. */
  ghost predicate SomeRunFailed(runs: seq<CheckRun>) {
    exists i :: 0 <= i < |runs| && IsFailure(runs[i])
  }

  /** LINQ `Any(IsFailure)`: scans the runs from the front and stops at the first failure. */
  function AnyFailure(runs: seq<CheckRun>): (r: bool)
    ensures r <==> SomeRunFailed(runs)
    ensures runs == [] ==> !r
  {
    if runs == [] then false
    else if IsFailure(runs[0]) then true
    else
      var rest := AnyFailure(runs[1..]);
      assert SomeRunFailed(runs) ==> SomeRunFailed(runs[1..]) by {
        if SomeRunFailed(runs) {
          var i :| 0 <= i < |runs| && IsFailure(runs[i]);
          assert runs[1..][i - 1] == runs[i];
        }
      }
      assert SomeRunFailed(runs[1..]) ==> SomeRunFailed(runs) by {
        if SomeRunFailed(runs[1..]) {
          var j :| 0 <= j < |runs[1..]| && IsFailure(runs[1..][j]);
          assert runs[j + 1] == runs[1..][j];
        }
      }
      rest
  }

  /**
   * `response?.CheckRuns?.Any(IsFailure) == true`: a null response or a null
   * run list yields `null`, which is not `true`.
   */
  function FailureIn(response: Option<CheckRunsResponse>): (r: bool)
    ensures r <==> response.Some? && response.value.checkRuns.Some?
                   && SomeRunFailed(response.value.checkRuns.value)
  {
    match response
    case None => false
    case Some(body) =>
      match body.checkRuns
      case None => false
      case Some(runs) => AnyFailure(runs)
  }

  /**
   * Every conclusion other than `Failure` (success, neutral, cancelled,
   * skipped, timed out, action required, stale) and a missing conclusion
   * never make the answer true.
   */
  lemma OtherConclusionsNeverFail(runs: seq<CheckRun>)
    requires forall i :: 0 <= i < |runs| ==> runs[i].conclusion != Some(Failure)
    ensures !AnyFailure(runs)
  {
  }

  /** A single run with conclusion `Failure`, wherever it stands in the list, makes the answer true. */
  lemma FailureConclusionFails(runs: seq<CheckRun>, i: nat)
    requires i < |runs| && runs[i].conclusion == Some(Failure)
    ensures AnyFailure(runs)
  {
  }

  /** The order in which the endpoint lists the runs does not change the answer. */
  lemma {:induction false} AnyFailureIgnoresOrder(a: seq<CheckRun>, b: seq<CheckRun>)
    requires multiset(a) == multiset(b)
    ensures AnyFailure(a) == AnyFailure(b)
  {
    if AnyFailure(a) {
      var i :| 0 <= i < |a| && IsFailure(a[i]);
      assert a[i] in multiset(b);
      var j :| 0 <= j < |b| && b[j] == a[i];
    }
    if AnyFailure(b) {
      var j :| 0 <= j < |b| && IsFailure(b[j]);
      assert b[j] in multiset(a);
      var i :| 0 <= i < |a| && a[i] == b[j];
    }
  }
}
