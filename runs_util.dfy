/**
 * `GitHubRepositoriesRunsUtil.HasFailedRun`: decides whether a pull request's
 * CI has failed by fetching the check runs of ONE commit (the merge commit if
 * GitHub has made one, else the branch head) and looking for a run whose
 * conclusion is `failure`.
 *
 * The client construction and the check-runs request form one opaque call,
 * modelled as the oracle `CheckRunsFetch`. `Evaluate` records, beside the
 * verdict, every SHA it handed to the oracle.
 */
module RunsUtil {
  import opened Wrappers
  import opened CheckRuns

  /** The head branch reference of a pull request; its SHA may be null. */
  datatype Head = Head(sha: Option<string>)

  /** The fields of a pull request that are read: `Head` and `MergeCommitSha`, both nullable. */
  datatype PullRequest = PullRequest(head: Option<Head>, mergeCommitSha: Option<string>)

  /** The owner of a repository; its login may be null. */
  datatype Owner = Owner(login: Option<string>)

  /** The fields of a repository that are read: `Owner` and `Name`, both nullable. */
  datatype Repository = Repository(owner: Option<Owner>, name: Option<string>)

  /** An exception escaping `HasFailedRun`. */
  datatype Fault =
    | NullReference               // dereferencing a null model field
    | RequestFailed(reason: string) // raised by the client or the request

  /** What the awaited fetch produced: an exception, or a possibly null response. */
  datatype Fetched = Threw(fault: Fault) | Returned(response: Option<CheckRunsResponse>)

  /**
   * The client construction plus `GET repos/{owner}/{name}/commits/{sha}/check-runs`,
   * as a function of the owner, the repository name and the SHA.
   */
  type CheckRunsFetch = (Option<string>, Option<string>, string) -> Fetched

  /** The awaited result of `HasFailedRun`: a boolean, or an exception that propagated. */
  datatype Outcome = Verdict(failed: bool) | Raised(fault: Fault)

  /** The outcome together with the SHAs whose check runs were requested, in order. */
  datatype Evaluation = Evaluation(outcome: Outcome, queried: seq<string>)

  /** `pullRequest.Head?.Sha`. */
  function HeadSha(pr: PullRequest): (sha: Option<string>)
    ensures pr.head.None? ==> sha.None?
    ensures pr.head.Some? ==> sha == pr.head.value.sha
  {
    match pr.head
    case None => None
    case Some(head) => head.sha
  }

  /** `pullRequest.MergeCommitSha ?? pullRequest.Head.Sha`, once the head SHA is known to be non-null. */
  function ShaToCheck(pr: PullRequest): (sha: string)
    requires HeadSha(pr).Some?
    ensures pr.mergeCommitSha.Some? ==> sha == pr.mergeCommitSha.value
    ensures pr.mergeCommitSha.None? ==> sha == HeadSha(pr).value
  {
    pr.mergeCommitSha.GetOr(HeadSha(pr).value)
  }

  /**
   * The string overload of `HasFailedRun`, with its request log. At most one
   * request is made, and none at all when the head SHA is null.
   */
  function Evaluate(fetch: CheckRunsFetch, owner: Option<string>, name: Option<string>, pr: PullRequest): (e: Evaluation)
    ensures |e.queried| <= 1
    ensures e.queried == [] <==> HeadSha(pr).None?
  {
    if HeadSha(pr).None? then
      Evaluation(Verdict(false), [])
    else
      var sha := ShaToCheck(pr);
      match fetch(owner, name, sha)
      case Threw(fault) => Evaluation(Raised(fault), [sha])
      case Returned(response) => Evaluation(Verdict(FailureIn(response)), [sha])
  }

  /** The fetched response contains at least one run whose conclusion is `Failure`. */
  ghost predicate ReportsFailure(fetched: Fetched) {
    && fetched.Returned?
    && fetched.response.Some?
    && fetched.response.value.checkRuns.Some?
    && SomeRunFailed(fetched.response.value.checkRuns.value)
  }

  /**
   * `HasFailedRun(owner, name, pullRequest)`: true exactly when the head SHA is
   * present and the response for the chosen commit holds a failed run; an
   * exception from the fetch propagates unchanged; otherwise false.
   */
  function HasFailedRun(fetch: CheckRunsFetch, owner: Option<string>, name: Option<string>, pr: PullRequest): (r: Outcome)
    ensures r == Verdict(true) <==> HeadSha(pr).Some? && ReportsFailure(fetch(owner, name, ShaToCheck(pr)))
    ensures r.Raised? <==> HeadSha(pr).Some? && fetch(owner, name, ShaToCheck(pr)).Threw?
    ensures r.Raised? ==> r.fault == fetch(owner, name, ShaToCheck(pr)).fault
  {
    Evaluate(fetch, owner, name, pr).outcome
  }

  /**
   * `HasFailedRun(repository, pullRequest)`: reads `repository.Owner.Login` and
   * `repository.Name` before delegating, so a null owner throws even when the
   * pull request has no head SHA.
   */
  function HasFailedRunForRepository(fetch: CheckRunsFetch, repository: Repository, pr: PullRequest): (r: Outcome)
    ensures repository.owner.None? ==> r == Raised(NullReference)
    ensures repository.owner.Some? ==>
              r == HasFailedRun(fetch, repository.owner.value.login, repository.name, pr)
  {
    match repository.owner
    case None => Raised(NullReference)
    case Some(owner) => HasFailedRun(fetch, owner.login, repository.name, pr)
  }

  /** The oracle `fetch` with its answer for one request replaced. */
  function Override(fetch: CheckRunsFetch, owner: Option<string>, name: Option<string>, sha: string, answer: Fetched): CheckRunsFetch
  {
    (o, n, s) => if (o, n, s) == (owner, name, sha) then answer else fetch(o, n, s)
  }

  /**
   * The log is complete: two oracles that agree on every logged request give
   * the same evaluation, so no request outside the log influences the verdict.
   */
  lemma VerdictDependsOnlyOnQueried(f: CheckRunsFetch, g: CheckRunsFetch, owner: Option<string>, name: Option<string>, pr: PullRequest)
    requires forall sha :: sha in Evaluate(f, owner, name, pr).queried ==> f(owner, name, sha) == g(owner, name, sha)
    ensures Evaluate(f, owner, name, pr) == Evaluate(g, owner, name, pr)
  {
  }

  /**
   * A null head (or head SHA) gives false without any request, whatever the
   * merge-commit SHA and whatever the oracle would answer.
   */
  lemma MissingHeadShaIsNotFailed(fetch: CheckRunsFetch, owner: Option<string>, name: Option<string>, pr: PullRequest)
    requires HeadSha(pr).None?
    ensures Evaluate(fetch, owner, name, pr) == Evaluation(Verdict(false), [])
  {
  }

  /** With a head SHA and a merge-commit SHA, the merge commit is the one and only request. */
  lemma MergeShaIsOnlyQuery(fetch: CheckRunsFetch, owner: Option<string>, name: Option<string>, pr: PullRequest)
    requires HeadSha(pr).Some? && pr.mergeCommitSha.Some?
    ensures Evaluate(fetch, owner, name, pr).queried == [pr.mergeCommitSha.value]
  {
  }

  /** With a head SHA and no merge-commit SHA, the head SHA is the one request. */
  lemma HeadShaQueriedWithoutMergeSha(fetch: CheckRunsFetch, owner: Option<string>, name: Option<string>, pr: PullRequest)
    requires HeadSha(pr).Some? && pr.mergeCommitSha.None?
    ensures Evaluate(fetch, owner, name, pr).queried == [HeadSha(pr).value]
  {
  }

  /**
   * When a merge-commit SHA exists, whatever the head commit's check runs are
   * has no effect on the outcome.
   */
  lemma HeadRunsIgnoredWithMergeSha(fetch: CheckRunsFetch, owner: Option<string>, name: Option<string>, pr: PullRequest, headAnswer: Fetched)
    requires HeadSha(pr).Some? && pr.mergeCommitSha.Some?
    requires pr.mergeCommitSha.value != HeadSha(pr).value
    ensures HasFailedRun(Override(fetch, owner, name, HeadSha(pr).value, headAnswer), owner, name, pr)
         == HasFailedRun(fetch, owner, name, pr)
  {
  }

  /**
   * No fallback to the head: a merge commit whose response holds no failed
   * run gives false, even when the head commit's response holds one, which
   * the same pull request without a merge-commit SHA would report.
   */
  lemma NoFallbackToHeadSha(fetch: CheckRunsFetch, owner: Option<string>, name: Option<string>, head: string, merge: string)
    requires fetch(owner, name, merge).Returned? && !ReportsFailure(fetch(owner, name, merge))
    requires ReportsFailure(fetch(owner, name, head))
    ensures HasFailedRun(fetch, owner, name, PullRequest(Some(Head(Some(head))), Some(merge))) == Verdict(false)
    ensures HasFailedRun(fetch, owner, name, PullRequest(Some(Head(Some(head))), None)) == Verdict(true)
  {
  }

  /** A null response, a response whose run list is null, or an empty run list gives false. */
  lemma EmptyResponsesAreNotFailed(fetch: CheckRunsFetch, owner: Option<string>, name: Option<string>, pr: PullRequest)
    requires HeadSha(pr).Some?
    requires fetch(owner, name, ShaToCheck(pr)) in
               {Returned(None), Returned(Some(CheckRunsResponse(None))), Returned(Some(CheckRunsResponse(Some([]))))}
    ensures HasFailedRun(fetch, owner, name, pr) == Verdict(false)
  {
  }
}
