# Failed-run verdict of `GitHubRepositoriesRunsUtil`

A Dafny model of `GitHubRepositoriesRunsUtil.HasFailedRun`. Given a pull request, this operation decides whether its CI has failed. It works in three steps:

1. **Guard.** When the pull request has no head, or its head has no SHA, the answer is `false` and no request is made.
2. **Choose a commit.** Exactly one commit is checked: the merge-commit SHA when GitHub has created one (`MergeCommitSha ?? Head.Sha`), otherwise the head SHA. If the merge commit's runs are clean, it does not fall back to the head.
3. **Classify.** The check runs of that commit are fetched once. The answer is `true` exactly when some run's conclusion is `failure`. A null response, a null run list, an empty list, and every other conclusion give `false`. Other conclusions include `timed_out`, `cancelled`, `action_required` and a missing conclusion.

The client construction and the `commits/{sha}/check-runs` request are one opaque call. The model takes it as a parameter: the oracle `RunsUtil.CheckRunsFetch` maps an owner, a repository name and a SHA to either an exception or a possibly null response. Nothing in the source catches exceptions, so an exception from that call propagates out of `HasFailedRun` (`Outcome.Raised`). `RunsUtil.Evaluate` returns the outcome together with the list of SHAs it passed to the oracle. `VerdictDependsOnlyOnQueried` proves that this list is complete: an oracle that changes its answers only outside the list leaves the outcome unchanged.

The OpenAPI client models are nullable throughout. So `Head`, `Head.Sha`, `MergeCommitSha`, `Repository.Owner`, `Owner.Login`, `Repository.Name`, the response and its `CheckRuns` list are all `Option`s. The `Repository` overload dereferences `repository.Owner` before delegating. A null owner therefore raises a null-reference exception, even for a pull request without a head SHA.

The repository's interface file declares the same two overloads over Octokit types. The model follows the implementation, which uses the OpenAPI client models.

The code has no merge-to-head fallback, no legacy combined statuses, no pagination, no "has any runs/statuses" probes, and no failing conclusion besides `failure` (`timed_out`, `cancelled` and `action_required` do not count as failing). `NoFallbackToHeadSha` and `OtherConclusionsNeverFail` state the first and the last of these outright.

Files:
- `wrappers.dfy`: the `Option` datatype, standing for C# `null`.
- `check_runs.dfy`: the `Conclusion`, `CheckRun` and response types, and the classification rule.
- `runs_util.dfy`: the pull-request and repository inputs, the fetch oracle, both overloads, and the properties of the query log.

## Model

| member | source | states |
|---|---|---|
| CheckRuns.IsFailure | src/GitHubRepositoriesRunsUtil.cs:49 | the lambda `cr => cr.Conclusion == Failure`: a run whose conclusion is `Failure` is a failure; a run with a null conclusion never is, and a failing run's conclusion is the `Failure` tag |
| CheckRuns.AnyFailure | src/GitHubRepositoriesRunsUtil.cs:49 | `Any(cr => cr.Conclusion == Failure)` is true iff some run in the list has conclusion `Failure`, and false for an empty list |
| CheckRuns.FailureIn | src/GitHubRepositoriesRunsUtil.cs:49 | `response?.CheckRuns?.Any(...) == true` holds iff the response and its run list are non-null and some run's conclusion is `Failure` |
| CheckRuns.OtherConclusionsNeverFail | src/GitHubRepositoriesRunsUtil.cs:49 | a list in which no conclusion is `Failure` never yields true; this covers success, neutral, cancelled, skipped, timed_out, action_required, stale and a null conclusion |
| CheckRuns.FailureConclusionFails | src/GitHubRepositoriesRunsUtil.cs:49 | a run with conclusion `Failure` at any position of the list makes the answer true |
| CheckRuns.AnyFailureIgnoresOrder | src/GitHubRepositoriesRunsUtil.cs:49 | reordering the runs (same multiset) does not change the classification |
| RunsUtil.HeadSha | src/GitHubRepositoriesRunsUtil.cs:35 | `pullRequest.Head?.Sha`: null when the head is null, otherwise the head's own (possibly null) SHA |
| RunsUtil.ShaToCheck | src/GitHubRepositoriesRunsUtil.cs:40 | the SHA checked is the merge-commit SHA whenever it is non-null, otherwise the head SHA |
| RunsUtil.Evaluate | src/GitHubRepositoriesRunsUtil.cs:32-50 | at most one check-runs request is made, and none exactly when the head SHA is null |
| RunsUtil.HasFailedRun | src/GitHubRepositoriesRunsUtil.cs:32-50 | true iff the head SHA is present and the response for the chosen SHA holds a run with conclusion `Failure`; an exception from the fetch propagates unchanged iff the head SHA is present and the fetch throws; otherwise false |
| RunsUtil.HasFailedRunForRepository | src/GitHubRepositoriesRunsUtil.cs:27-30 | equals the string overload applied to `repository.Owner.Login` and `repository.Name`; a null owner raises a null-reference exception |
| RunsUtil.VerdictDependsOnlyOnQueried | src/GitHubRepositoriesRunsUtil.cs:40-46 | two oracles that agree on every logged request give the same evaluation, so the log records every request that can influence the verdict |
| RunsUtil.MissingHeadShaIsNotFailed | src/GitHubRepositoriesRunsUtil.cs:35-36 | a null head or head SHA gives false with an empty request log, whatever the merge-commit SHA and the oracle are |
| RunsUtil.MergeShaIsOnlyQuery | src/GitHubRepositoriesRunsUtil.cs:40-46 | with a head SHA and a merge-commit SHA, the merge SHA is the only SHA requested |
| RunsUtil.HeadShaQueriedWithoutMergeSha | src/GitHubRepositoriesRunsUtil.cs:40-46 | with a head SHA and no merge-commit SHA, the head SHA is the only SHA requested |
| RunsUtil.HeadRunsIgnoredWithMergeSha | src/GitHubRepositoriesRunsUtil.cs:40-49 | when a distinct merge-commit SHA exists, changing the oracle's answer for the head SHA never changes the outcome |
| RunsUtil.NoFallbackToHeadSha | src/GitHubRepositoriesRunsUtil.cs:40-49 | for every oracle, a merge commit whose response holds no failed run (and does not throw) gives false even when the head's response holds a failed run; the same pull request without a merge SHA gives true |
| RunsUtil.EmptyResponsesAreNotFailed | src/GitHubRepositoriesRunsUtil.cs:49 | a null response, a null `CheckRuns` list or an empty list yields false |

## Left out

- Network I/O: `_gitHubOpenApiClientUtil.Get` and the check-runs request become the single oracle parameter `CheckRunsFetch`. What GitHub returns for a request is not modelled, including how many runs one unpaginated request returns. Runs that the endpoint does not put into that one response are never seen by the code.
- `ValueTask`/`async`, `NoSync` and the `CancellationToken`: plumbing that does not affect the verdict. A cancellation surfaces as an exception thrown by the fetch, which the oracle can return.
- The injected `_logger`, which is never used.
- Null `repository` or `pullRequest` arguments, which throw a null-reference exception, and null elements inside the run list. A null element reached before any failed run throws a null-reference exception; one after a failed run is never read, because `Any` stops at its first match. The model takes these inputs as present.
- The response's `TotalCount` and every check-run field other than `Conclusion`, since none of them is read.
- Dependency-injection registration (src/Registrars/GitHubRepositoriesRunsUtilRegistrar.cs) and the test project, whose single test has an empty body.
