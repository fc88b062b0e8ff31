/** The slice of the code host's API objects that the integration reads and
    sends: pull request heads, check runs and the option records of the check
    run endpoints. Every pointer field is an Option; the getters are nil-safe
    and yield the zero value, as the host library's generated getters do. */
module GitHub {
  import opened Wrappers

  datatype PullRequestBranch = PullRequestBranch(Ref: Option<string>, SHA: Option<string>)

  /** A fetched pull request; only its head is used. */
  datatype PullRequest = PullRequest(Head: Option<PullRequestBranch>)

  datatype CheckRun = CheckRun(
    ID: Option<int>,
    Name: Option<string>,
    Status: Option<string>,
    Conclusion: Option<string>)

  /** A point in time, as the wall clock gives it. */
  datatype Timestamp = Timestamp(UnixNano: int)

  datatype CheckRunOutput = CheckRunOutput(Title: Option<string>, Summary: Option<string>)

  datatype CreateCheckRunOptions = CreateCheckRunOptions(
    Name: string,
    HeadBranch: string,
    HeadSHA: string)

  datatype UpdateCheckRunOptions = UpdateCheckRunOptions(
    Name: string,
    HeadBranch: Option<string>,
    HeadSHA: Option<string>,
    Status: Option<string>,
    Conclusion: Option<string>,
    CompletedAt: Option<Timestamp>,
    Output: Option<CheckRunOutput>)

  datatype ListCheckRunsOptions = ListCheckRunsOptions(
    CheckName: Option<string>,
    Status: Option<string>,
    Filter: Option<string>)

  /** An authenticated API session for one app installation. */
  datatype AppClient = AppClient(IntegrationID: int, InstallationID: int)

  function GetRef(b: Option<PullRequestBranch>): string {
    if b.Some? then b.value.Ref.GetOr("") else ""
  }

  function GetSHA(b: Option<PullRequestBranch>): string {
    if b.Some? then b.value.SHA.GetOr("") else ""
  }

  function GetID(r: Option<CheckRun>): int {
    if r.Some? then r.value.ID.GetOr(0) else 0
  }

  function GetName(r: Option<CheckRun>): string {
    if r.Some? then r.value.Name.GetOr("") else ""
  }

  function GetConclusion(r: CheckRun): string {
    r.Conclusion.GetOr("")
  }
}
