/** The integration session that ties a persisted state record, an
    authenticated code-host client, a fetched pull request and the check run
    currently being reported on (lib/runsimgh/runsimgh.go).

    No I/O is performed: every answer of the state table, the secret store,
    the app authentication and the code host is a parameter of the method
    that asks for it, and the ghost field `Calls` records, in order, each
    request the session makes and what it sends. */
module RunSimGh {
  import opened Wrappers
  import opened StrConv
  import opened GitHub
  import opened RunSimAws

  /** Name of the table's partition-key attribute. */
  const PRIMARY_KEY := "IntegrationType"
  const TABLE_NAME := "SimulationState"
  /** The integration type, which is also the partition-key value of the one
      state record. */
  const INTEGRATION_KEY := "GitHub"
  const ERR_NO_ACTIVE_CHECK_RUNS := "ErrorNoActiveCheckRunsFound"
  const STATUS_COMPLETED := "completed"
  const OUTPUT_TITLE := "Details"
  const LATEST_FILTER := "latest"

  /** The table handle both configuration paths bind to. */
  function StateTable(region: string): DdbTable {
    DdbTable(region, PRIMARY_KEY, TABLE_NAME)
  }

  /** The persisted attributes of an integration (its identity and
      configuration); None is an attribute the record does not carry. */
  datatype Record = Record(
    IntegrationType: Option<string>,
    CheckRunName: Option<string>,
    InstallationID: Option<string>,
    IntegrationID: Option<string>,
    RepoOwner: Option<string>,
    RepoName: Option<string>,
    PrNum: Option<string>)

  /** The attributes that validation requires. */
  datatype Attribute = IntegrationID | InstallationID | PrNum | RepoName | RepoOwner | CheckRunName

  /** The order in which validation examines the required attributes. */
  const VALIDATION_ORDER: seq<Attribute> :=
    [IntegrationID, InstallationID, PrNum, RepoName, RepoOwner, CheckRunName]

  function Get(rec: Record, a: Attribute): Option<string> {
    match a
    case IntegrationID => rec.IntegrationID
    case InstallationID => rec.InstallationID
    case PrNum => rec.PrNum
    case RepoName => rec.RepoName
    case RepoOwner => rec.RepoOwner
    case CheckRunName => rec.CheckRunName
  }

  /** The error text naming a missing attribute (the InstallationID text
      carries a trailing space, as written in the source). */
  function MissingAttributeError(a: Attribute): string {
    match a
    case IntegrationID => "ErrorMissingAttribute: IntegrationID"
    case InstallationID => "ErrorMissingAttribute: InstallationID "
    case PrNum => "ErrorMissingAttribute: PrNum"
    case RepoName => "ErrorMissingAttribute: RepoName"
    case RepoOwner => "ErrorMissingAttribute: RepoOwner"
    case CheckRunName => "ErrorMissingAttribute: CheckRunName"
  }

  /** All six required attributes are present. */
  predicate HasRequiredAttributes(rec: Record) {
    && rec.IntegrationID.Some?
    && rec.InstallationID.Some?
    && rec.PrNum.Some?
    && rec.RepoName.Some?
    && rec.RepoOwner.Some?
    && rec.CheckRunName.Some?
  }

  /** The i-th attribute of the validation order is absent and all before it are present. */
  predicate FirstAbsent(rec: Record, i: nat)
    requires i < |VALIDATION_ORDER|
  {
    Get(rec, VALIDATION_ORDER[i]).None? &&
    forall j | 0 <= j < i :: Get(rec, VALIDATION_ORDER[j]).Some?
  }

  /** Decoding a stored item into an integration: every attribute the item
      carries replaces the field, every attribute it lacks leaves the field
      as it was. */
  function Overlay(current: Record, item: Record): (r: Record)
    ensures forall a :: Get(r, a) == if Get(item, a).Some? then Get(item, a) else Get(current, a)
    ensures r.IntegrationType == if item.IntegrationType.Some? then item.IntegrationType else current.IntegrationType
    ensures HasRequiredAttributes(item) && item.IntegrationType.Some? ==> r == item
  {
    Record(
      if item.IntegrationType.Some? then item.IntegrationType else current.IntegrationType,
      if item.CheckRunName.Some? then item.CheckRunName else current.CheckRunName,
      if item.InstallationID.Some? then item.InstallationID else current.InstallationID,
      if item.IntegrationID.Some? then item.IntegrationID else current.IntegrationID,
      if item.RepoOwner.Some? then item.RepoOwner else current.RepoOwner,
      if item.RepoName.Some? then item.RepoName else current.RepoName,
      if item.PrNum.Some? then item.PrNum else current.PrNum)
  }

  /** The record a configuration from scratch holds and writes. */
  function ScratchRecord(repoOwner: string, repoName: string, checkRunName: string,
                         installationID: string, integrationID: string, prNum: string): (r: Record)
    ensures r.IntegrationType == Some(INTEGRATION_KEY)
    ensures HasRequiredAttributes(r)
    ensures Get(r, Attribute.IntegrationID) == Some(integrationID) && Get(r, Attribute.InstallationID) == Some(installationID)
    ensures Get(r, Attribute.PrNum) == Some(prNum) && Get(r, Attribute.RepoName) == Some(repoName)
    ensures Get(r, Attribute.RepoOwner) == Some(repoOwner) && Get(r, Attribute.CheckRunName) == Some(checkRunName)
  {
    Record(Some(INTEGRATION_KEY), Some(checkRunName), Some(installationID), Some(integrationID),
           Some(repoOwner), Some(repoName), Some(prNum))
  }

  /** Authenticating with the record's ids does not abort: both numeric ids
      parse, and so does the pull request number once the transport exists. */
  predicate NumericIDsParse(rec: Record, transport: Outcome<string>) {
    && rec.IntegrationID.Some? && ParsesAsInt(rec.IntegrationID.value)
    && rec.InstallationID.Some? && ParsesAsInt(rec.InstallationID.value)
    && (transport.Pass? ==> rec.PrNum.Some? && ParsesAsInt(rec.PrNum.value))
  }

  /** A check run that has not concluded yet (an empty or missing conclusion). */
  predicate IsActive(run: CheckRun) {
    GetConclusion(run) == ""
  }

  /** The payload that creates a check run on the pull request's head. */
  function CreationOptions(name: string, head: Option<PullRequestBranch>): (opts: CreateCheckRunOptions)
    ensures opts.Name == name
    ensures head.Some? && head.value.Ref.Some? ==> opts.HeadBranch == head.value.Ref.value
    ensures head.Some? && head.value.SHA.Some? ==> opts.HeadSHA == head.value.SHA.value
    ensures head.Some? && head.value.Ref.None? ==> opts.HeadBranch == ""
    ensures head.Some? && head.value.SHA.None? ==> opts.HeadSHA == ""
    ensures head.None? ==> opts.HeadBranch == "" && opts.HeadSHA == ""
  {
    CreateCheckRunOptions(name, GetRef(head), GetSHA(head))
  }

  /** The filter asking for the latest check runs of one name. */
  function LatestRunsNamed(name: string): (opts: ListCheckRunsOptions)
    ensures opts.CheckName == Some(name) && opts.Filter == Some(LATEST_FILTER) && opts.Status.None?
  {
    ListCheckRunsOptions(Some(name), None, Some(LATEST_FILTER))
  }

  /** The payload that concludes the active run: completed now, with the
      conclusion and the summary as given. */
  function ConclusionOptions(run: Option<CheckRun>, summary: Option<string>, conclusion: Option<string>,
                             now: Timestamp): (opts: UpdateCheckRunOptions)
    ensures opts.Name == GetName(run)
    ensures opts.Status == Some(STATUS_COMPLETED)
    ensures opts.CompletedAt == Some(now)
    ensures opts.Conclusion == conclusion
    ensures opts.Output == Some(CheckRunOutput(Some(OUTPUT_TITLE), summary))
    ensures opts.HeadBranch.None? && opts.HeadSHA.None?
  {
    UpdateCheckRunOptions(
      Name := GetName(run),
      HeadBranch := None,
      HeadSHA := None,
      Status := Some(STATUS_COMPLETED),
      Conclusion := conclusion,
      CompletedAt := Some(now),
      Output := Some(CheckRunOutput(Some(OUTPUT_TITLE), summary)))
  }

  /** The payload that reports progress: the given status on the pull
      request's head, with a "Details" output only when a summary is given;
      it never concludes the run. */
  function StatusOptions(run: Option<CheckRun>, head: PullRequestBranch, status: Option<string>,
                         summary: Option<string>): (opts: UpdateCheckRunOptions)
    ensures opts.Name == GetName(run)
    ensures opts.HeadBranch == head.Ref && opts.HeadSHA == head.SHA
    ensures opts.Status == status
    ensures opts.Output.Some? <==> summary.Some?
    ensures opts.Output.Some? ==> opts.Output.value == CheckRunOutput(Some(OUTPUT_TITLE), summary)
    ensures opts.Conclusion.None? && opts.CompletedAt.None?
  {
    var base := UpdateCheckRunOptions(
      Name := GetName(run),
      HeadBranch := head.Ref,
      HeadSHA := head.SHA,
      Status := status,
      Conclusion := None,
      CompletedAt := None,
      Output := None);
    if summary.Some? then base.(Output := Some(CheckRunOutput(Some(OUTPUT_TITLE), summary))) else base
  }

  /** A request the session sends to the state table, the secret store, the
      app authenticator or the code host. */
  datatype Call =
    | DdbGetState(table: DdbTable, key: string)
    | DdbPutState(table: DdbTable, item: Record)
    | DdbDeleteState(table: DdbTable, key: string)
    | SsmGetParameter(region: string, name: string)
    | AppTransport(integrationID: int, installationID: int, privateKey: string)
    | PullRequestsGet(owner: string, repo: string, number: int)
    | ChecksCreateCheckRun(owner: string, repo: string, createOpts: CreateCheckRunOptions)
    | ChecksListCheckRunsForRef(owner: string, repo: string, ref: string, listOpts: ListCheckRunsOptions)
    | ChecksGetCheckRun(owner: string, repo: string, id: int)
    | ChecksUpdateCheckRun(owner: string, repo: string, id: int, updateOpts: UpdateCheckRunOptions)

  /** The requests authentication makes, in order: the secret, then the
      app transport for the record's numeric ids, then (once the transport
      exists) the pull request the record names. */
  ghost function AuthenticationCalls(region: string, secretName: string, rec: Record,
                                     privateKey: Result<string, string>, transport: Outcome<string>): seq<Call>
    requires rec.RepoOwner.Some? && rec.RepoName.Some?
    requires privateKey.Ok? ==> NumericIDsParse(rec, transport)
  {
    [SsmGetParameter(region, secretName)] +
    if privateKey.Err? then []
    else
      [AppTransport(Atoi(rec.IntegrationID.value).value, Atoi(rec.InstallationID.value).value, privateKey.value)] +
      if transport.Fail? then []
      else [PullRequestsGet(rec.RepoOwner.value, rec.RepoName.value, Atoi(rec.PrNum.value).value)]
  }

  /** The error authentication reports: that of the first failing step. */
  function AuthenticationOutcome(privateKey: Result<string, string>, transport: Outcome<string>,
                                 pull: Result<PullRequest, string>): Outcome<string>
  {
    if privateKey.Err? then Fail(privateKey.error)
    else if transport.Fail? then transport
    else pull.ToOutcome()
  }

  class Integration {
    var Client: Option<AppClient>
    var PR: Option<PullRequest>
    var ActiveCheckRun: Option<CheckRun>
    var State: Option<DdbTable>
    var IntegrationType: Option<string>
    var CheckRunName: Option<string>
    var InstallationID: Option<string>
    var IntegrationID: Option<string>
    var RepoOwner: Option<string>
    var RepoName: Option<string>
    var PrNum: Option<string>
    /** Every request this session has made, oldest first. */
    ghost var Calls: seq<Call>

    /** A zero-valued integration: nothing set, nothing requested. */
    constructor ()
      ensures Client.None? && PR.None? && ActiveCheckRun.None? && State.None?
      ensures Persisted() == Record(None, None, None, None, None, None, None)
      ensures Calls == []
    {
      Client, PR, ActiveCheckRun, State := None, None, None, None;
      IntegrationType, CheckRunName, InstallationID, IntegrationID := None, None, None, None;
      RepoOwner, RepoName, PrNum := None, None, None;
      Calls := [];
    }

    /** The fields the state record holds. */
    function Persisted(): Record
      reads this`IntegrationType, this`CheckRunName, this`InstallationID, this`IntegrationID,
               this`RepoOwner, this`RepoName, this`PrNum
    {
      Record(IntegrationType, CheckRunName, InstallationID, IntegrationID, RepoOwner, RepoName, PrNum)
    }

    /** Checks the required attributes in the fixed order and reports the
        first one that is missing. */
    function ValidateState(): (err: Outcome<string>)
      reads this`IntegrationID, this`InstallationID, this`PrNum, this`RepoName,
               this`RepoOwner, this`CheckRunName
      ensures err.Pass? <==> HasRequiredAttributes(Persisted())
    {
      if IntegrationID.None? then Fail(MissingAttributeError(Attribute.IntegrationID))
      else if InstallationID.None? then Fail(MissingAttributeError(Attribute.InstallationID))
      else if PrNum.None? then Fail(MissingAttributeError(Attribute.PrNum))
      else if RepoName.None? then Fail(MissingAttributeError(Attribute.RepoName))
      else if RepoOwner.None? then Fail(MissingAttributeError(Attribute.RepoOwner))
      else if CheckRunName.None? then Fail(MissingAttributeError(Attribute.CheckRunName))
      else Pass
    }

    function GetOwner(): (owner: string)
      reads this`RepoOwner
      requires RepoOwner.Some?
      ensures RepoOwner == Some(owner)
    {
      RepoOwner.value
    }

    function GetRepo(): (repo: string)
      reads this`RepoName
      requires RepoName.Some?
      ensures RepoName == Some(repo)
    {
      RepoName.value
    }

    function GetCheckRunName(): (name: string)
      reads this`CheckRunName
      requires CheckRunName.Some?
      ensures CheckRunName == Some(name)
    {
      CheckRunName.value
    }

    /** The pull request number; a stored value that does not parse aborts
        the program, hence the precondition. */
    function GetPrNum(): (num: int)
      reads this`PrNum
      requires PrNum.Some? && ParsesAsInt(PrNum.value)
      ensures MIN_INT <= num <= MAX_INT
      ensures AllDigits(PrNum.value) ==> num == DigitsValue(PrNum.value)
    {
      Atoi(PrNum.value).value
    }

    function GetAppInstID(): (id: int)
      reads this`InstallationID
      requires InstallationID.Some? && ParsesAsInt(InstallationID.value)
      ensures MIN_INT <= id <= MAX_INT
      ensures AllDigits(InstallationID.value) ==> id == DigitsValue(InstallationID.value)
    {
      Atoi(InstallationID.value).value
    }

    function GetAppIntID(): (id: int)
      reads this`IntegrationID
      requires IntegrationID.Some? && ParsesAsInt(IntegrationID.value)
      ensures MIN_INT <= id <= MAX_INT
      ensures AllDigits(IntegrationID.value) ==> id == DigitsValue(IntegrationID.value)
    {
      Atoi(IntegrationID.value).value
    }

    /** The common tail of both configuration paths: fetch the private key,
        build the app transport from the numeric ids, install the client and
        fetch the pull request, stopping at the first step that fails. */
    method Authenticate(awsRegion: string, secretName: string, privateKey: Result<string, string>,
                        transport: Outcome<string>, pull: Result<PullRequest, string>)
      returns (err: Outcome<string>)
      requires RepoOwner.Some? && RepoName.Some?
      requires privateKey.Ok? ==> NumericIDsParse(Persisted(), transport)
      modifies this`Client, this`PR, this`Calls
      ensures Calls == old(Calls) + AuthenticationCalls(awsRegion, secretName, Persisted(), privateKey, transport)
      ensures err == AuthenticationOutcome(privateKey, transport, pull)
      ensures Client == if privateKey.Ok? && transport.Pass?
                        then Some(AppClient(GetAppIntID(), GetAppInstID())) else old(Client)
      ensures PR == if privateKey.Ok? && transport.Pass? then pull.ToOption() else old(PR)
    {
      Calls := Calls + [SsmGetParameter(awsRegion, secretName)];
      if privateKey.Err? {
        return Fail(privateKey.error);
      }

      var app := AppClient(GetAppIntID(), GetAppInstID());
      Calls := Calls + [AppTransport(app.IntegrationID, app.InstallationID, privateKey.value)];
      if transport.Fail? {
        return transport;
      }

      Client := Some(app);
      Calls := Calls + [PullRequestsGet(GetOwner(), GetRepo(), GetPrNum())];
      PR, err := pull.ToOption(), pull.ToOutcome();
    }

    /** Writes the persisted attributes, as assigning them one by one or
        decoding a stored item into the session does. */
    method SetAttributes(rec: Record)
      modifies this`IntegrationType, this`CheckRunName, this`InstallationID, this`IntegrationID,
               this`RepoOwner, this`RepoName, this`PrNum
      ensures Persisted() == rec
    {
      IntegrationType, CheckRunName, InstallationID, IntegrationID :=
        rec.IntegrationType, rec.CheckRunName, rec.InstallationID, rec.IntegrationID;
      RepoOwner, RepoName, PrNum := rec.RepoOwner, rec.RepoName, rec.PrNum;
    }

    /** Resumes a session from the stored record: load it, validate it, then
        authenticate, stopping at the first step that fails. */
    method ConfigFromState(awsRegion: string, ghAccessTokenID: string,
                           item: Result<Record, string>, privateKey: Result<string, string>,
                           transport: Outcome<string>, pull: Result<PullRequest, string>)
      returns (err: Outcome<string>)
      requires item.Ok? && HasRequiredAttributes(Overlay(Persisted(), item.value)) && privateKey.Ok? ==>
                 NumericIDsParse(Overlay(Persisted(), item.value), transport)
      modifies this`IntegrationType, this`CheckRunName, this`InstallationID, this`IntegrationID,
               this`RepoOwner, this`RepoName, this`PrNum, this`State, this`Client, this`PR, this`Calls
      ensures State == Some(StateTable(awsRegion))
      ensures Persisted() == if item.Ok? then Overlay(old(Persisted()), item.value) else old(Persisted())
      ensures Calls == old(Calls) + [DdbGetState(StateTable(awsRegion), INTEGRATION_KEY)] +
                (if item.Ok? && ValidateState().Pass?
                 then AuthenticationCalls(awsRegion, ghAccessTokenID, Persisted(), privateKey, transport)
                 else [])
      ensures err == if item.Err? then Fail(item.error)
                     else if ValidateState().Fail? then ValidateState()
                     else AuthenticationOutcome(privateKey, transport, pull)
      ensures Client == if item.Ok? && ValidateState().Pass? && privateKey.Ok? && transport.Pass?
                        then Some(AppClient(GetAppIntID(), GetAppInstID())) else old(Client)
      ensures PR == if item.Ok? && ValidateState().Pass? && privateKey.Ok? && transport.Pass?
                    then pull.ToOption() else old(PR)
    {
      State := Some(StateTable(awsRegion));
      Calls := Calls + [DdbGetState(StateTable(awsRegion), INTEGRATION_KEY)];
      if item.Err? {
        return Fail(item.error);
      }
      SetAttributes(Overlay(Persisted(), item.value));

      err := ValidateState();
      if err.Fail? {
        return;
      }
      err := Authenticate(awsRegion, ghAccessTokenID, privateKey, transport, pull);
    }

    /** Starts a session from explicit arguments: assign the fields, write
        the record, then authenticate, stopping at the first step that fails. */
    method ConfigFromScratch(awsRegion: string, privateKeyID: string, repoOwner: string, repoName: string,
                             checkRunName: string, installationID: string, integrationID: string, prNum: string,
                             stored: Outcome<string>, privateKey: Result<string, string>,
                             transport: Outcome<string>, pull: Result<PullRequest, string>)
      returns (err: Outcome<string>)
      requires stored.Pass? && privateKey.Ok? ==>
                 NumericIDsParse(ScratchRecord(repoOwner, repoName, checkRunName, installationID, integrationID, prNum), transport)
      modifies this`IntegrationType, this`CheckRunName, this`InstallationID, this`IntegrationID,
               this`RepoOwner, this`RepoName, this`PrNum, this`State, this`Client, this`PR, this`Calls
      ensures Persisted() == ScratchRecord(repoOwner, repoName, checkRunName, installationID, integrationID, prNum)
      ensures State == Some(StateTable(awsRegion))
      ensures Calls == old(Calls) + [DdbPutState(StateTable(awsRegion), Persisted())] +
                (if stored.Pass?
                 then AuthenticationCalls(awsRegion, privateKeyID, Persisted(), privateKey, transport)
                 else [])
      ensures err == if stored.Fail? then stored else AuthenticationOutcome(privateKey, transport, pull)
      ensures Client == if stored.Pass? && privateKey.Ok? && transport.Pass?
                        then Some(AppClient(GetAppIntID(), GetAppInstID())) else old(Client)
      ensures PR == if stored.Pass? && privateKey.Ok? && transport.Pass? then pull.ToOption() else old(PR)
    {
      SetAttributes(ScratchRecord(repoOwner, repoName, checkRunName, installationID, integrationID, prNum));
      State := Some(StateTable(awsRegion));

      Calls := Calls + [DdbPutState(StateTable(awsRegion), Persisted())];
      if stored.Fail? {
        return stored;
      }
      err := Authenticate(awsRegion, privateKeyID, privateKey, transport, pull);
    }

    /** Creates a check run on the pull request's head; the host's answer
        becomes the active run and, on success, its name the check run name. */
    method CreateNewCheckRun(created: Result<CheckRun, string>) returns (err: Outcome<string>)
      requires Client.Some? && PR.Some? && CheckRunName.Some? && RepoOwner.Some? && RepoName.Some?
      modifies this`ActiveCheckRun, this`CheckRunName, this`Calls
      ensures Calls == old(Calls) +
        [ChecksCreateCheckRun(GetOwner(), GetRepo(), CreationOptions(old(GetCheckRunName()), PR.value.Head))]
      ensures ActiveCheckRun == created.ToOption()
      ensures CheckRunName == if created.Ok? then created.value.Name else old(CheckRunName)
      ensures err == created.ToOutcome()
    {
      var opts := CreationOptions(GetCheckRunName(), PR.value.Head);
      Calls := Calls + [ChecksCreateCheckRun(GetOwner(), GetRepo(), opts)];
      ActiveCheckRun, err := created.ToOption(), created.ToOutcome();
      if created.Err? {
        return;
      }
      CheckRunName := created.value.Name;
    }

    /** Looks up the latest check run of this name on the pull request's
        head; it becomes the active run only if it has not concluded. */
    method SetActiveCheckRun(listed: Result<seq<CheckRun>, string>) returns (err: Outcome<string>)
      requires Client.Some? && PR.Some? && CheckRunName.Some? && RepoOwner.Some? && RepoName.Some?
      modifies this`ActiveCheckRun, this`Calls
      ensures Calls == old(Calls) +
        [ChecksListCheckRunsForRef(GetOwner(), GetRepo(), GetRef(PR.value.Head), LatestRunsNamed(GetCheckRunName()))]
      ensures err.Pass? <==> listed.Ok? && |listed.value| > 0 && IsActive(listed.value[0])
      ensures err.Pass? ==> ActiveCheckRun == Some(listed.value[0])
      ensures err.Fail? ==> ActiveCheckRun == old(ActiveCheckRun)
      ensures listed.Err? ==> err == Fail(listed.error)
      ensures listed.Ok? && err.Fail? ==> err == Fail(ERR_NO_ACTIVE_CHECK_RUNS)
    {
      Calls := Calls +
        [ChecksListCheckRunsForRef(GetOwner(), GetRepo(), GetRef(PR.value.Head), LatestRunsNamed(GetCheckRunName()))];
      if listed.Err? {
        return Fail(listed.error);
      }
      var runs := listed.value;
      if |runs| == 0 || GetConclusion(runs[0]) != "" {
        return Fail(ERR_NO_ACTIVE_CHECK_RUNS);
      }
      ActiveCheckRun := Some(runs[0]);
      err := Pass;
    }

    /** Re-reads the active run by its id; the answer replaces it. */
    method UpdateActiveCheckRun(fetched: Result<CheckRun, string>) returns (err: Outcome<string>)
      requires Client.Some? && RepoOwner.Some? && RepoName.Some?
      modifies this`ActiveCheckRun, this`Calls
      ensures Calls == old(Calls) + [ChecksGetCheckRun(GetOwner(), GetRepo(), GetID(old(ActiveCheckRun)))]
      ensures ActiveCheckRun == fetched.ToOption()
      ensures err == fetched.ToOutcome()
    {
      Calls := Calls + [ChecksGetCheckRun(GetOwner(), GetRepo(), GetID(ActiveCheckRun))];
      ActiveCheckRun, err := fetched.ToOption(), fetched.ToOutcome();
    }

    /** Marks the active run completed with the given conclusion and summary;
        the host's answer replaces it. */
    method ConcludeCheckRun(summary: Option<string>, conclusion: Option<string>, now: Timestamp,
                            updated: Result<CheckRun, string>)
      returns (err: Outcome<string>)
      requires Client.Some? && RepoOwner.Some? && RepoName.Some?
      modifies this`ActiveCheckRun, this`Calls
      ensures Calls == old(Calls) + [ChecksUpdateCheckRun(GetOwner(), GetRepo(), GetID(old(ActiveCheckRun)),
                                       ConclusionOptions(old(ActiveCheckRun), summary, conclusion, now))]
      ensures ActiveCheckRun == updated.ToOption()
      ensures err == updated.ToOutcome()
    {
      var opts := ConclusionOptions(ActiveCheckRun, summary, conclusion, now);
      Calls := Calls + [ChecksUpdateCheckRun(GetOwner(), GetRepo(), GetID(ActiveCheckRun), opts)];
      ActiveCheckRun, err := updated.ToOption(), updated.ToOutcome();
    }

    /** Reports a status (and, if given, a summary) on the active run; the
        host's answer replaces it. */
    method UpdateCheckRunStatus(status: Option<string>, summary: Option<string>,
                                updated: Result<CheckRun, string>)
      returns (err: Outcome<string>)
      requires Client.Some? && RepoOwner.Some? && RepoName.Some? && PR.Some? && PR.value.Head.Some?
      modifies this`ActiveCheckRun, this`Calls
      ensures Calls == old(Calls) + [ChecksUpdateCheckRun(GetOwner(), GetRepo(), GetID(old(ActiveCheckRun)),
                                       StatusOptions(old(ActiveCheckRun), PR.value.Head.value, status, summary))]
      ensures ActiveCheckRun == updated.ToOption()
      ensures err == updated.ToOutcome()
    {
      var opts := StatusOptions(ActiveCheckRun, PR.value.Head.value, status, summary);
      Calls := Calls + [ChecksUpdateCheckRun(GetOwner(), GetRepo(), GetID(ActiveCheckRun), opts)];
      ActiveCheckRun, err := updated.ToOption(), updated.ToOutcome();
    }

    /** Removes the state record under the fixed key. */
    method DeleteState(deleted: Outcome<string>) returns (err: Outcome<string>)
      requires State.Some?
      modifies this`Calls
      ensures Calls == old(Calls) + [DdbDeleteState(State.value, INTEGRATION_KEY)]
      ensures err == deleted
    {
      Calls := Calls + [DdbDeleteState(State.value, INTEGRATION_KEY)];
      err := deleted;
    }
  }

  /** Validation names exactly the first absent attribute of the fixed
      order, whatever follows it. */
  lemma ValidateStateNamesFirstAbsent(gh: Integration, i: nat)
    requires i < |VALIDATION_ORDER| && FirstAbsent(gh.Persisted(), i)
    ensures gh.ValidateState() == Fail(MissingAttributeError(VALIDATION_ORDER[i]))
  {
    var rec := gh.Persisted();
    if i > 0 { assert Get(rec, VALIDATION_ORDER[0]).Some?; }
    if i > 1 { assert Get(rec, VALIDATION_ORDER[1]).Some?; }
    if i > 2 { assert Get(rec, VALIDATION_ORDER[2]).Some?; }
    if i > 3 { assert Get(rec, VALIDATION_ORDER[3]).Some?; }
    if i > 4 { assert Get(rec, VALIDATION_ORDER[4]).Some?; }
  }

  /** Distinct attributes are reported by distinct errors, so the error
      identifies the attribute. */
  lemma MissingAttributeErrorsDistinct(a: Attribute, b: Attribute)
    requires a != b
    ensures MissingAttributeError(a) != MissingAttributeError(b)
  {
  }

  /** Round trip through the state record: a session configured from scratch
      writes a record; a fresh session resumed from that record holds the same
      attributes, authenticates as the same app installation and reads back
      the pull request number given. */
  method ResumeFromWrittenRecord(awsRegion: string, secretName: string, repoOwner: string, repoName: string,
                                 checkRunName: string, installationID: nat, integrationID: nat, prNum: nat,
                                 privateKey: Result<string, string>, transport: Outcome<string>,
                                 pull: Result<PullRequest, string>)
    returns (written: Record, resumed: Record, number: int, first: Option<AppClient>, second: Option<AppClient>)
    requires installationID <= MAX_INT && integrationID <= MAX_INT && prNum <= MAX_INT
    ensures written == ScratchRecord(repoOwner, repoName, checkRunName,
                                     FormatNat(installationID), FormatNat(integrationID), FormatNat(prNum))
    ensures resumed == written
    ensures number == prNum
    ensures first == second
    ensures first.Some? <==> privateKey.Ok? && transport.Pass?
    ensures first.Some? ==> first.value == AppClient(integrationID, installationID)
  {
    AtoiOfFormatNat(installationID);
    AtoiOfFormatNat(integrationID);
    AtoiOfFormatNat(prNum);
    DigitsValueOfFormatNat(installationID);
    DigitsValueOfFormatNat(integrationID);
    DigitsValueOfFormatNat(prNum);
    var scratch := new Integration();
    var err1 := scratch.ConfigFromScratch(awsRegion, secretName, repoOwner, repoName, checkRunName,
                                          FormatNat(installationID), FormatNat(integrationID), FormatNat(prNum),
                                          Pass, privateKey, transport, pull);
    written := scratch.Persisted();
    assert scratch.Calls[0] == DdbPutState(StateTable(awsRegion), written);
    var resuming := new Integration();
    var err2 := resuming.ConfigFromState(awsRegion, secretName, Ok(written), privateKey, transport, pull);
    resumed := resuming.Persisted();
    number := resuming.GetPrNum();
    first, second := scratch.Client, resuming.Client;
  }
}
