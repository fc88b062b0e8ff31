# runsimgh integration session, modelled in Dafny

This project models the `Integration` session object of `lib/runsimgh`. The
object ties together four things:

- a state record kept in a DynamoDB table,
- an authenticated GitHub App client,
- a fetched pull request,
- the check run currently being reported on (the "active" check run).

The session is built in one of two ways. `ConfigFromScratch` assigns explicit
identifiers, writes the record, then authenticates. `ConfigFromState` loads
the record, validates it, then authenticates. After that the caller creates
or locates a check run, refreshes it, reports status on it, concludes it, and
finally deletes the record.

Files:

- `wrappers.dfy`: `Option` (a Go pointer that may be nil), `Result` (a call's
  answer or error) and `Outcome` (a Go `error`).
- `strconv.dfy`: Go's `strconv.Atoi` on a 64-bit platform, with the decimal
  spelling of a natural number as its partner and round-trip lemmas.
- `github.dfy`: the GitHub API objects and option records that the session
  reads and sends, plus the library's nil-safe getters (`GetRef`, `GetSHA`,
  `GetID`, `GetName`, `GetConclusion`).
- `runsimaws.dfy`: the table handle (region, partition-key name, table name).
- `runsimgh.dfy`: the constants, the persisted `Record`, validation order, the
  payload builders, and the class `Integration` with its methods.

No I/O is modelled. Every answer of the outside world is an extra method
parameter:

- the stored item,
- the result of the store write and delete,
- the SSM secret,
- the outcome of building the app transport,
- each GitHub response.

The wall-clock time used by `ConcludeCheckRun` is also a parameter (`now`).
The ghost field `Integration.Calls` records every request the session sends,
in order, with its full payload. The ordering and "not attempted" properties
are stated on that field.

Behaviours of the code worth knowing, all modelled as written:

- **Client set before the pull-request fetch.** Both configuration paths
  install `Client` before they fetch the pull request. A failed fetch
  therefore returns an error with `Client` set and `PR` nil. It does not leave
  the session unauthenticated.
- **No active run is not a violation.** The library's getters are nil-safe.
  So `UpdateActiveCheckRun` and `ConcludeCheckRun` with no active run send
  check-run id 0 and an empty name. They do not violate a precondition.
- **A failed call clears the active run.** When a create, get or update call
  fails, the library returns nil. That nil replaces `ActiveCheckRun`, so the
  active run becomes None. `SetActiveCheckRun` is the exception: it leaves the
  active run unchanged on every error.
- **The check-run name can become unset.** `CreateNewCheckRun` copies the
  created run's name pointer into `CheckRunName`. A response without a name
  leaves `CheckRunName` unset.
- **No argument checks on the scratch path.** `ConfigFromScratch` does not
  check that its arguments are non-empty before it writes the record.
- **Error text kept verbatim.** The `InstallationID` validation error has a
  trailing space in the source. The model keeps it.

A Go `panic` is modelled as a precondition. These cases cause one:

- a nil field dereferenced through a getter, or `PR` / `PR.Head`
  dereferenced;
- a nil `Client` dereferenced by any call to the host (`CreateNewCheckRun`,
  `SetActiveCheckRun`, `UpdateActiveCheckRun`, `ConcludeCheckRun`,
  `UpdateCheckRunStatus`), hence `requires Client.Some?` on each;
- a stored id that `strconv.Atoi` rejects.

`DeleteState` also requires `State` to be set. This is an assumption: the
table handle's `DeleteState` is not part of this model, and the model takes
a call on a nil handle to abort.

For the two configuration methods, the precondition is stated on the inputs
and only for the step at which the panic would happen (`NumericIDsParse`).

## Model

| member | source | states |
|---|---|---|
| `RunSimGh.Integration.ValidateState` | lib/runsimgh/runsimgh.go:227-247 | validation passes exactly when all six required attributes are present |
| `RunSimGh.ValidateStateNamesFirstAbsent` | lib/runsimgh/runsimgh.go:228-245 | if an attribute is the first absent one in the order IntegrationID, InstallationID, PrNum, RepoName, RepoOwner, CheckRunName, validation fails with that attribute's error, whatever else is absent |
| `RunSimGh.MissingAttributeErrorsDistinct` | lib/runsimgh/runsimgh.go:228-245 | the six missing-attribute errors are pairwise distinct, so the error identifies the attribute |
| `RunSimGh.Integration.GetOwner` | lib/runsimgh/runsimgh.go:191-193 | returns the stored owner; requires it to be set (nil dereference otherwise) |
| `RunSimGh.Integration.GetRepo` | lib/runsimgh/runsimgh.go:195-197 | returns the stored repository name; requires it to be set |
| `RunSimGh.Integration.GetCheckRunName` | lib/runsimgh/runsimgh.go:199-201 | returns the stored check run name; requires it to be set |
| `RunSimGh.Integration.GetPrNum` | lib/runsimgh/runsimgh.go:203-209 | requires the stored number to parse (it panics otherwise); the result is a 64-bit value and, for a digit string, the number the digits spell |
| `RunSimGh.Integration.GetAppInstID` | lib/runsimgh/runsimgh.go:211-217 | the same for the installation id |
| `RunSimGh.Integration.GetAppIntID` | lib/runsimgh/runsimgh.go:219-225 | the same for the app (integration) id |
| `StrConv.Atoi` | lib/runsimgh/runsimgh.go:204 | a string parses only if it is one or more ASCII digits, optionally after one '+' or '-'; the value lies in the 64-bit range and is the value of the digits, negated after '-' |
| `StrConv.AtoiOfDigits` | lib/runsimgh/runsimgh.go:204 | a digit string parses exactly when its value fits in 64 bits, and then to that value |
| `StrConv.AtoiOfFormatNat` | lib/runsimgh/runsimgh.go:203-225 | every non-negative 64-bit number parses back from its decimal spelling |
| `StrConv.AtoiOfNegated` | lib/runsimgh/runsimgh.go:203-225 | "-" followed by a spelling parses to its negation, down to the most negative 64-bit value |
| `StrConv.AtoiPlusSign` | lib/runsimgh/runsimgh.go:204 | a leading "+" is accepted and changes nothing |
| `RunSimGh.Overlay` | lib/runsimgh/runsimgh.go:39 | loading an item into the session replaces each attribute the item carries and keeps each one it lacks; a complete item with its type set is loaded exactly |
| `RunSimGh.ScratchRecord` | lib/runsimgh/runsimgh.go:69-75 | the scratch record carries the six arguments and integration type "GitHub", so it passes validation |
| `RunSimGh.Integration.SetAttributes` | lib/runsimgh/runsimgh.go:69-75 | afterwards the persisted attributes are exactly the given record |
| `RunSimGh.Integration.Authenticate` | lib/runsimgh/runsimgh.go:47-63 | requests the secret, then the app transport for the numeric ids, then the pull request, stopping at the first failure and reporting its error; the client is installed, and the fetch answer becomes PR, only when secret and transport both succeed |
| `RunSimGh.Integration.ConfigFromState` | lib/runsimgh/runsimgh.go:35-64 | always binds the table and reads key "GitHub". A load error changes no attribute and a validation error is reported; in both cases nothing else is requested, and client and PR are unchanged. Otherwise the attributes are the loaded overlay and authentication follows |
| `RunSimGh.Integration.ConfigFromScratch` | lib/runsimgh/runsimgh.go:67-99 | assigns the six arguments and type "GitHub", then writes that record before anything else is requested. On a write failure it returns that error, requests nothing more, and leaves client and PR unchanged; otherwise authentication follows |
| `RunSimGh.CreationOptions` | lib/runsimgh/runsimgh.go:102-106 | the create payload carries the check run name and the pull request head's branch and SHA; each is empty when the head, or that field of it, is missing |
| `RunSimGh.Integration.CreateNewCheckRun` | lib/runsimgh/runsimgh.go:101-116 | sends that payload; the answer replaces the active run; the check run name becomes the created run's name on success and is untouched on error |
| `RunSimGh.LatestRunsNamed` | lib/runsimgh/runsimgh.go:123-126 | the listing filter names the check run and asks for the "latest" runs only |
| `RunSimGh.Integration.SetActiveCheckRun` | lib/runsimgh/runsimgh.go:120-135 | succeeds iff the listing succeeds and its first run has an empty conclusion, and then that run becomes the active run; a listing error is returned as is; otherwise the error is ErrorNoActiveCheckRunsFound; on every error the active run is unchanged |
| `RunSimGh.Integration.UpdateActiveCheckRun` | lib/runsimgh/runsimgh.go:139-146 | requests the run by the active run's id; the answer (nil on error) replaces the active run |
| `RunSimGh.ConclusionOptions` | lib/runsimgh/runsimgh.go:149-159 | the conclude payload has the active run's name, status "completed", the completion time, the conclusion verbatim, and output titled "Details" with the summary verbatim |
| `RunSimGh.Integration.ConcludeCheckRun` | lib/runsimgh/runsimgh.go:148-165 | sends that payload for the active run's id; the answer replaces the active run |
| `RunSimGh.StatusOptions` | lib/runsimgh/runsimgh.go:168-179 | the status payload carries the head branch and SHA and the given status; it has an output titled "Details" iff a summary is given; it never sets a conclusion or a completion time |
| `RunSimGh.Integration.UpdateCheckRunStatus` | lib/runsimgh/runsimgh.go:167-185 | sends that payload for the active run's id; the answer replaces the active run |
| `RunSimGh.Integration.DeleteState` | lib/runsimgh/runsimgh.go:187-189 | requests deletion under key "GitHub", the key ConfigFromState reads and ConfigFromScratch writes; returns the store's outcome and changes no field |
| `RunSimGh.ResumeFromWrittenRecord` | lib/runsimgh/runsimgh.go:35-99 | a fresh session resumed from the record a scratch configuration wrote holds the same attributes and authenticates as the same app installation; the pull request number reads back as the one given |

## Left out

- The internals of the DynamoDB table and of SSM (`GetState`, `PutState`, `DeleteState`, `GetParameter` in `runsimaws`): that package is not part of this model, so only their outcomes are inputs. Whether deleting an absent record succeeds is up to the store, so idempotence of `DeleteState` is not stated.
- Which fields of the Go struct the store encodes: only the seven string attributes are the persisted `Record`. A decode that fails part-way is modelled as changing no field.
- The `ghinstallation` transport, the HTTP client and `context.Background()`: these are foreign network code, modelled as outcomes.
- `time.Now()` in `ConcludeCheckRun`: this is wall-clock I/O, so the time is the `now` parameter.
- The last-writer-wins race on the shared state record: it is concurrency between processes, and the code has no versioning to model.
- The HTTP response values the code discards (`_`). They are never read.
- `cmd/gensymbols/walker_test.go`: it tests an `Extract` function that is not part of this model, and it uses filesystem I/O.
- `StrConv.Atoi`: modelled for a 64-bit `int`. The 32-bit platform range is not modelled.
- `RunSimGh.Integration.GetPrNum`, `GetAppInstID`, `GetAppIntID`: these state the parsed value only for plain digit strings. For a signed spelling the value follows from the contract of `StrConv.Atoi`, which states it for a leading '-' or '+'.
