# AppSync test sweepers, modelled in Dafny

The Terraform AWS provider ships "sweepers": routines that the acceptance-test
runner calls to delete AppSync resources left behind by tests in a region.
`internal/service/appsync/sweep.go` has three of them: `sweepGraphQLAPIs`,
`sweepDomainNames` and `sweepDomainNameAssociations`. They share one control
flow. Each one acquires a regional client, then calls a list operation and
follows `NextToken` until it is empty. Every listed item becomes one sweepable
resource keyed by its id. A list error that `SkipSweepError` classifies as
skip returns nil at once. Any other list error is appended to a multi-error
and ends the loop. The collected resources go to the sweep orchestrator, and
its failure is appended too. The routine returns the multi-error, or nil when
nothing was appended. The file's `init` registers the three sweepers with the
runner and declares that the domain-name sweeper depends on the association
sweeper.

The model has three files:

- `sweep.dfy` (module `AppSyncSweep`) holds the shared routine. It is written once,
  generic in the sweeper kind and the error type. `Sweep` is the imperative
  routine: a paging loop with the inner per-item loop in `AppendUnits`, with
  mutable requests, units and errors and the same early exits as Go. `Expected`
  states the same run without a loop: the last call is the first response that
  ends the loop (`LastCall`), and the units are the pages' items concatenated
  (`Harvest`). `Sweep` is proved equal to `Expected`.
- `sweep_properties.dfy` (module `SweepProperties`) holds the lemmas about `Expected`.
- `registry.dfy` (module `SweeperRegistry`) models `init`. The registry is a class
  whose map field `AddTestSweepers` updates.

These parts of the environment become inputs:

- the client-acquisition error becomes `clientErr`;
- the list client becomes the function `list`, which gives, for each list
  operation (`ListGraphqlApis`, `ListDomainNames`), the sequence of its
  responses: the i-th call of that operation gets the i-th response. A listed
  record carries both optional id fields (`ApiId`, `DomainName`), and each
  sweeper pages through its own operation (`ListOperationOf`) and reads its own
  field (`IdFieldOf`, `IdOf`);
- `SkipSweepError` becomes the parameter `isSkip`, which takes a Go error that
  may be nil (`None`);
- the orchestrator becomes the function `orchestrate`, from the batch of units
  to its error.

`isSkip` also sees nil because the source calls it on nil. Line 54 calls it on
every list response, including successful pages. Line 88 calls it on the `err`
declared at line 42, which is the client-acquisition error. The loop's `err`
(line 53) and the orchestrator's `err` (line 84) are declared with `:=` in
inner scopes and shadow it. So line 88 always classifies nil.
`FinalCheckIgnoresCollectedErrors` and `SkippedOrchestratorErrorIsReturned`
state what follows from this.

Go `*string` values (`NextToken`, `ApiId`, `DomainName`) are modelled as
`Option<string>`, and `aws.StringValue` reads nil as `""`.

## Model

| member | source | states |
|---|---|---|
| `AppSyncSweep.Sweep` | internal/service/appsync/sweep.go:40-94 | The routine's observed run, meaning the tokens of its list calls, the units it hands the orchestrator, the errors it appends and what it returns, equals `Expected`. The same routine appears at lines 96-150 and 152-206. |
| `AppSyncSweep.AppendUnits` | internal/service/appsync/sweep.go:66-75 | The per-item loop appends to the collected units one unit per item of the page, in item order, each with the item's id. |
| `AppSyncSweep.LastCall` | internal/service/appsync/sweep.go:52-82 | The last list call answers the first response that ends the loop: a skip error, any other error, or a page whose NextToken is empty. Every earlier response is a page that the loop continues past. |
| `SweepProperties.HarvestLength` | internal/service/appsync/sweep.go:66-75 | There is exactly one unit per listed item. Nothing is dropped, and duplicate ids are kept. |
| `SweepProperties.HarvestAt` | internal/service/appsync/sweep.go:66-75 | Item j of page p becomes the unit that follows all units of the earlier pages, so pages are concatenated in page order. That unit has the sweeper's kind and the item's id. |
| `SweepProperties.HarvestIdsSameField` | internal/service/appsync/sweep.go:122-130 | Two sweepers that read the same id field of the listed records collect the same ids from the same pages. |
| `SweepProperties.LastCallAt` | internal/service/appsync/sweep.go:52-82 | A response that ends the loop, with only continuing pages before it, is the last call. |
| `SweepProperties.ClientFailureMakesNoCall` | internal/service/appsync/sweep.go:42-45 | A client-acquisition failure returns a non-nil client error. No list call is made, the orchestrator is not called, and nothing is appended. |
| `SweepProperties.PaginationFollowsTokens` | internal/service/appsync/sweep.go:50-81 | The first call carries no token. Every later call carries the non-empty NextToken of the page just returned. No call follows a response that ends the loop, in particular the first page whose token is empty. The number of calls is one past `LastCall`, and the last call's response ends the loop. |
| `SweepProperties.SkipErrorDropsEverything` | internal/service/appsync/sweep.go:53-57 | A skip-classified list error on any page, a later page included, returns nil after that call. The orchestrator is not called, no error is appended, and the earlier pages' units are dropped. |
| `SweepProperties.FatalErrorKeepsEarlierUnits` | internal/service/appsync/sweep.go:59-64 | A non-skip list error appends exactly one read error and ends the loop. The earlier pages' units still reach the orchestrator. The errors are that read error followed by the orchestrator's error, if any. The result is non-nil when nil is not skip-classified. |
| `SweepProperties.ResultNilIffNoErrors` | internal/service/appsync/sweep.go:84-93 | Suppose nil is not skip-classified. Then the result is nil if and only if no error was appended, and a non-nil result carries all appended errors. At most two errors are appended: first a read error, then an orchestrator error. |
| `SweepProperties.FinalCheckIgnoresCollectedErrors` | internal/service/appsync/sweep.go:88-91 | With a client, the result is nil if and only if the classifier calls nil skip or no error was appended. The check after the sweep never looks at the collected errors. |
| `SweepProperties.SkippedOrchestratorErrorIsReturned` | internal/service/appsync/sweep.go:84-93 | An orchestrator error that the classifier would call skip is still appended and returned. |
| `SweepProperties.AllPagesSwept` | internal/service/appsync/sweep.go:52-86 | Suppose the loop ends at a page with an empty token. Then the orchestrator gets the units of every page up to and including that one, one per item. The only error appended can be the orchestrator's. |
| `SweepProperties.EmptyScopeIsNotAnError` | internal/service/appsync/sweep.go:52-93 | An empty first page leads to one call and an empty batch. With a successful orchestrator, there are no errors and the result is nil. |
| `SweepProperties.SecondPageFails` | internal/service/appsync/sweep.go:52-86 | Let page one list "w1" and the second call fail with a non-skip error. Then "w1" is still swept, and the run returns exactly one read error. |
| `SweepProperties.AssociationsSweepDomainNameIds` | internal/service/appsync/sweep.go:162-186 | The association sweeper calls the same list operation (`ListDomainNames`, as at lines 106-130) and reads the same DomainName field as the domain-name sweeper. Against the same client, both make the same calls and sweep the same ids. |
| `SweepProperties.GraphQLAPIsSweepOtherIds` | internal/service/appsync/sweep.go:50-75 | The GraphQL API sweeper calls `ListGraphqlApis` and reads `ApiId`. Against a client that lists one API and one domain name, it sweeps the API's id, while the domain-name sweeper sweeps the domain name. |
| `SweeperRegistry.DeclaredTable` | internal/service/appsync/sweep.go:20-38 | The registry has three sweepers, each filed under its own name and running its own routine. Only `aws_appsync_domain_name` has a dependency, `aws_appsync_domain_name_api_association`. That sweeper is registered and has no dependency of its own, so there is no cycle. |
| `SweeperRegistry.Registry.Init` | internal/service/appsync/sweep.go:20-38 | `init` adds exactly the declared table to the registry. |
| `SweeperRegistry.Registry.AddTestSweepers` | internal/service/appsync/sweep.go:21-24 | A registration files the sweeper under the given name and changes nothing else. |

## Left out

- AppSyncSweep.Sweep: needs the sweeper's list operation to give a response sequence with a response that ends the loop (or a client failure). The Go loop has no page bound and loops forever against a service that always returns a non-empty token; the model does not cover that non-terminating run.
- The AWS SDK calls, `SharedRegionalSweepClient`, `AppSyncConn` and `sweep.Context`. They appear as the `clientErr` input and the `list` function.
- The classification rules of `SkipSweepError` live in `internal/sweep`, which is not part of this model. They are the uninterpreted parameter `isSkip`.
- `SweepOrchestratorWithContext` and `NewSweepResource`, meaning the deletion itself, its concurrency and its own error handling. They live in `internal/sweep`, which is not part of this model. The orchestrator is the parameter `orchestrate`, and a unit is just its kind and id.
- The terraform-plugin-testing runner: the order in which it runs sweepers by their dependencies, and the duplicate-name check of `AddTestSweepers`. They are not in this file. Registration is modelled as a map insertion.
- Schema construction (`ResourceGraphQLAPI().Data(nil)`, `d.SetId`) beyond "a unit carries this id".
- The region argument, log output, the text of error messages and the build tags. Errors keep only their kind (client, read or orchestrator error, tagged with the sweeper) and their cause.
