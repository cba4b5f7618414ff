/** The AppSync test sweepers of a Terraform provider.

    internal/service/appsync/sweep.go writes one routine three times:
    sweepGraphQLAPIs, sweepDomainNames and sweepDomainNameAssociations.
    Each acquires a client, pages through a list operation by following
    NextToken, turns every listed item into a sweepable unit keyed by its
    id, classifies list errors, hands the units to the sweep orchestrator
    and returns a multi-error.  This module models that routine once,
    generically in the sweeper's Kind and in the error type F:

    - the list client answers each list operation with the finite sequence
      of its responses, and the sweeper pages through the one its kind calls,
    - SkipSweepError is the classifier `isSkip`, applied like the source
      applies it, to Go errors that may be nil (None),
    - the orchestrator is the function `orchestrate` from the units it is
      given to its error, if any.

    `Sweep` is the imperative routine; `Expected` states declaratively what
    one run observes, and `Sweep` is proved to agree with it. */
module AppSyncSweep {

  datatype Option<+T> = None | Some(value: T)

  /** aws.StringValue: the string a *string points to, "" for nil. */
  function StringValue(p: Option<string>): string
  {
    if p.Some? then p.value else ""
  }

  /** The three sweepers of the file. */
  datatype Kind = GraphQLAPIs | DomainNames | DomainNameAssociations

  /** The AppSync list call a sweeper pages through. */
  datatype ListOperation = ListGraphqlApis | ListDomainNames

  /** The field of a listed record that becomes the unit's id. */
  datatype IdField = ApiId | DomainNameField

  function ListOperationOf(kind: Kind): ListOperation
  {
    match kind
    case GraphQLAPIs => ListGraphqlApis
    case DomainNames => ListDomainNames
    case DomainNameAssociations => ListDomainNames
  }

  function IdFieldOf(kind: Kind): IdField
  {
    match kind
    case GraphQLAPIs => ApiId
    case DomainNames => DomainNameField
    case DomainNameAssociations => DomainNameField
  }

  /** A listed record (a GraphqlApi or a DomainNameConfig), by the pointers
      in its ApiId and DomainName fields; nil where it has no such field. */
  datatype Item = Item(apiId: Option<string>, domainName: Option<string>)

  /** The field of the record that the sweeper reads as the unit's id. */
  function IdOf(kind: Kind, item: Item): Option<string>
  {
    match IdFieldOf(kind)
    case ApiId => item.apiId
    case DomainNameField => item.domainName
  }

  /** One answer of the list call: a page (its records and its NextToken),
      or the error returned. */
  datatype Response<F> =
    | Page(items: seq<Item>, nextToken: Option<string>)
    | ListError(cause: F)

  /** A sweepable resource: the sweeper's resource schema with its id set. */
  datatype Unit = Unit(kind: Kind, id: string)

  /** The errors a sweeper can return; Multi is a *multierror.Error. */
  datatype SweepError<F> =
    | ClientError(cause: F)
    | ReadError(kind: Kind, cause: F)
    | OrchestratorError(kind: Kind, cause: F)
    | Multi(errors: seq<SweepError<F>>)

  /** The Go `err` that comes back with a response: nil for a page. */
  function ErrOf<F>(r: Response<F>): Option<F>
  {
    if r.ListError? then Some(r.cause) else None
  }

  /** The NextToken a response carries (nil for an error). */
  function NextTokenOf<F>(r: Response<F>): Option<string>
  {
    if r.Page? then r.nextToken else None
  }

  /** The loop does not ask for another page after this response: it was
      classified skip, it was another error, or its NextToken is empty. */
  predicate EndsLoop<F>(r: Response<F>, isSkip: Option<F> -> bool)
  {
    isSkip(ErrOf(r)) || r.ListError? || StringValue(r.nextToken) == ""
  }

  /** Some response of the sequence ends the loop. */
  predicate Ends<F>(rs: seq<Response<F>>, isSkip: Option<F> -> bool)
  {
    exists i :: 0 <= i < |rs| && EndsLoop(rs[i], isSkip)
  }

  lemma EndsTail<F>(rs: seq<Response<F>>, isSkip: Option<F> -> bool)
    requires Ends(rs, isSkip) && !EndsLoop(rs[0], isSkip)
    ensures Ends(rs[1..], isSkip)
  {
    var i :| 0 <= i < |rs| && EndsLoop(rs[i], isSkip);
    assert rs[1..][i - 1] == rs[i];
  }

  /** The index of the last list call: the first response that ends the loop. */
  function LastCall<F>(rs: seq<Response<F>>, isSkip: Option<F> -> bool): (k: nat)
    requires Ends(rs, isSkip)
    ensures k < |rs| && EndsLoop(rs[k], isSkip)
    ensures forall j :: 0 <= j < k ==> !EndsLoop(rs[j], isSkip)
  {
    if EndsLoop(rs[0], isSkip) then 0
    else
      EndsTail(rs, isSkip);
      var k := LastCall(rs[1..], isSkip);
      assert forall j :: 1 <= j < 1 + k ==> rs[j] == rs[1..][j - 1];
      1 + k
  }

  /** The NextToken each of the calls 0 .. k carries: nil first, then the
      token of the response before. */
  function Requests<F>(rs: seq<Response<F>>, k: nat): seq<Option<string>>
    requires k < |rs|
  {
    seq(k + 1, j requires 0 <= j <= k => if j == 0 then None else NextTokenOf(rs[j - 1]))
  }

  /** The units one response contributes: one per item, in item order. */
  function PageUnits<F>(kind: Kind, r: Response<F>): seq<Unit>
  {
    if r.Page? then seq(|r.items|, j requires 0 <= j < |r.items| => Unit(kind, StringValue(IdOf(kind, r.items[j]))))
    else []
  }

  /** The units of the first n responses, page after page. */
  function Harvest<F>(kind: Kind, rs: seq<Response<F>>, n: nat): seq<Unit>
    requires n <= |rs|
  {
    if n == 0 then [] else Harvest(kind, rs, n - 1) + PageUnits(kind, rs[n - 1])
  }

  /** The error appended for the response that ended the loop, if any. */
  function ListErrors<F>(kind: Kind, last: Response<F>): seq<SweepError<F>>
  {
    if last.ListError? then [ReadError(kind, last.cause)] else []
  }

  /** The error appended for the orchestrator's outcome, if any. */
  function OrchestratorErrors<F>(kind: Kind, outcome: Option<F>): seq<SweepError<F>>
  {
    if outcome.Some? then [OrchestratorError(kind, outcome.value)] else []
  }

  /** multierror's ErrorOrNil: nil when nothing was appended. */
  function ErrorOrNil<F>(errs: seq<SweepError<F>>): Option<SweepError<F>>
  {
    if errs == [] then None else Some(Multi(errs))
  }

  /** What a run observes: the token of every list call made, the units
      handed to the orchestrator (None when it is not called), the errors
      appended and the returned error (None for nil). */
  datatype Run<F> = Run(
    requests: seq<Option<string>>,
    swept: Option<seq<Unit>>,
    errors: seq<SweepError<F>>,
    result: Option<SweepError<F>>)

  /** The run of one sweeper, stated without a loop. */
  function Expected<F>(kind: Kind, clientErr: Option<F>, rs: seq<Response<F>>,
                       isSkip: Option<F> -> bool, orchestrate: seq<Unit> -> Option<F>): Run<F>
    requires clientErr.Some? || Ends(rs, isSkip)
  {
    if clientErr.Some? then Run([], None, [], Some(ClientError(clientErr.value)))
    else
      var k := LastCall(rs, isSkip);
      if isSkip(ErrOf(rs[k])) then Run(Requests(rs, k), None, [], None)
      else
        var units := Harvest(kind, rs, k + 1);
        var errs := ListErrors(kind, rs[k]) + OrchestratorErrors(kind, orchestrate(units));
        // the check after the sweep classifies the client error, nil by now
        Run(Requests(rs, k), Some(units), errs, if isSkip(clientErr) then None else ErrorOrNil(errs))
  }

  /** The inner loop over one page: one unit per item, appended in order. */
  method AppendUnits<F>(kind: Kind, units: seq<Unit>, page: Response<F>) returns (r: seq<Unit>)
    requires page.Page?
    ensures r == units + PageUnits(kind, page)
  {
    r := units;
    var j := 0;
    while j < |page.items|
      invariant 0 <= j <= |page.items|
      invariant r == units + PageUnits(kind, page)[..j]
    {
      r := r + [Unit(kind, StringValue(IdOf(kind, page.items[j])))];
      assert PageUnits(kind, page)[..j + 1] == PageUnits(kind, page)[..j] + [PageUnits(kind, page)[j]];
      j := j + 1;
    }
  }

  lemma RequestsNext<F>(rs: seq<Response<F>>, i: nat)
    requires i < |rs|
    ensures Requests(rs, i) == (if i == 0 then [] else Requests(rs, i - 1)) + [if i == 0 then None else NextTokenOf(rs[i - 1])]
  {
  }

  // ExpectedSkipped and ExpectedSwept restate the two branches of Expected
  // after a client was acquired; they keep Sweep's proof small.

  lemma ExpectedSkipped<F>(kind: Kind, rs: seq<Response<F>>, isSkip: Option<F> -> bool, orchestrate: seq<Unit> -> Option<F>)
    requires Ends(rs, isSkip) && isSkip(ErrOf(rs[LastCall(rs, isSkip)]))
    ensures Expected(kind, None, rs, isSkip, orchestrate) == Run(Requests(rs, LastCall(rs, isSkip)), None, [], None)
  {
  }

  lemma ExpectedSwept<F>(kind: Kind, rs: seq<Response<F>>, isSkip: Option<F> -> bool, orchestrate: seq<Unit> -> Option<F>)
    requires Ends(rs, isSkip) && !isSkip(ErrOf(rs[LastCall(rs, isSkip)]))
    ensures var k := LastCall(rs, isSkip);
      var units := Harvest(kind, rs, k + 1);
      var errs := ListErrors(kind, rs[k]) + OrchestratorErrors(kind, orchestrate(units));
      Expected(kind, None, rs, isSkip, orchestrate) ==
        Run(Requests(rs, k), Some(units), errs, if isSkip(None) then None else ErrorOrNil(errs))
  {
  }

  /** One sweeper run.  `clientErr` is the error of acquiring the client;
      the i-th call of list operation op is answered by list(op)[i]. */
  method Sweep<F>(kind: Kind, clientErr: Option<F>, list: ListOperation -> seq<Response<F>>,
                  isSkip: Option<F> -> bool, orchestrate: seq<Unit> -> Option<F>)
    returns (requests: seq<Option<string>>, swept: Option<seq<Unit>>,
             errs: seq<SweepError<F>>, result: Option<SweepError<F>>)
    requires clientErr.Some? || Ends(list(ListOperationOf(kind)), isSkip)
    ensures Run(requests, swept, errs, result) == Expected(kind, clientErr, list(ListOperationOf(kind)), isSkip, orchestrate)
  {
    requests, swept, errs := [], None, [];
    if clientErr.Some? {
      result := Some(ClientError(clientErr.value));
      return;
    }
    var responses := list(ListOperationOf(kind));
    ghost var k := LastCall(responses, isSkip);
    var sweepResources: seq<Unit> := [];
    var token: Option<string> := None;
    var i := 0;
    while true
      invariant i <= k
      invariant requests == if i == 0 then [] else Requests(responses, i - 1)
      invariant token == if i == 0 then None else NextTokenOf(responses[i - 1])
      invariant sweepResources == Harvest(kind, responses, i)
      invariant errs == []
      decreases k - i
    {
      RequestsNext(responses, i);
      requests := requests + [token];
      var output := responses[i];
      if isSkip(ErrOf(output)) {
        assert i == k;
        ExpectedSkipped(kind, responses, isSkip, orchestrate);
        result := None;
        return;
      }
      if output.ListError? {
        assert i == k;
        errs := errs + [ReadError(kind, output.cause)];
        break;
      }
      sweepResources := AppendUnits(kind, sweepResources, output);
      if StringValue(output.nextToken) == "" {
        assert i == k;
        break;
      }
      token := output.nextToken;
      i := i + 1;
    }
    assert requests == Requests(responses, k);
    assert !isSkip(ErrOf(responses[k])) && errs == ListErrors(kind, responses[k]);
    assert sweepResources == Harvest(kind, responses, k + 1);
    ExpectedSwept(kind, responses, isSkip, orchestrate);
    swept := Some(sweepResources);
    var sweepErr := orchestrate(sweepResources);
    if sweepErr.Some? {
      errs := errs + [OrchestratorError(kind, sweepErr.value)];
    }
    assert errs == ListErrors(kind, responses[k]) + OrchestratorErrors(kind, orchestrate(Harvest(kind, responses, k + 1)));
    if isSkip(clientErr) {
      result := None;
      return;
    }
    result := ErrorOrNil(errs);
  }
}
