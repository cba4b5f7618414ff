/** What the sweepers promise, proved about the run `Expected` describes
    (and so, through its postcondition, about every run of `Sweep`). */
module SweepProperties {
  import opened AppSyncSweep

  /** Number of items on the pages among the first n responses. */
  function ItemCount<F>(rs: seq<Response<F>>, n: nat): nat
    requires n <= |rs|
  {
    if n == 0 then 0 else ItemCount(rs, n - 1) + (if rs[n - 1].Page? then |rs[n - 1].items| else 0)
  }

  /** The ids of a batch of units. */
  function Ids(units: seq<Unit>): seq<string>
  {
    seq(|units|, i requires 0 <= i < |units| => units[i].id)
  }

  // ---------------------------------------------------------------------
  // Units: one per listed item, pages concatenated in order

  /** One unit per item: nothing is dropped and duplicates are kept. */
  lemma {:induction false} HarvestLength<F>(kind: Kind, rs: seq<Response<F>>, n: nat)
    requires n <= |rs|
    ensures |Harvest(kind, rs, n)| == ItemCount(rs, n)
  {
    if n > 0 {
      HarvestLength(kind, rs, n - 1);
    }
  }

  /** Item j of page p becomes the unit right after the units of the pages
      before p, with the sweeper's kind and that item's id. */
  lemma {:induction false} HarvestAt<F>(kind: Kind, rs: seq<Response<F>>, n: nat, p: nat, j: nat)
    requires n <= |rs| && p < n && rs[p].Page? && j < |rs[p].items|
    ensures ItemCount(rs, p) + j < |Harvest(kind, rs, n)|
    ensures Harvest(kind, rs, n)[ItemCount(rs, p) + j] == Unit(kind, StringValue(IdOf(kind, rs[p].items[j])))
  {
    if p < n - 1 {
      HarvestAt(kind, rs, n - 1, p, j);
    } else {
      HarvestLength(kind, rs, p);
    }
  }

  /** Two sweepers that read the same id field collect the same ids. */
  lemma {:induction false} HarvestIdsSameField<F>(k1: Kind, k2: Kind, rs: seq<Response<F>>, n: nat)
    requires n <= |rs| && IdFieldOf(k1) == IdFieldOf(k2)
    ensures Ids(Harvest(k1, rs, n)) == Ids(Harvest(k2, rs, n))
  {
    if n > 0 {
      HarvestIdsSameField(k1, k2, rs, n - 1);
      var a1, a2 := Harvest(k1, rs, n - 1), Harvest(k2, rs, n - 1);
      var p1, p2 := PageUnits(k1, rs[n - 1]), PageUnits(k2, rs[n - 1]);
      IdsConcat(a1, p1);
      IdsConcat(a2, p2);
      assert Ids(p1) == Ids(p2);
    }
  }

  lemma IdsConcat(a: seq<Unit>, b: seq<Unit>)
    ensures Ids(a + b) == Ids(a) + Ids(b)
  {
  }

  // ---------------------------------------------------------------------
  // Pagination

  /** The last call is the first response that ends the loop. */
  lemma LastCallAt<F>(rs: seq<Response<F>>, isSkip: Option<F> -> bool, j: nat)
    requires j < |rs| && EndsLoop(rs[j], isSkip)
    requires forall m :: 0 <= m < j ==> !EndsLoop(rs[m], isSkip)
    ensures Ends(rs, isSkip) && LastCall(rs, isSkip) == j
  {
  }

  /** A client-acquisition failure returns an error before any list call. */
  lemma ClientFailureMakesNoCall<F>(kind: Kind, clientErr: Option<F>, rs: seq<Response<F>>,
                                    isSkip: Option<F> -> bool, orchestrate: seq<Unit> -> Option<F>)
    requires clientErr.Some?
    ensures var run := Expected(kind, clientErr, rs, isSkip, orchestrate);
      run.requests == [] && run.swept == None && run.errors == [] &&
      run.result == Some(ClientError(clientErr.value))
  {
  }

  /** The first call carries no token; each later call carries exactly the
      non-empty NextToken of the page just returned; and no call is made
      after a response that ends the loop, in particular after the first
      page whose NextToken is empty. */
  lemma PaginationFollowsTokens<F>(kind: Kind, rs: seq<Response<F>>,
                                   isSkip: Option<F> -> bool, orchestrate: seq<Unit> -> Option<F>)
    requires Ends(rs, isSkip)
    ensures var run := Expected(kind, None, rs, isSkip, orchestrate);
      1 <= |run.requests| <= |rs| &&
      run.requests[0] == None &&
      (forall j :: 0 <= j < |run.requests| - 1 ==>
         rs[j].Page? && StringValue(rs[j].nextToken) != "" && run.requests[j + 1] == rs[j].nextToken) &&
      (forall j :: 0 <= j < |rs| && EndsLoop(rs[j], isSkip) ==> |run.requests| <= j + 1) &&
      |run.requests| == LastCall(rs, isSkip) + 1 &&
      EndsLoop(rs[|run.requests| - 1], isSkip)
  {
    var run := Expected(kind, None, rs, isSkip, orchestrate);
    assert |run.requests| == LastCall(rs, isSkip) + 1;
  }

  // ---------------------------------------------------------------------
  // Error aggregation

  /** A skip-classified list error on any page, a later one included,
      returns nil at once: the orchestrator is not called and the units of
      the earlier pages are dropped. */
  lemma SkipErrorDropsEverything<F>(kind: Kind, rs: seq<Response<F>>, isSkip: Option<F> -> bool,
                                    orchestrate: seq<Unit> -> Option<F>, j: nat)
    requires j < |rs| && rs[j].ListError? && isSkip(Some(rs[j].cause))
    requires forall m :: 0 <= m < j ==> !EndsLoop(rs[m], isSkip)
    ensures Ends(rs, isSkip)
    ensures var run := Expected(kind, None, rs, isSkip, orchestrate);
      |run.requests| == j + 1 && run.swept == None && run.errors == [] && run.result == None
  {
    LastCallAt(rs, isSkip, j);
  }

  /** A non-skip list error appends exactly one read error and ends the
      loop; the units of the earlier pages still reach the orchestrator,
      whose failure appends at most one more error. */
  lemma FatalErrorKeepsEarlierUnits<F>(kind: Kind, rs: seq<Response<F>>, isSkip: Option<F> -> bool,
                                       orchestrate: seq<Unit> -> Option<F>, j: nat)
    requires j < |rs| && rs[j].ListError? && !isSkip(Some(rs[j].cause))
    requires forall m :: 0 <= m < j ==> !EndsLoop(rs[m], isSkip)
    ensures Ends(rs, isSkip)
    ensures var run := Expected(kind, None, rs, isSkip, orchestrate);
      |run.requests| == j + 1 &&
      run.swept == Some(Harvest(kind, rs, j)) &&
      run.errors == [ReadError(kind, rs[j].cause)] + OrchestratorErrors(kind, orchestrate(Harvest(kind, rs, j))) &&
      (!isSkip(None) ==> run.result == Some(Multi(run.errors)))
  {
    LastCallAt(rs, isSkip, j);
    ExpectedSwept(kind, rs, isSkip, orchestrate);
    assert PageUnits(kind, rs[j]) == [];
    assert Harvest(kind, rs, j + 1) == Harvest(kind, rs, j);
  }

  /** With the classifier treating nil as no skip, the result is nil exactly
      when no error was appended, a non-nil result holds every appended
      error, and at most two are appended: one from listing, one from the
      orchestrator. */
  lemma ResultNilIffNoErrors<F>(kind: Kind, rs: seq<Response<F>>, isSkip: Option<F> -> bool,
                                orchestrate: seq<Unit> -> Option<F>)
    requires Ends(rs, isSkip) && !isSkip(None)
    ensures var run := Expected(kind, None, rs, isSkip, orchestrate);
      (run.result == None <==> run.errors == []) &&
      (run.result != None ==> run.result == Some(Multi(run.errors))) &&
      |run.errors| <= 2 &&
      (forall e :: e in run.errors ==> e.ReadError? || e.OrchestratorError?) &&
      (|run.errors| == 2 ==> run.errors[0].ReadError? && run.errors[1].OrchestratorError?)
  {
  }

  /** The check after the sweep classifies the client-acquisition error,
      which is nil by then, never the errors collected: the result is nil
      exactly when that check fires or nothing was appended. */
  lemma FinalCheckIgnoresCollectedErrors<F>(kind: Kind, rs: seq<Response<F>>, isSkip: Option<F> -> bool,
                                            orchestrate: seq<Unit> -> Option<F>)
    requires Ends(rs, isSkip)
    ensures var run := Expected(kind, None, rs, isSkip, orchestrate);
      run.result == None <==> isSkip(None) || run.errors == []
  {
  }

  /** So a skip-classified orchestrator error is still returned. */
  lemma SkippedOrchestratorErrorIsReturned<F>(kind: Kind, rs: seq<Response<F>>, isSkip: Option<F> -> bool,
                                              orchestrate: seq<Unit> -> Option<F>)
    requires Ends(rs, isSkip) && !isSkip(None)
    requires var run := Expected(kind, None, rs, isSkip, orchestrate);
      run.swept.Some? && orchestrate(run.swept.value).Some? && isSkip(orchestrate(run.swept.value))
    ensures var run := Expected(kind, None, rs, isSkip, orchestrate);
      run.result.Some? && OrchestratorError(kind, orchestrate(run.swept.value).value) in run.errors
  {
  }

  // ---------------------------------------------------------------------
  // Scenarios

  /** Every page fetched, in order: a run that lists pages p0 .. pn, the
      last with an empty token, hands the orchestrator their units. */
  lemma AllPagesSwept<F>(kind: Kind, rs: seq<Response<F>>, isSkip: Option<F> -> bool,
                         orchestrate: seq<Unit> -> Option<F>, n: nat)
    requires n < |rs| && rs[n].Page? && StringValue(rs[n].nextToken) == "" && !isSkip(None)
    requires forall m :: 0 <= m < n ==> !EndsLoop(rs[m], isSkip)
    ensures Ends(rs, isSkip)
    ensures var run := Expected(kind, None, rs, isSkip, orchestrate);
      |run.requests| == n + 1 &&
      run.swept == Some(Harvest(kind, rs, n + 1)) &&
      |run.swept.value| == ItemCount(rs, n + 1) &&
      run.errors == OrchestratorErrors(kind, orchestrate(Harvest(kind, rs, n + 1)))
  {
    LastCallAt(rs, isSkip, n);
    HarvestLength(kind, rs, n + 1);
  }

  /** Resweeping an empty scope: one call, nothing swept, no error. */
  lemma EmptyScopeIsNotAnError<F>(kind: Kind, rs: seq<Response<F>>, isSkip: Option<F> -> bool,
                                  orchestrate: seq<Unit> -> Option<F>)
    requires |rs| > 0 && rs[0] == Page([], None) && !isSkip(None) && orchestrate([]) == None
    ensures Ends(rs, isSkip)
    ensures Expected(kind, None, rs, isSkip, orchestrate) == Run([None], Some([]), [], None)
  {
    LastCallAt(rs, isSkip, 0);
    ExpectedSwept(kind, rs, isSkip, orchestrate);
    assert Harvest(kind, rs, 1) == Harvest(kind, rs, 0) + PageUnits(kind, rs[0]);
    assert PageUnits(kind, rs[0]) == [];
    assert Requests(rs, 0) == [None];
  }

  /** A record whose id field, for this sweeper, holds the given id. */
  function Listed(kind: Kind, id: string): Item
  {
    if IdFieldOf(kind) == ApiId then Item(Some(id), None) else Item(None, Some(id))
  }

  /** The first page lists "w1" and the second call fails with a non-skip
      error: "w1" is still swept and exactly one read error is returned. */
  lemma SecondPageFails<F>(kind: Kind, f: F, isSkip: Option<F> -> bool, orchestrate: seq<Unit> -> Option<F>)
    requires !isSkip(None) && !isSkip(Some(f)) && orchestrate([Unit(kind, "w1")]) == None
    ensures var rs := [Page([Listed(kind, "w1")], Some("t1")), ListError(f)];
      Ends(rs, isSkip) &&
      Expected(kind, None, rs, isSkip, orchestrate) ==
        Run([None, Some("t1")], Some([Unit(kind, "w1")]), [ReadError(kind, f)], Some(Multi([ReadError(kind, f)])))
  {
    var rs := [Page([Listed(kind, "w1")], Some("t1")), ListError(f)];
    assert StringValue(rs[0].nextToken) == "t1" != "";
    assert !EndsLoop(rs[0], isSkip);
    FatalErrorKeepsEarlierUnits(kind, rs, isSkip, orchestrate, 1);
    assert PageUnits(kind, rs[0]) == [Unit(kind, "w1")];
    assert Harvest(kind, rs, 1) == [Unit(kind, "w1")];
    assert Requests(rs, 1) == [None, Some("t1")];
    var run := Expected(kind, None, rs, isSkip, orchestrate);
    assert run.requests == Requests(rs, 1);
    assert run.swept == Some([Unit(kind, "w1")]);
    assert OrchestratorErrors(kind, orchestrate([Unit(kind, "w1")])) == [];
    assert run.errors == [ReadError(kind, f)];
  }

  /** The association sweeper pages through the same list operation as the
      domain-name sweeper and reads the same DomainName field of each record:
      against the same client both make the same calls and sweep the same ids. */
  lemma AssociationsSweepDomainNameIds<F>(clientErr: Option<F>, list: ListOperation -> seq<Response<F>>,
                                          isSkip: Option<F> -> bool, orchestrate: seq<Unit> -> Option<F>)
    requires clientErr.Some? || Ends(list(ListDomainNames), isSkip)
    ensures var a := Expected(DomainNameAssociations, clientErr, list(ListOperationOf(DomainNameAssociations)), isSkip, orchestrate);
      var d := Expected(DomainNames, clientErr, list(ListOperationOf(DomainNames)), isSkip, orchestrate);
      a.requests == d.requests && a.swept.Some? == d.swept.Some? &&
      (a.swept.Some? ==> Ids(a.swept.value) == Ids(d.swept.value))
  {
    if clientErr.None? {
      var rs := list(ListDomainNames);
      var k := LastCall(rs, isSkip);
      HarvestIdsSameField(DomainNameAssociations, DomainNames, rs, k + 1);
    }
  }

  /** The GraphQL API sweeper is not like that: it lists GraphQL APIs and
      reads ApiId, so against a client with one API and one domain name it
      sweeps the API's id while the domain-name sweeper sweeps the domain. */
  lemma GraphQLAPIsSweepOtherIds<F>(isSkip: Option<F> -> bool, orchestrate: seq<Unit> -> Option<F>)
    requires !isSkip(None)
    ensures var list := (op: ListOperation) =>
        if op == ListGraphqlApis then [Page([Item(Some("api1"), None)], None)]
        else [Page([Item(None, Some("example.com"))], None)];
      Ends(list(ListGraphqlApis), isSkip) && Ends(list(ListDomainNames), isSkip) &&
      Expected(GraphQLAPIs, None, list(ListOperationOf(GraphQLAPIs)), isSkip, orchestrate).swept ==
        Some([Unit(GraphQLAPIs, "api1")]) &&
      Expected(DomainNames, None, list(ListOperationOf(DomainNames)), isSkip, orchestrate).swept ==
        Some([Unit(DomainNames, "example.com")])
  {
    var apis: seq<Response<F>> := [Page([Item(Some("api1"), None)], None)];
    var domains: seq<Response<F>> := [Page([Item(None, Some("example.com"))], None)];
    LastCallAt(apis, isSkip, 0);
    LastCallAt(domains, isSkip, 0);
    ExpectedSwept(GraphQLAPIs, apis, isSkip, orchestrate);
    ExpectedSwept(DomainNames, domains, isSkip, orchestrate);
    assert PageUnits(GraphQLAPIs, apis[0]) == [Unit(GraphQLAPIs, "api1")];
    assert PageUnits(DomainNames, domains[0]) == [Unit(DomainNames, "example.com")];
    assert Harvest(GraphQLAPIs, apis, 1) == [Unit(GraphQLAPIs, "api1")];
    assert Harvest(DomainNames, domains, 1) == [Unit(DomainNames, "example.com")];
  }
}
