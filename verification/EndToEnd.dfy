// From selection to acceptance: the engine's own builders, run one after another, produce ready
// responses that the terminal accepts at every moment before they expire.
module EndToEnd {
  import opened Messages
  import opened Numerals
  import opened Retention
  import opened PreparationProtocol
  import opened PathQuotes
  import opened Policy
  import opened Routers
  import opened Agreement
  import E = Executor

  ghost predicate AlwaysAccepted(r: Response, sender: Address, chainId: string, slippageBps: nat, trusted: Trusted) {
    forall now: nat :: Unexpired(r.terms, now) ==>
      ValidatePreparation(r, sender, chainId, slippageBps, trusted, now).Ok?
  }

  // The ready answer over frozen terms and a built plan.
  function ReadyOver(frozen: Response, plan: Plan, block: Block, simulated: string): Response {
    frozen.(status := Ready, transaction := Some(plan.transaction), simulationBlock := Some(block),
            simulatedOutput := simulated)
  }

  method PrepareDirect(
      d: DirectPreparer, trusted: Trusted, route: Route, output: nat, request: QuoteRequest, id: string, sender: Address,
      slippageBps: nat, started: nat, timestamp: nat, block: Block, simulated: string)
    returns (r: Option<Response>)
    requires id != "" && slippageBps < 10000 && AdmittedRequest(request, trusted.tokens)
    requires route.deploymentId == d.id && route.provider == d.kind && route.amountOut == Print(output)
    requires output < UINT256_LIMIT && d.id in trusted.deployments && SameDeployment(d, trusted.deployments[d.id])
    requires SearchedFor(
               route, trusted.deployments[d.id], trusted.tokens,
               FreshResponse(id, request, sender, slippageBps, Selection(Some(route), [], output), started, timestamp).terms)
    ensures r.Some? ==> AlwaysAccepted(r.value, sender, d.chainId, slippageBps, trusted)
    ensures r.Some? <==> SlippageMinimum(output, slippageBps) > 0 && Routable(d.encoder, route.legs)
  {
    hide SlippageMinimum, Print, SearchedFor, SameDeployment, AdmittedRequest, ValidatePreparation, Routable, DirectPlan,
         E.AmountOf, Unexpired;
    var selection := Selection(Some(route), [], output);
    var frozen := FreshResponse(id, request, sender, slippageBps, selection, started, timestamp);
    FrozenAmounts(frozen.terms, id, request, sender, slippageBps, selection, started, timestamp, trusted.tokens);
    var plan := BuildDirect(d, frozen.terms);
    if plan.Err? { return None; }
    var ready := ReadyOver(frozen, plan.value, block, simulated);
    forall now: nat | Unexpired(ready.terms, now)
      ensures ValidatePreparation(ready, sender, d.chainId, slippageBps, trusted, now).Ok?
    {
      DirectAgreement(d, trusted, ready, id, request, sender, slippageBps, route, output, started, timestamp, now);
    }
    return Some(ready);
  }

  // What an executor builder needs of the first allocation.
  lemma FirstAllocation(
      chain: E.Chain, e: ExecutorTrust, saved: QuoteRecord, configured: seq<Address>, allocations: seq<QuotedAllocation>)
    requires AllAllocated(chain, e, saved, configured, allocations) && allocations != []
    requires saved.request.tokenIn != saved.request.tokenOut
    ensures E.LegsOf(allocations[0]) != []
    ensures var legs := E.LegsOf(allocations[0]); legs[0].tokenIn != legs[|legs| - 1].tokenOut
  {
    hide NoCycle, Print, E.AmountText, E.VenueOf;
    assert WasAllocated(chain, e, saved, configured, allocations[0]);
    var legs := E.LegsOf(allocations[0]);
    assert Tokens(legs)[|legs| - 1 + 1] == legs[|legs| - 1].tokenOut;
  }

  method PrepareExecutorPlan(
      chain: E.Chain, e: ExecutorTrust, trusted: Trusted, saved: QuoteRecord, requested: seq<RouteAllocation>, id: string,
      sender: Address, slippageBps: nat, started: nat, timestamp: nat, block: Block, simulated: string)
    returns (r: Option<Response>)
    requires id != "" && slippageBps < 10000 && AdmittedRequest(saved.request, trusted.tokens)
    requires trusted.executor == Some(e) && SameExecutor(chain, e)
    requires StoredRoutesSearched(saved, e, trusted.tokens) && BlockReported(saved.final.block)
    ensures r.Some? ==> AlwaysAccepted(r.value, sender, chain.chainId, slippageBps, trusted)
    ensures r.Some? <==>
              && E.Quotable(chain, saved, requested)
              && (var total := E.TotalOutput(E.FreshPlan(chain, saved, requested));
                  total < UINT256_LIMIT && SlippageMinimum(total, slippageBps) > 0)
    ensures r.Some? ==>
              var allocations := E.FreshPlan(chain, saved, requested);
              var selection := Selection(None, allocations, E.TotalOutput(allocations));
              r.value.terms == FreshResponse(id, saved.request, sender, slippageBps, selection, started, timestamp).terms
  {
    hide SlippageMinimum, Print, SameExecutor, AdmittedRequest, ValidatePreparation, StoredRoutesSearched, E.Quotable,
         E.Requoted, E.TotalOutput, E.FreshPlan, Unexpired, AllAllocated, ExecutorPlanFor, BlockReported, E.AllVenues,
         E.LegsOf;
    var selected := E.SelectPlan(chain, saved, requested);
    if selected.Err? { return None; }
    var (allocations, total) := selected.value;
    PlanIsAllocated(chain, e, saved, trusted.tokens, requested, allocations);
    PairIsDistinct(saved.request, trusted.tokens);
    ExecutorIsConfigured(chain, e);
    FirstAllocation(chain, e, saved, trusted.tokens, allocations);
    var frozen := FreshResponse(
      id, saved.request, sender, slippageBps, Selection(None, allocations, total), started, timestamp);
    ZeroText(SlippageMinimum(total, slippageBps));
    VenuesAllocated(chain, e, saved, trusted.tokens, allocations);
    var plan := BuildExecutor(chain, frozen.terms);
    if plan.Err? { return None; }
    var ready := ReadyOver(frozen, plan.value, block, simulated);
    forall now: nat | Unexpired(ready.terms, now)
      ensures ValidatePreparation(ready, sender, chain.chainId, slippageBps, trusted, now).Ok?
    {
      ExecutorAgreement(
        chain, e, trusted, ready, id, saved, sender, slippageBps, requested, plan.value, started, timestamp, now);
    }
    return Some(ready);
  }

  lemma ZeroText(n: nat)
    ensures Print(n) == "0" <==> n == 0
  {
    PrintRoundTrip(n);
    PrintRoundTrip(0);
  }

  // An allocated plan has a venue for every allocation.
  lemma VenuesAllocated(
      chain: E.Chain, e: ExecutorTrust, saved: QuoteRecord, configured: seq<Address>, allocations: seq<QuotedAllocation>)
    requires AllAllocated(chain, e, saved, configured, allocations)
    ensures E.AllVenues(chain, allocations)
  {
    hide SearchedFeeRoute, Print, E.AmountText, E.VenueOf;
    forall i | 0 <= i < |allocations|
      ensures allocations[i].route.Some? && E.VenueOf(chain, allocations[i].route.value).Some? {
      assert WasAllocated(chain, e, saved, configured, allocations[i]);
    }
  }

  lemma ExecutorIsConfigured(chain: E.Chain, e: ExecutorTrust)
    requires SameExecutor(chain, e)
    ensures chain.executor.Some?
  {}

  lemma PairIsDistinct(request: QuoteRequest, configured: seq<Address>)
    requires AdmittedRequest(request, configured)
    ensures request.tokenIn != request.tokenOut
  {}
}
