// The engine and the terminal agree. With the same tokens, deployments and slippage, every unexpired
// ready response the engine builds, for a route its search quoted or for an admitted executor plan,
// is accepted by the terminal's policy, and both protect the same balances.
module Agreement {
  import opened Messages
  import opened Numerals
  import opened Sorting
  import opened Retention
  import opened PreparationProtocol
  import En = Enumeration
  import opened PathQuotes
  import opened Paths
  import opened Policy
  import opened Routers
  import E = Executor

  // ---------- routes that come out of a search ----------

  // What a searched path is known to be: up to two hops of configured tokens and selectors, no cycle.
  predicate SearchedPath(tokens: seq<Address>, configured: seq<Address>, tokenIn: Address, tokenOut: Address) {
    && 2 <= |tokens| <= 3 && tokens[0] == tokenIn && tokens[|tokens| - 1] == tokenOut
    && NoCycle(tokens) && forall i :: 0 <= i < |tokens| ==> tokens[i] in configured
  }

  // A route as a fee search leaves it.
  ghost predicate SearchedFeeRoute(
      legs: seq<Leg>, fees: seq<nat>, configured: seq<Address>, tokenIn: Address, tokenOut: Address)
  {
    && legs != [] && SearchedPath(Tokens(legs), configured, tokenIn, tokenOut)
    && Follows(FeeKind, legs, Tokens(legs), Fees(legs))
    && forall i :: 0 <= i < |legs| ==>
         legs[i].selector.FeePips? && legs[i].selector.fee in fees && legs[i].selector.fee < FEE_LIMIT
  }

  ghost predicate SearchedSpacingRoute(
      legs: seq<Leg>, spacings: seq<int>, configured: seq<Address>, tokenIn: Address, tokenOut: Address)
  {
    && legs != [] && SearchedPath(Tokens(legs), configured, tokenIn, tokenOut)
    && forall i :: 0 <= i < |legs| ==>
         && legs[i].selector.TickSpacing? && legs[i].selector.spacing in spacings && SpacingLeg(legs[i])
         && !legs[i].hasV4PoolKey && legs[i].tokenIn == Tokens(legs)[i]
  }

  lemma CandidatePath(
      p: En.Path, d: En.Deployment, middles: seq<Address>, configured: seq<Address>, tokenIn: Address,
      tokenOut: Address, hex: Address -> string)
    requires En.Searched(p, d, middles) && tokenIn != tokenOut && tokenIn in configured && tokenOut in configured
    requires forall m :: m in middles ==> m in configured && m != tokenIn && m != tokenOut
    ensures var c := En.CandidateOf(p, tokenIn, tokenOut, hex);
            && |c.tokens| == |c.selectors| + 1 && SearchedPath(c.tokens, configured, tokenIn, tokenOut)
            && forall i :: 0 <= i < |c.selectors| ==> c.selectors[i] in d.selectors
  {}

  // A complete quote of a candidate of the fee odometer is a searched route.
  lemma FeeSearchFindsSearchedRoutes(
      quote: Provider, p: En.Path, d: En.Deployment, middles: seq<Address>, fees: seq<nat>,
      configured: seq<Address>, tokenIn: Address, tokenOut: Address, amount: nat, hex: Address -> string)
    requires En.Searched(p, d, middles) && tokenIn != tokenOut && tokenIn in configured && tokenOut in configured
    requires forall m :: m in middles ==> m in configured && m != tokenIn && m != tokenOut
    requires forall s :: s in d.selectors ==> 0 <= s < FEE_LIMIT && s in fees
    ensures var c := En.CandidateOf(p, tokenIn, tokenOut, hex);
            var r := Along(FeeKind, quote, c.tokens, c.selectors, amount);
            r.Complete? ==> SearchedFeeRoute(r.legs, fees, configured, tokenIn, tokenOut)
  {
    hide En.RouteId, NoCycle;
    var c := En.CandidateOf(p, tokenIn, tokenOut, hex);
    CandidatePath(p, d, middles, configured, tokenIn, tokenOut, hex);
    var r := Along(FeeKind, quote, c.tokens, c.selectors, amount);
    if r.Complete? {
      CompleteFollowsItsPath(FeeKind, quote, c.tokens, c.selectors, amount);
      FollowedPath(FeeKind, r.legs, c.tokens, c.selectors);
    }
  }

  lemma SpacingSearchFindsSearchedRoutes(
      quote: Provider, p: En.Path, d: En.Deployment, middles: seq<Address>, spacings: seq<int>,
      configured: seq<Address>, tokenIn: Address, tokenOut: Address, amount: nat, hex: Address -> string)
    requires En.Searched(p, d, middles) && tokenIn != tokenOut && tokenIn in configured && tokenOut in configured
    requires forall m :: m in middles ==> m in configured && m != tokenIn && m != tokenOut
    requires forall s :: s in d.selectors ==> MIN_TICK_SPACING <= s <= MAX_TICK_SPACING && s in spacings
    ensures var c := En.CandidateOf(p, tokenIn, tokenOut, hex);
            var r := Along(SpacingKind, quote, c.tokens, c.selectors, amount);
            r.Complete? ==> SearchedSpacingRoute(r.legs, spacings, configured, tokenIn, tokenOut)
  {
    hide En.RouteId, NoCycle;
    var c := En.CandidateOf(p, tokenIn, tokenOut, hex);
    CandidatePath(p, d, middles, configured, tokenIn, tokenOut, hex);
    var r := Along(SpacingKind, quote, c.tokens, c.selectors, amount);
    if r.Complete? {
      CompleteFollowsItsPath(SpacingKind, quote, c.tokens, c.selectors, amount);
      FollowedPath(SpacingKind, r.legs, c.tokens, c.selectors);
    }
  }

  lemma FollowedPath(kind: SelectorKind, legs: seq<Leg>, tokens: seq<Address>, selectors: seq<int>)
    requires Follows(kind, legs, tokens, selectors) && legs != []
    ensures Tokens(legs) == tokens
    ensures kind.FeeKind? && (forall s :: s in selectors ==> s >= 0) ==> Fees(legs) == selectors
  {
    assert legs[0] == LegOf(kind, legs[0].pool, tokens[0], tokens[1], selectors[0]);
    forall j | 0 <= j < |legs| ensures tokens[j + 1] == legs[j].tokenOut {
      assert legs[j] == LegOf(kind, legs[j].pool, tokens[j], tokens[j + 1], selectors[j]);
    }
    SameTokens(tokens, legs);
    if kind.FeeKind? && forall s :: s in selectors ==> s >= 0 {
      forall j | 0 <= j < |legs| ensures Fees(legs)[j] == selectors[j] { assert selectors[j] in selectors; }
    }
  }

  // ---------- what both programs check of such a route ----------

  lemma FeeRouteIsAdmitted(
      route: Route, p: Terms, d: V3Deployment, configured: seq<Address>)
    requires SearchedFeeRoute(route.legs, d.fees, configured, p.tokenIn, p.tokenOut) && route.provider == d.kind
    ensures FeeRoute(route.legs) && AdmitV3Route(route, p, d, configured) && NoCycle(PathTokens(route.legs))
  {
    var legs := route.legs;
    var tokens := Tokens(legs);
    forall i | 0 <= i < |legs|
      ensures legs[i].tokenIn == tokens[i] && legs[i].tokenOut == tokens[i + 1] && AdmitV3Leg(legs[i], d.fees, configured)
    {
      assert legs[i] == LegOf(FeeKind, legs[i].pool, tokens[i], tokens[i + 1], Fees(legs)[i]);
    }
    forall i | 0 < i < |legs| ensures legs[i - 1].tokenOut == legs[i].tokenIn {
      assert legs[i - 1].tokenOut == tokens[i - 1 + 1];
    }
  }

  lemma SpacingRouteIsAdmitted(route: Route, p: Terms, d: SpacingDeployment, configured: seq<Address>)
    requires SearchedSpacingRoute(route.legs, d.spacings, configured, p.tokenIn, p.tokenOut)
    requires route.provider == "aerodrome-slipstream"
    ensures SpacingRoute(route.legs) && AdmitSpacingRoute(route, p, d, configured)
  {
    var legs := route.legs;
    var tokens := Tokens(legs);
    forall i | 0 < i < |legs| ensures legs[i - 1].tokenOut == legs[i].tokenIn {
      assert tokens[i - 1 + 1] == legs[i - 1].tokenOut;
    }
    forall i | 0 <= i < |legs| ensures AdmitSpacingLeg(legs[i], d.spacings, configured) {
      assert tokens[i] in configured && tokens[i + 1] in configured;
    }
  }

  // ---------- the frozen terms ----------

  // The request GetQuote admits: a positive amount and two different configured tokens.
  predicate AdmittedRequest(request: QuoteRequest, configured: seq<Address>) {
    && E.AmountText(request.amountIn) && request.tokenIn != request.tokenOut
    && request.tokenIn in configured && request.tokenOut in configured
  }

  // The terms of a first call, as the protocol freezes them.
  predicate FrozenTerms(
      terms: Terms, id: string, request: QuoteRequest, sender: Address, slippageBps: nat, selection: Selection,
      started: nat, timestamp: nat)
  {
    && slippageBps < 10000 && id != "" && selection.output < UINT256_LIMIT
    && terms == FreshResponse(id, request, sender, slippageBps, selection, started, timestamp).terms
  }

  predicate Unexpired(terms: Terms, now: nat) {
    && AllDigits(terms.expiresAt) && AllDigits(terms.deadline)
    && now < Value(terms.expiresAt) && now < Value(terms.deadline)
  }

  lemma PrintedIsUint256(n: nat)
    requires n < UINT256_LIMIT
    ensures Uint256(Print(n)) == Some(n) && E.AmountOf(Print(n)) == n
    ensures n > 0 ==> IsPositiveInteger(Print(n))
  {
    PrintRoundTrip(n);
  }

  lemma AmountTextIsUint256(s: string)
    requires E.AmountText(s)
    ensures Uint256(s) == Some(Value(s)) && E.AmountOf(s) == Value(s)
  {}

  // Rounding down from an output below 2^256 stays below it, and a positive result means a positive output.
  lemma MinimumBounds(output: nat, slippageBps: nat)
    requires slippageBps < 10000
    ensures SlippageMinimum(output, slippageBps) <= output
  {
    var k := 10000 - slippageBps;
    assert output * k <= output * 10000 by { MulMonotone(output, k, 10000); }
  }

  // Every amount of the frozen terms reads back as the number it was printed from.
  lemma FrozenAmounts(
      terms: Terms, id: string, request: QuoteRequest, sender: Address, slippageBps: nat, selection: Selection,
      started: nat, timestamp: nat, configured: seq<Address>)
    requires FrozenTerms(terms, id, request, sender, slippageBps, selection, started, timestamp)
    requires AdmittedRequest(request, configured)
    ensures Uint256(terms.amountIn) == Some(E.AmountOf(terms.amountIn)) && IsPositiveInteger(terms.amountIn)
    ensures Uint256(terms.minimum) == Some(E.AmountOf(terms.minimum))
    ensures E.AmountOf(terms.minimum) == SlippageMinimum(selection.output, slippageBps)
    ensures E.AmountOf(terms.minimum) > 0 ==> IsPositiveInteger(terms.minimum) && selection.output > 0
    ensures Uint256(terms.deadline) == Some(E.AmountOf(terms.deadline)) && IsDecimal(terms.expiresAt)
  {
    hide SlippageMinimum, Print, Value, AllDigits, IsPositiveInteger;
    MinimumBounds(selection.output, slippageBps);
    AmountTextIsUint256(request.amountIn);
    PrintedIsUint256(SlippageMinimum(selection.output, slippageBps));
    PrintedIsUint256(Deadline(timestamp));
  }

  // ---------- direct routes ----------

  // The engine's preparer and the terminal's implementation come from the same configured deployment.
  predicate SameDeployment(d: DirectPreparer, impl: Implementation) {
    match impl
    case Uniswap(v) => d.encoder.UniswapRouter02? && v.kind == d.kind && v.router == d.target
    case Pancake(v) => d.encoder.PancakeV3Router? && v.kind == d.kind && v.router == d.target
    case Slipstream(v) => d.encoder.SlipstreamRouter? && d.kind == "aerodrome-slipstream" && v.router == d.target
    case Other(_) => false
  }

  ghost predicate SearchedFor(route: Route, impl: Implementation, configured: seq<Address>, terms: Terms) {
    match impl
    case Uniswap(v) => SearchedFeeRoute(route.legs, v.fees, configured, terms.tokenIn, terms.tokenOut)
    case Pancake(v) => SearchedFeeRoute(route.legs, v.fees, configured, terms.tokenIn, terms.tokenOut)
    case Slipstream(v) => SearchedSpacingRoute(route.legs, v.spacings, configured, terms.tokenIn, terms.tokenOut)
    case Other(_) => false
  }

  // A ready answer over frozen terms and a built plan, in any simulation of it.
  predicate ReadyResponse(r: Response, terms: Terms, plan: Plan) {
    r.status == Ready && r.terms == terms && r.transaction == Some(plan.transaction) && NoApproval(r)
  }

  // Both programs pack the same bytes.
  lemma SameData(d: DirectPreparer, impl: Implementation, terms: Terms)
    requires SameDeployment(d, impl) && terms.route.Some? && Routable(d.encoder, terms.route.value.legs)
    requires Amounts(terms) == Some((E.AmountOf(terms.amountIn), E.AmountOf(terms.minimum), E.AmountOf(terms.deadline)))
    ensures var data := Ok(DirectPlan(d, terms).transaction.data);
            match impl
            case Uniswap(_) => UniswapData(terms) == data
            case Pancake(_) => PancakeData(terms) == data
            case Slipstream(_) => SlipstreamData(terms) == data
            case Other(_) => false
  {
    hide Packed, Amounts, E.AmountOf, LocalV3Path, LocalSlipstreamPath, Decode, Tokens;
    var legs := terms.route.value.legs;
    if d.encoder.SlipstreamRouter? { SlipstreamPathsAgree(legs); } else { V3PathsAgree(legs); }
  }

  lemma LocalDirectTerms(
      d: DirectPreparer, impl: Implementation, r: Response, configured: seq<Address>, output: nat)
    requires SameDeployment(d, impl) && r.terms.route.Some?
    requires r.terms.route.value.provider == d.kind && SearchedFor(r.terms.route.value, impl, configured, r.terms)
    requires r.terms.route.value.amountOut == Print(output) && 0 < output < UINT256_LIMIT
    requires Amounts(r.terms) ==
             Some((E.AmountOf(r.terms.amountIn), E.AmountOf(r.terms.minimum), E.AmountOf(r.terms.deadline)))
    ensures var legs := r.terms.route.value.legs;
            && legs != [] && Routable(d.encoder, legs)
            && PlanDirect(impl, r, configured) ==
                 Ok(SwapTerms(d.target, d.target, DirectPlan(d, r.terms).transaction.data, Print(output),
                              Intermediate(legs, d.target), [], None))
  {
    hide Packed, Amounts, E.AmountOf, LocalV3Path, LocalSlipstreamPath, SearchedFeeRoute, SearchedSpacingRoute, Print,
         Intermediate, AdmitV3Route, AdmitSpacingRoute, Uint256, DirectPlan, UniswapData, PancakeData, SlipstreamData,
         FeeRoute, SpacingRoute;
    var route := r.terms.route.value;
    PrintedIsUint256(output);
    match impl {
      case Uniswap(v) => FeeRouteIsAdmitted(route, r.terms, v, configured);
      case Pancake(v) => FeeRouteIsAdmitted(route, r.terms, v, configured);
      case Slipstream(v) => SpacingRouteIsAdmitted(route, r.terms, v, configured);
    }
    RoutableHasLegs(d.encoder, route.legs);
    SameData(d, impl, r.terms);
  }

  lemma RoutableHasLegs(encoder: Encoder, legs: seq<Leg>)
    requires Routable(encoder, legs)
    ensures legs != []
  {}

  // Everything the policy asks of a ready response beyond its planned terms.
  lemma AcceptedOnceTermsMatch(
      r: Response, sender: Address, chainId: string, slippageBps: nat, trusted: Trusted, now: nat, plan: Plan,
      terms: SwapTerms, output: nat)
    requires ReadyResponse(r, r.terms, plan) && slippageBps < 10000
    requires Current(r, now) && TransactionOk(r, plan.transaction, sender, chainId) && TermsOk(r.terms, trusted.tokens)
    requires LocalTerms(r, trusted) == Ok(terms)
    requires plan.transaction.to == terms.target && plan.transaction.data == terms.data
    requires Uint256(terms.quotedOutput) == Some(output) && output > 0
    requires Uint256(r.terms.minimum) == Some(SlippageMinimum(output, slippageBps))
    ensures ValidatePreparation(r, sender, chainId, slippageBps, trusted, now) ==
            Ok(SwapPlan(plan.transaction, terms.spender,
                        Obligations(r.terms.tokenIn, r.terms.tokenOut, r.terms.recipient, r.terms.amountIn,
                                    r.terms.minimum, terms.intermediate, terms.touched)))
  {
    hide Current, TransactionOk, TermsOk, LocalTerms, PermissionOk, ApprovalOk, Uint256;
  }

  // Every unexpired ready response for a searched direct route is accepted, as the swap it carries.
  lemma DirectAgreement(
      d: DirectPreparer, trusted: Trusted, r: Response, id: string, request: QuoteRequest, sender: Address,
      slippageBps: nat, route: Route, output: nat, started: nat, timestamp: nat, now: nat)
    requires route.deploymentId == d.id && d.id in trusted.deployments
    requires SameDeployment(d, trusted.deployments[d.id]) && route.provider == d.kind
    requires AdmittedRequest(request, trusted.tokens)
    requires route.amountOut == Print(output) && output < UINT256_LIMIT
    requires FrozenTerms(r.terms, id, request, sender, slippageBps, Selection(Some(route), [], output), started, timestamp)
    requires SearchedFor(route, trusted.deployments[d.id], trusted.tokens, r.terms)
    requires Routable(d.encoder, route.legs) && E.AmountOf(r.terms.minimum) > 0
    requires ReadyResponse(r, r.terms, DirectPlan(d, r.terms)) && Unexpired(r.terms, now)
    ensures ValidatePreparation(r, sender, d.chainId, slippageBps, trusted, now) ==
            Ok(SwapPlan(DirectPlan(d, r.terms).transaction, d.target,
                        Obligations(r.terms.tokenIn, r.terms.tokenOut, sender, r.terms.amountIn, r.terms.minimum,
                                    Intermediate(route.legs, d.target), [])))
  {
    hide Print, Value, SlippageMinimum, SearchedFor, SearchedFeeRoute, SearchedSpacingRoute, Routable, PathBytes,
         RouterCall, Uint256, AllDigits, E.AmountOf, PlanDirect, DirectChecks, ValidatePreparation, FindRoute,
         IsPositiveInteger, E.AmountText, SameDeployment;
    FrozenAmounts(r.terms, id, request, sender, slippageBps, Selection(Some(route), [], output), started, timestamp,
                  trusted.tokens);
    PrintedIsUint256(output);
    LocalDirectTerms(d, trusted.deployments[d.id], r, trusted.tokens, output);
    DirectTransactionOk(d, r, sender);
    UnexpiredIsCurrent(r, now);
    AcceptedOnceTermsMatch(
      r, sender, d.chainId, slippageBps, trusted, now, DirectPlan(d, r.terms),
      SwapTerms(d.target, d.target, DirectPlan(d, r.terms).transaction.data, Print(output),
                Intermediate(route.legs, d.target), [], None), output);
  }

  lemma DirectTransactionOk(d: DirectPreparer, r: Response, sender: Address)
    requires r.terms.route.Some? && Routable(d.encoder, r.terms.route.value.legs)
    requires r.terms.preparationId != "" && r.terms.recipient == sender
    ensures TransactionOk(r, DirectPlan(d, r.terms).transaction, sender, d.chainId)
    ensures DirectPlan(d, r.terms).transaction.to == d.target
  {
    hide Routable, PathBytes;
    assert AllDigits("1500000");
  }

  lemma UnexpiredIsCurrent(r: Response, now: nat)
    requires Unexpired(r.terms, now) && r.status == Ready && Uint256(r.terms.deadline).Some? && IsDecimal(r.terms.expiresAt)
    ensures Current(r, now)
  {}

  // ---------- executor plans ----------

  // The engine's executor and the terminal's come from the same configuration.
  ghost predicate SameExecutor(chain: E.Chain, e: ExecutorTrust) {
    && chain.executor.Some? && chain.executor.value.address == e.address
    && chain.executor.value.uniswapDeployment in e.venues && chain.executor.value.pancakeDeployment in e.venues
    && (forall id :: id in e.venues ==>
          && id in chain.deployments && chain.deployments[id].kind == e.venues[id].kind
          && chain.deployments[id].router == e.venues[id].router)
  }

  // Every stored route of an executor venue came out of its fee search.
  ghost predicate StoredRoutesSearched(saved: QuoteRecord, e: ExecutorTrust, configured: seq<Address>) {
    forall route :: route in saved.final.routes && route.deploymentId in e.venues ==>
      SearchedFeeRoute(route.legs, e.venues[route.deploymentId].fees, configured, saved.request.tokenIn,
                       saved.request.tokenOut)
  }

  predicate BlockReported(block: Block) { IsHash(block.hash) && IsDecimal(block.number) }

  // An allocation as admission and re-quoting leave it.
  ghost predicate Allocated(
      chain: E.Chain, e: ExecutorTrust, saved: QuoteRecord, configured: seq<Address>, a: QuotedAllocation, output: nat)
  {
    && E.AmountText(a.amountIn) && a.route.Some?
    && var route := a.route.value;
       && route.deploymentId in e.venues && route.provider == e.venues[route.deploymentId].kind
       && E.VenueOf(chain, route) == Some(VenueNumber(route.provider))
       && (route.provider == "uniswap-v3" || route.provider == "pancake-v3")
       && SearchedFeeRoute(route.legs, e.venues[route.deploymentId].fees, configured, saved.request.tokenIn,
                           saved.request.tokenOut)
       && route.block == Some(saved.final.block)
       && route.amountOut == Print(output) && 0 < output < UINT256_LIMIT
  }

  lemma RequotingKeepsThePath(
      quote: Provider, route: Route, amount: nat, fees: seq<nat>, configured: seq<Address>, tokenIn: Address,
      tokenOut: Address)
    requires SearchedFeeRoute(route.legs, fees, configured, tokenIn, tokenOut)
    requires Requotable(quote, route, amount)
    ensures var again := Along(FeeKind, quote, Tokens(route.legs), Fees(route.legs), amount);
            && again.Complete? && 0 < again.output < UINT256_LIMIT
            && SearchedFeeRoute(again.legs, fees, configured, tokenIn, tokenOut)
  {
    var legs := route.legs;
    CompleteFollowsItsPath(FeeKind, quote, Tokens(legs), Fees(legs), amount);
    var again := Along(FeeKind, quote, Tokens(legs), Fees(legs), amount);
    FollowedPath(FeeKind, again.legs, Tokens(legs), Fees(legs));
    forall i | 0 <= i < |again.legs|
      ensures again.legs[i].selector == legs[i].selector
    {
      assert again.legs[i] == LegOf(FeeKind, again.legs[i].pool, Tokens(legs)[i], Tokens(legs)[i + 1], Fees(legs)[i]);
    }
  }

  // One selected allocation after re-quoting.
  lemma SelectedIsAllocated(
      chain: E.Chain, e: ExecutorTrust, saved: QuoteRecord, configured: seq<Address>, request: RouteAllocation,
      after: QuotedAllocation)
    returns (output: nat)
    requires SameExecutor(chain, e) && StoredRoutesSearched(saved, e, configured)
    requires E.Admissible(chain, saved, request)
    requires E.AllRequotable(chain, [QuotedAllocation(request.amountIn, E.SelectedRoute(saved, request))])
    requires after == E.FreshlyQuoted(
               chain, QuotedAllocation(request.amountIn, E.SelectedRoute(saved, request)), saved.final.block)
    ensures Allocated(chain, e, saved, configured, after, output) && after.amountIn == request.amountIn
    ensures E.VenueFor(chain, saved, request) == VenueNumber(after.route.value.provider)
  {
    hide Requotable, SearchedFeeRoute, Along, Tokens, Fees, E.AmountText, Print, E.Walks, FindRoute;
    var a := QuotedAllocation(request.amountIn, E.SelectedRoute(saved, request));
    var route := a.route.value;
    assert E.AllRequotable(chain, [a]) && [a][0] == a;
    RequotingKeepsThePath(
      chain.requoters[route.deploymentId], route, E.AmountOf(a.amountIn), e.venues[route.deploymentId].fees, configured,
      saved.request.tokenIn, saved.request.tokenOut);
    output := Along(FeeKind, chain.requoters[route.deploymentId], Tokens(route.legs), Fees(route.legs),
                    E.AmountOf(a.amountIn)).output;
  }

  // ---------- a whole plan ----------

  // The engine's plan for a request: admitted, re-quoted at the quote's block, frozen and built.
  ghost predicate BuiltPlan(
      chain: E.Chain, saved: QuoteRecord, requested: seq<RouteAllocation>, allocations: seq<QuotedAllocation>)
  {
    && E.Quotable(chain, saved, requested)
    && E.Requoted(chain, E.Selected(saved, requested), saved.final.block, allocations)
    && E.TotalOutput(allocations) < UINT256_LIMIT
  }

  // Every allocation of a plan, with the output it was quoted.
  ghost predicate AllAllocated(
      chain: E.Chain, e: ExecutorTrust, saved: QuoteRecord, configured: seq<Address>, allocations: seq<QuotedAllocation>)
  {
    forall i :: 0 <= i < |allocations| ==> WasAllocated(chain, e, saved, configured, allocations[i])
  }

  ghost predicate WasAllocated(
      chain: E.Chain, e: ExecutorTrust, saved: QuoteRecord, configured: seq<Address>, a: QuotedAllocation)
  {
    exists o: nat :: Allocated(chain, e, saved, configured, a, o)
  }

  lemma PlanIsAllocated(
      chain: E.Chain, e: ExecutorTrust, saved: QuoteRecord, configured: seq<Address>, requested: seq<RouteAllocation>,
      allocations: seq<QuotedAllocation>)
    requires SameExecutor(chain, e) && StoredRoutesSearched(saved, e, configured)
    requires BuiltPlan(chain, saved, requested, allocations)
    ensures 1 <= |allocations| <= 2 && |allocations| == |requested|
    ensures AllAllocated(chain, e, saved, configured, allocations)
    ensures forall i :: 0 <= i < |allocations| ==> allocations[i].amountIn == requested[i].amountIn
    ensures forall i, j :: 0 <= i < j < |allocations| ==> DeploymentOf(allocations[i]) != DeploymentOf(allocations[j])
  {
    hide Allocated, SameExecutor, StoredRoutesSearched, E.Admissible, E.FreshlyQuoted, E.VenueFor, E.AllRequotable,
         E.SelectedRoute, E.Total, E.TotalOutput, Print;
    var selected := E.Selected(saved, requested);
    forall i | 0 <= i < |allocations|
      ensures WasAllocated(chain, e, saved, configured, allocations[i])
      ensures allocations[i].amountIn == requested[i].amountIn
      ensures allocations[i].route.Some?
      ensures E.Venues(chain, saved, requested)[i] == VenueNumber(allocations[i].route.value.provider)
      ensures VenueKnown(e, allocations[i])
    {
      OneRequotable(chain, selected, i);
      var o := SelectedIsAllocated(chain, e, saved, configured, requested[i], allocations[i]);
      AllocatedVenue(chain, e, saved, configured, allocations[i], o);
    }
    forall i, j | 0 <= i < j < |allocations| ensures DeploymentOf(allocations[i]) != DeploymentOf(allocations[j]) {
      assert E.Venues(chain, saved, requested)[i] != E.Venues(chain, saved, requested)[j];
    }
  }

  predicate VenueKnown(e: ExecutorTrust, a: QuotedAllocation) {
    DeploymentOf(a) in e.venues && a.route.Some? && a.route.value.provider == e.venues[DeploymentOf(a)].kind
  }

  lemma AllocatedVenue(
      chain: E.Chain, e: ExecutorTrust, saved: QuoteRecord, configured: seq<Address>, a: QuotedAllocation, o: nat)
    requires Allocated(chain, e, saved, configured, a, o)
    ensures VenueKnown(e, a)
  {
    hide SearchedFeeRoute, Print, E.AmountText, E.VenueOf;
  }

  lemma OneRequotable(chain: E.Chain, allocations: seq<QuotedAllocation>, i: nat)
    requires E.AllRequotable(chain, allocations) && i < |allocations|
    ensures E.AllRequotable(chain, [allocations[i]])
  {
    hide Requotable;
  }

  // An allocated route passes every local check.
  lemma AllocatedIsOk(
      chain: E.Chain, e: ExecutorTrust, saved: QuoteRecord, configured: seq<Address>, p: Terms, a: QuotedAllocation,
      o: nat)
    requires Allocated(chain, e, saved, configured, a, o)
    requires p.tokenIn == saved.request.tokenIn && p.tokenOut == saved.request.tokenOut
    ensures AllocationOk(e, p, configured, a) && Encodable(a) && FeeRoute(a.route.value.legs)
    ensures BlockOf(a) == Some(saved.final.block)
    ensures Input(a) == E.AmountOf(a.amountIn) > 0 && Output(a) == E.OutputOf(a) == o
  {
    hide SearchedFeeRoute, Print, Value, AdmitV3Route, NoCycle, PathTokens, AllDigits;
    FeeRouteIsAdmitted(a.route.value, p, e.venues[a.route.value.deploymentId], configured);
    PrintedIsUint256(o);
    CanonicalText(a.amountIn);
    AmountTextIsUint256(a.amountIn);
    assert forall i :: 0 <= i < |a.route.value.legs| ==> FeeLeg(a.route.value.legs[i]);
  }

  // The two programs add up the same inputs and the same outputs.
  lemma {:induction false} SameTotals(
      chain: E.Chain, e: ExecutorTrust, saved: QuoteRecord, configured: seq<Address>, p: Terms,
      allocations: seq<QuotedAllocation>, requested: seq<RouteAllocation>)
    requires AllAllocated(chain, e, saved, configured, allocations) && |requested| == |allocations|
    requires forall i :: 0 <= i < |allocations| ==> allocations[i].amountIn == requested[i].amountIn
    requires p.tokenIn == saved.request.tokenIn && p.tokenOut == saved.request.tokenOut
    ensures TotalInput(allocations) == E.Total(requested) && TotalOutput(allocations) == E.TotalOutput(allocations)
  {
    hide Allocated, E.AmountOf, E.OutputOf, Input, Output;
    if allocations != [] {
      var n := |allocations| - 1;
      forall i | 0 <= i < n ensures WasAllocated(chain, e, saved, configured, allocations[..n][i]) {
        assert allocations[..n][i] == allocations[i];
      }
      SameTotals(chain, e, saved, configured, p, allocations[..n], requested[..n]);
      assert WasAllocated(chain, e, saved, configured, allocations[n]);
      var o: nat :| Allocated(chain, e, saved, configured, allocations[n], o);
      AllocatedIsOk(chain, e, saved, configured, p, allocations[n], o);
    }
  }

  // The two programs pack the same call.
  lemma SameExecutorData(
      chain: E.Chain, e: ExecutorTrust, saved: QuoteRecord, configured: seq<Address>, p: Terms,
      packed: seq<ExecutorAllocation>)
    requires AllAllocated(chain, e, saved, configured, p.allocations)
    requires p.tokenIn == saved.request.tokenIn && p.tokenOut == saved.request.tokenOut
    requires E.PackedAllocations(chain, p.allocations, packed)
    requires Amounts(p) == Some((E.AmountOf(p.amountIn), E.AmountOf(p.minimum), E.AmountOf(p.deadline)))
    ensures ExpectedExecutorData(p) ==
            Ok(Execute(p.tokenIn, p.tokenOut, E.AmountOf(p.amountIn), E.AmountOf(p.minimum), E.AmountOf(p.deadline),
                       packed))
  {
    hide Allocated, E.AmountOf, Amounts, Encodable, LocalAllocation;
    forall i | 0 <= i < |p.allocations|
      ensures Encodable(p.allocations[i]) && packed[i] == LocalAllocation(p.allocations[i])
    {
      var o: nat :| Allocated(chain, e, saved, configured, p.allocations[i], o);
      SameAllocation(chain, e, saved, configured, p, p.allocations[i], packed[i], o);
    }
    assert LocalAllocations(p.allocations) == packed;
  }

  lemma SameAllocation(
      chain: E.Chain, e: ExecutorTrust, saved: QuoteRecord, configured: seq<Address>, p: Terms, a: QuotedAllocation,
      packed: ExecutorAllocation, o: nat)
    requires Allocated(chain, e, saved, configured, a, o)
    requires p.tokenIn == saved.request.tokenIn && p.tokenOut == saved.request.tokenOut
    requires E.VenueOf(chain, a.route.value) == Some(packed.venue) && packed.amountIn == E.AmountOf(a.amountIn)
    requires packed.hops == E.HopsOf(a.route.value.legs)
    ensures Encodable(a) && packed == LocalAllocation(a)
  {
    AllocatedIsOk(chain, e, saved, configured, p, a, o);
    hide SearchedFeeRoute, Print, Value, AllDigits, E.AmountText, E.VenueOf;
    assert packed.hops == LocalHops(a.route.value.legs);
  }

  lemma PlanIsOk(
      chain: E.Chain, e: ExecutorTrust, saved: QuoteRecord, configured: seq<Address>, p: Terms)
    requires AllAllocated(chain, e, saved, configured, p.allocations) && 1 <= |p.allocations| <= 2 && p.route.None?
    requires p.tokenIn == saved.request.tokenIn && p.tokenOut == saved.request.tokenOut
    requires forall i, j :: 0 <= i < j < |p.allocations| ==>
               DeploymentOf(p.allocations[i]) != DeploymentOf(p.allocations[j])
    requires BlockReported(saved.final.block)
    ensures PlanOk(e, p, configured)
  {
    hide Allocated, AllocationOk;
    forall i | 0 <= i < |p.allocations|
      ensures AllocationOk(e, p, configured, p.allocations[i]) && BlockOf(p.allocations[i]) == Some(saved.final.block)
    {
      var o: nat :| Allocated(chain, e, saved, configured, p.allocations[i], o);
      AllocatedIsOk(chain, e, saved, configured, p, p.allocations[i], o);
    }
  }

  // Every unexpired ready response for an admitted executor plan is accepted, as the swap it carries:
  // the minimum is the sum of the outputs rounded down once, and the call and the touched balances
  // are rebuilt locally.
  lemma ExecutorAgreement(
      chain: E.Chain, e: ExecutorTrust, trusted: Trusted, r: Response, id: string, saved: QuoteRecord, sender: Address,
      slippageBps: nat, requested: seq<RouteAllocation>, plan: Plan, started: nat, timestamp: nat, now: nat)
    requires trusted.executor == Some(e) && SameExecutor(chain, e)
    requires StoredRoutesSearched(saved, e, trusted.tokens) && BlockReported(saved.final.block)
    requires AdmittedRequest(saved.request, trusted.tokens)
    requires BuiltPlan(chain, saved, requested, r.terms.allocations)
    requires FrozenTerms(r.terms, id, saved.request, sender, slippageBps,
                         Selection(None, r.terms.allocations, E.TotalOutput(r.terms.allocations)), started, timestamp)
    requires ExecutorPlanFor(chain, r.terms, plan) && r.terms.minimum != "0"
    requires ReadyResponse(r, r.terms, plan) && Unexpired(r.terms, now)
    ensures ValidatePreparation(r, sender, chain.chainId, slippageBps, trusted, now) ==
            Ok(SwapPlan(plan.transaction, e.address,
                        Obligations(r.terms.tokenIn, r.terms.tokenOut, sender, r.terms.amountIn, r.terms.minimum,
                                    HeldBy(PlanIntermediates(r.terms.allocations), e.address),
                                    PlanTouches(e, r.terms, r.terms.allocations))))
  {
    hide Print, Value, SlippageMinimum, Uint256, AllDigits, E.AmountOf, ValidatePreparation, IsPositiveInteger,
         E.AmountText, BuiltPlan, ExpectedExecutorData, PlanOk, ExecutorPlanFor, AllAllocated, StoredRoutesSearched,
         PlanTouches, PlanIntermediates, E.TotalOutput, TotalInput, TotalOutput, E.Total, E.Quotable, E.Requoted;
    var p, total := r.terms, E.TotalOutput(r.terms.allocations);
    PlanIsAllocated(chain, e, saved, trusted.tokens, requested, p.allocations);
    BuiltPlanFacts(chain, saved, requested, p.allocations);
    FrozenAmounts(p, id, saved.request, sender, slippageBps, Selection(None, p.allocations, total), started, timestamp,
                  trusted.tokens);
    PlanIsOk(chain, e, saved, trusted.tokens, p);
    SameTotals(chain, e, saved, trusted.tokens, p, p.allocations, requested);
    SumReadsBack(requested, p.amountIn);
    PositiveMinimum(p, SlippageMinimum(total, slippageBps));
    PlanFacts(chain, p, plan);
    SameExecutorData(chain, e, saved, trusted.tokens, p, plan.transaction.data.allocations);
    PrintedIsUint256(total);
    UnexpiredIsCurrent(r, now);
    ExecutorTransactionOk(chain, r, plan, sender);
    AcceptedOnceTermsMatch(
      r, sender, chain.chainId, slippageBps, trusted, now, plan,
      SwapTerms(e.address, e.address, plan.transaction.data, Print(total),
                HeldBy(PlanIntermediates(p.allocations), e.address), PlanTouches(e, p, p.allocations), None), total);
  }

  lemma BuiltPlanFacts(
      chain: E.Chain, saved: QuoteRecord, requested: seq<RouteAllocation>, allocations: seq<QuotedAllocation>)
    requires BuiltPlan(chain, saved, requested, allocations)
    ensures E.TotalOutput(allocations) < UINT256_LIMIT && Print(E.Total(requested)) == saved.request.amountIn
  {}

  lemma SumReadsBack(requested: seq<RouteAllocation>, text: string)
    requires Print(E.Total(requested)) == text && Uint256(text).Some?
    ensures Uint256(text) == Some(E.Total(requested))
  {
    PrintRoundTrip(E.Total(requested));
  }

  lemma PositiveMinimum(p: Terms, minimum: nat)
    requires p.minimum == Print(minimum) && p.minimum != "0"
    ensures minimum > 0
  {}

  lemma PlanFacts(chain: E.Chain, p: Terms, plan: Plan)
    requires ExecutorPlanFor(chain, p, plan)
    ensures plan.transaction.data.Execute? && chain.executor.Some?
    ensures E.PackedAllocations(chain, p.allocations, plan.transaction.data.allocations)
    ensures plan.transaction ==
            Transaction(chain.chainId, p.recipient, chain.executor.value.address,
                        Execute(p.tokenIn, p.tokenOut, E.AmountOf(p.amountIn), E.AmountOf(p.minimum),
                                E.AmountOf(p.deadline), plan.transaction.data.allocations),
                        "0", "3000000")
  {
    hide E.PackedAllocations, E.PlanPairs, E.PlanClears, Distinct, E.Members, E.AmountOf;
  }

  lemma ExecutorTransactionOk(chain: E.Chain, r: Response, plan: Plan, sender: Address)
    requires ExecutorPlanFor(chain, r.terms, plan) && r.terms.preparationId != "" && r.terms.recipient == sender
    ensures TransactionOk(r, plan.transaction, sender, chain.chainId)
  {
    hide E.PackedAllocations, E.PlanPairs, E.PlanClears, Distinct, E.Members, E.AmountOf;
    assert AllDigits("3000000");
  }
}
