// What is signed is what was shown: a transaction the policy accepts determines the economic terms of
// the response it came with, whatever else the engine wrote around it.
module Consent {
  import opened Messages
  import opened Numerals
  import opened PathQuotes
  import opened Paths
  import opened Policy

  // ---------- what acceptance of a swap means ----------

  ghost predicate AcceptedSwap(
      r: Response, signer: Address, chainId: string, slippageBps: nat, trusted: Trusted, now: nat)
  {
    var v := ValidatePreparation(r, signer, chainId, slippageBps, trusted, now);
    v.Ok? && v.value.SwapPlan?
  }

  // The accepted transaction is the signer's, carries no value, and goes where the local terms point
  // with the bytes they encode; the minimum is the quoted output less the slippage, rounded down once.
  lemma AcceptedSwapIsLocal(
      r: Response, signer: Address, chainId: string, slippageBps: nat, trusted: Trusted, now: nat)
    requires AcceptedSwap(r, signer, chainId, slippageBps, trusted, now)
    ensures r.status == Ready && r.transaction.Some? && LocalTerms(r, trusted).Ok? && NoApproval(r)
    ensures
      var tx, terms := r.transaction.value, LocalTerms(r, trusted).value;
      && tx.from == signer == r.terms.recipient && tx.chainId == chainId && tx.value == "0"
      && tx.to == terms.target && tx.data == terms.data
      && Uint256(terms.quotedOutput).Some? && Uint256(r.terms.minimum).Some? && Uint256(r.terms.amountIn).Some?
      && Uint256(r.terms.minimum).value == Uint256(terms.quotedOutput).value * (10000 - slippageBps) / 10000
      && 0 < Uint256(r.terms.minimum).value && 0 < Uint256(r.terms.amountIn).value
  {
    hide LocalTerms, Uint256, PermissionOk, ApprovalOk, IsPositiveInteger;
    PositiveText(r.terms.minimum);
    PositiveText(r.terms.amountIn);
  }

  lemma PositiveText(s: string)
    ensures IsPositiveInteger(s) && Uint256(s).Some? ==> Uint256(s).value > 0
  {
    if IsPositiveInteger(s) { CanonicalText(s); }
  }

  // ---------- direct routes ----------

  predicate FeeTrust(impl: Implementation) { impl.Uniswap? || impl.Pancake? }

  function FeeDeployment(impl: Implementation): V3Deployment
    requires FeeTrust(impl)
  {
    match impl case Uniswap(d) => d case Pancake(d) => d
  }

  // The bytes of a fee plan, whichever router they are for.
  lemma FeePlanBytes(impl: Implementation, r: Response, tokens: seq<Address>)
    requires FeeTrust(impl) && PlanDirect(impl, r, tokens).Ok?
    ensures r.terms.route.Some? && FeeRoute(r.terms.route.value.legs) && Amounts(r.terms).Some?
    ensures
      var (amount, minimum, deadline) := Amounts(r.terms).value;
      var legs := r.terms.route.value.legs;
      var path := Packed(Tokens(legs), FeesOf(legs));
      PlanDirect(impl, r, tokens).value.data ==
        if impl.Uniswap? then Multicall(deadline, ExactInput(path, r.terms.recipient, amount, minimum))
        else ExactInputWithDeadline(path, r.terms.recipient, deadline, amount, minimum)
  {
    hide Packed, Tokens, FeesOf, Amounts, Uint256, Decode, Intermediate;
    var route := r.terms.route.value;
    AdmittedIsPackable(route, r.terms, FeeDeployment(impl), tokens);
    V3PathsAgree(route.legs);
  }

  lemma AdmittedIsPackable(route: Route, p: Terms, d: V3Deployment, tokens: seq<Address>)
    requires AdmitV3Route(route, p, d, tokens)
    ensures FeeRoute(route.legs)
  {
    assert forall i :: 0 <= i < |route.legs| ==> AdmitV3Leg(route.legs[i], d.fees, tokens) && FeeLeg(route.legs[i]);
  }

  lemma SameAmounts(a: Option<(nat, nat, nat)>, b: Option<(nat, nat, nat)>)
    ensures a.Some? && b.Some? && a.value.0 == b.value.0 && a.value.1 == b.value.1 && a.value.2 == b.value.2 ==> a == b
  {}

  // Two fee responses with one transaction share path, amounts, recipient and deadline.
  lemma FeeTransactionDeterminesTerms(impl: Implementation, a: Response, b: Response, tokens: seq<Address>)
    requires FeeTrust(impl) && PlanDirect(impl, a, tokens).Ok? && PlanDirect(impl, b, tokens).Ok?
    requires PlanDirect(impl, a, tokens).value.data == PlanDirect(impl, b, tokens).value.data
    ensures a.terms.route.Some? && b.terms.route.Some?
    ensures Tokens(a.terms.route.value.legs) == Tokens(b.terms.route.value.legs)
    ensures FeesOf(a.terms.route.value.legs) == FeesOf(b.terms.route.value.legs)
    ensures Amounts(a.terms) == Amounts(b.terms) && a.terms.recipient == b.terms.recipient
  {
    hide Packed, Tokens, FeesOf, Amounts, PlanDirect, FeeRoute;
    FeePlanBytes(impl, a, tokens);
    FeePlanBytes(impl, b, tokens);
    SameAmounts(Amounts(a.terms), Amounts(b.terms));
    DistinctPathsDistinctBytes(a.terms.route.value.legs, b.terms.route.value.legs);
  }

  lemma SpacingPlanBytes(d: SpacingDeployment, r: Response, tokens: seq<Address>)
    requires PlanDirect(Slipstream(d), r, tokens).Ok?
    ensures r.terms.route.Some? && SpacingRoute(r.terms.route.value.legs) && Amounts(r.terms).Some?
    ensures
      var (amount, minimum, deadline) := Amounts(r.terms).value;
      var legs := r.terms.route.value.legs;
      PlanDirect(Slipstream(d), r, tokens).value.data ==
        ExactInputWithDeadline(Packed(Tokens(legs), MaskedAll(SpacingsOf(legs))), r.terms.recipient, deadline, amount,
                               minimum)
  {
    hide Packed, Tokens, SpacingsOf, MaskedAll, Amounts, Uint256, Decode, Intermediate, SignedWord;
    SlipstreamPathsAgree(r.terms.route.value.legs);
  }

  lemma SpacingTransactionDeterminesTerms(d: SpacingDeployment, a: Response, b: Response, tokens: seq<Address>)
    requires PlanDirect(Slipstream(d), a, tokens).Ok? && PlanDirect(Slipstream(d), b, tokens).Ok?
    requires PlanDirect(Slipstream(d), a, tokens).value.data == PlanDirect(Slipstream(d), b, tokens).value.data
    ensures a.terms.route.Some? && b.terms.route.Some?
    ensures Tokens(a.terms.route.value.legs) == Tokens(b.terms.route.value.legs)
    ensures SpacingsOf(a.terms.route.value.legs) == SpacingsOf(b.terms.route.value.legs)
    ensures Amounts(a.terms) == Amounts(b.terms) && a.terms.recipient == b.terms.recipient
  {
    hide Packed, Tokens, SpacingsOf, MaskedAll, Amounts, PlanDirect, SpacingRoute;
    SpacingPlanBytes(d, a, tokens);
    SpacingPlanBytes(d, b, tokens);
    SameAmounts(Amounts(a.terms), Amounts(b.terms));
    DistinctSpacingPathsDistinctBytes(a.terms.route.value.legs, b.terms.route.value.legs);
  }

  // ---------- executor plans ----------

  // Two executor responses with one transaction share the pair, the amounts and, allocation by
  // allocation, the venue, the input and the hops.
  lemma ExecutorTransactionDeterminesTerms(e: ExecutorTrust, a: Terms, b: Terms, tokens: seq<Address>)
    requires PlanExecutor(e, a, tokens).Ok? && PlanExecutor(e, b, tokens).Ok?
    requires PlanExecutor(e, a, tokens).value.data == PlanExecutor(e, b, tokens).value.data
    ensures a.tokenIn == b.tokenIn && a.tokenOut == b.tokenOut && Amounts(a) == Amounts(b)
    ensures |a.allocations| == |b.allocations| && AllEncodable(a.allocations) && AllEncodable(b.allocations)
    ensures forall i :: 0 <= i < |a.allocations| ==>
              && VenueNumber(a.allocations[i].route.value.provider) == VenueNumber(b.allocations[i].route.value.provider)
              && Uint256(a.allocations[i].amountIn) == Uint256(b.allocations[i].amountIn)
              && LocalHops(a.allocations[i].route.value.legs) == LocalHops(b.allocations[i].route.value.legs)
  {
    hide PlanOk, Uint256, TotalInput, PlanTouches, PlanIntermediates, Print, VenueNumber, Amounts;
    var x, y := LocalAllocations(a.allocations), LocalAllocations(b.allocations);
    SameAmounts(Amounts(a), Amounts(b));
    assert x == y;
    forall i | 0 <= i < |a.allocations|
      ensures LocalAllocation(a.allocations[i]) == LocalAllocation(b.allocations[i])
      ensures Encodable(a.allocations[i]) && Encodable(b.allocations[i])
    {
      assert x[i] == y[i];
    }
  }

  // ---------- at the policy ----------

  // Whatever two responses say, if the policy accepts both as swaps over the same transaction and the
  // same fee deployment, the user consented to the same path, amounts, recipient and deadline.
  lemma OneTransactionOneConsent(
      a: Response, b: Response, signer: Address, chainId: string, slippageA: nat, slippageB: nat, trusted: Trusted,
      nowA: nat, nowB: nat)
    requires AcceptedSwap(a, signer, chainId, slippageA, trusted, nowA)
    requires AcceptedSwap(b, signer, chainId, slippageB, trusted, nowB)
    requires a.transaction == b.transaction && a.terms.route.Some? && b.terms.route.Some?
    requires a.terms.route.value.deploymentId == b.terms.route.value.deploymentId
    requires a.terms.route.value.deploymentId in trusted.deployments
    requires !trusted.deployments[a.terms.route.value.deploymentId].Other?
    ensures Tokens(a.terms.route.value.legs) == Tokens(b.terms.route.value.legs)
    ensures FeesOf(a.terms.route.value.legs) == FeesOf(b.terms.route.value.legs)
    ensures SpacingsOf(a.terms.route.value.legs) == SpacingsOf(b.terms.route.value.legs)
    ensures Amounts(a.terms) == Amounts(b.terms) && a.terms.recipient == b.terms.recipient
  {
    hide ValidatePreparation, AcceptedSwap, PlanDirect, Tokens, FeesOf, SpacingsOf, Amounts, Uint256;
    AcceptedSwapIsLocal(a, signer, chainId, slippageA, trusted, nowA);
    AcceptedSwapIsLocal(b, signer, chainId, slippageB, trusted, nowB);
    var impl := trusted.deployments[a.terms.route.value.deploymentId];
    if FeeTrust(impl) {
      FeeTransactionDeterminesTerms(impl, a, b, trusted.tokens);
      NoSpacings(impl, a, trusted.tokens);
      NoSpacings(impl, b, trusted.tokens);
      SameLength(a.terms.route.value.legs, b.terms.route.value.legs);
    } else {
      SpacingTransactionDeterminesTerms(impl.pools, a, b, trusted.tokens);
      NoFees(impl.pools, a, trusted.tokens);
      NoFees(impl.pools, b, trusted.tokens);
      SameLength(a.terms.route.value.legs, b.terms.route.value.legs);
    }
  }

  lemma SameLength(a: seq<Leg>, b: seq<Leg>)
    requires a != [] && b != [] && Tokens(a) == Tokens(b)
    ensures |a| == |b|
    ensures (forall i :: 0 <= i < |a| ==> SpacingsOf(a)[i] == 0) && (forall i :: 0 <= i < |b| ==> SpacingsOf(b)[i] == 0) ==>
              SpacingsOf(a) == SpacingsOf(b)
    ensures (forall i :: 0 <= i < |a| ==> FeesOf(a)[i] == 0) && (forall i :: 0 <= i < |b| ==> FeesOf(b)[i] == 0) ==>
              FeesOf(a) == FeesOf(b)
  {
    assert |Tokens(a)| == |Tokens(b)|;
  }

  lemma NoSpacings(impl: Implementation, r: Response, tokens: seq<Address>)
    requires FeeTrust(impl) && PlanDirect(impl, r, tokens).Ok?
    ensures r.terms.route.Some? && r.terms.route.value.legs != []
    ensures forall i :: 0 <= i < |r.terms.route.value.legs| ==> SpacingsOf(r.terms.route.value.legs)[i] == 0
  {
    hide PlanDirect;
    FeePlanBytes(impl, r, tokens);
    assert forall i :: 0 <= i < |r.terms.route.value.legs| ==> FeeLeg(r.terms.route.value.legs[i]);
  }

  lemma NoFees(d: SpacingDeployment, r: Response, tokens: seq<Address>)
    requires PlanDirect(Slipstream(d), r, tokens).Ok?
    ensures r.terms.route.Some? && r.terms.route.value.legs != []
    ensures forall i :: 0 <= i < |r.terms.route.value.legs| ==> FeesOf(r.terms.route.value.legs)[i] == 0
  {
    hide PlanDirect;
    SpacingPlanBytes(d, r, tokens);
    assert forall i :: 0 <= i < |r.terms.route.value.legs| ==> SpacingLeg(r.terms.route.value.legs[i]);
  }
}
