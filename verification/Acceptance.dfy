// What the terminal has made sure of when it accepts a response, field by field, whatever the engine wrote.
module Acceptance {
  import opened Messages
  import opened Numerals
  import opened PathQuotes
  import opened Paths
  import opened Policy

  // A decimal text of a positive number.
  predicate Positive(s: string) { IsDecimal(s) && Value(s) > 0 }

  lemma PositiveTexts(s: string)
    ensures IsPositiveInteger(s) ==> Positive(s)
  {
    if IsPositiveInteger(s) { CanonicalText(s); }
  }

  // Whatever is accepted is executable and not over; it acts for the signer on the configured chain, without
  // value; it trades a positive amount between two different configured tokens over a route or over at most
  // two allocations; and its minimum is the quoted output of the local plan less the slippage, rounded down
  // once.
  lemma AcceptedIsCurrent(r: Response, signer: Address, chainId: string, slippageBps: nat, trusted: Trusted, now: nat)
    requires ValidatePreparation(r, signer, chainId, slippageBps, trusted, now).Ok?
    ensures r.status == Ready || r.status == ApprovalRequired
    ensures IsDecimal(r.terms.deadline) && now < Value(r.terms.deadline) < UINT256_LIMIT
    ensures IsDecimal(r.terms.expiresAt) && now < Value(r.terms.expiresAt)
    ensures
      var tx := ValidatePreparation(r, signer, chainId, slippageBps, trusted, now).value.transaction;
      && tx.from == signer == r.terms.recipient && tx.chainId == chainId && tx.value == "0" && Positive(tx.gasLimit)
      && tx.data != OtherBytes([])
    ensures r.terms.preparationId != "" && r.terms.tokenIn != r.terms.tokenOut
    ensures r.terms.tokenIn in trusted.tokens && r.terms.tokenOut in trusted.tokens
    ensures (r.terms.route.Some? && r.terms.allocations == []) || (r.terms.route.None? && 1 <= |r.terms.allocations| <= 2)
    ensures Positive(r.terms.amountIn) && Value(r.terms.amountIn) < UINT256_LIMIT
    ensures Positive(r.terms.minimum) && slippageBps < 10000 && LocalTerms(r, trusted).Ok?
    ensures
      var quoted := LocalTerms(r, trusted).value.quotedOutput;
      && Positive(quoted) && Value(quoted) < UINT256_LIMIT
      && Value(r.terms.minimum) == Value(quoted) * (10000 - slippageBps) / 10000
  {
    hide LocalTerms, PermissionOk, ApprovalOk, IsPositiveInteger, Value, AllDigits;
    PositiveTexts(r.terms.minimum);
    PositiveTexts(r.terms.amountIn);
    PositiveTexts(Chosen(r).value.gasLimit);
  }

  // The amount of an accepted response is written the one way a number is printed.
  lemma AcceptedIsCanonical(r: Response, signer: Address, chainId: string, slippageBps: nat, trusted: Trusted, now: nat)
    requires ValidatePreparation(r, signer, chainId, slippageBps, trusted, now).Ok?
    ensures IsDecimal(r.terms.amountIn) && Print(Value(r.terms.amountIn)) == r.terms.amountIn
  {
    hide LocalTerms, PermissionOk, ApprovalOk, Value;
    CanonicalText(r.terms.amountIn);
  }

  // An accepted ERC-20 approval goes to the input token and approves exactly the input amount, to the locally
  // planned spender; the response that asks for it carries no swap and no permission.
  lemma AcceptedApprovalIsLocal(
      r: Response, signer: Address, chainId: string, slippageBps: nat, trusted: Trusted, now: nat)
    requires ValidatePreparation(r, signer, chainId, slippageBps, trusted, now).Ok?
    requires r.status == ApprovalRequired && r.permission.None?
    ensures LocalTerms(r, trusted).Ok? && r.transaction.None? && IsDecimal(r.terms.amountIn)
    ensures
      var plan, spender := ValidatePreparation(r, signer, chainId, slippageBps, trusted, now).value,
                           LocalTerms(r, trusted).value.spender;
      && plan == ApprovalPlan(plan.transaction, spender) && r.approvalSpender == Some(spender)
      && r.approvalTransaction == Some(plan.transaction)
      && plan.transaction.to == r.terms.tokenIn
      && plan.transaction.data == Approve(spender, Value(r.terms.amountIn))
  {
    hide LocalTerms, IsPositiveInteger, Current, MinimumOk;
  }

  // An accepted permission is granted at the locally planned contract, for the input token and exactly the
  // input amount, to the router of the local plan, for half an hour past the deadline; the response carries
  // no swap and no ERC-20 approval.
  lemma AcceptedPermissionIsLocal(
      r: Response, signer: Address, chainId: string, slippageBps: nat, trusted: Trusted, now: nat)
    requires ValidatePreparation(r, signer, chainId, slippageBps, trusted, now).Ok?
    requires r.status == ApprovalRequired && r.permission.Some?
    ensures LocalTerms(r, trusted).Ok? && r.transaction.None? && r.approvalTransaction.None? && r.approvalSpender.None?
    ensures
      var plan, terms := ValidatePreparation(r, signer, chainId, slippageBps, trusted, now).value,
                         LocalTerms(r, trusted).value;
      var grant := r.permission.value;
      && terms.permission == Some(PermissionTerms(terms.spender, terms.target))
      && plan == ApprovalPlan(plan.transaction, terms.spender) && grant.transaction == Some(plan.transaction)
      && grant.target == terms.spender && grant.spender == terms.target && grant.token == r.terms.tokenIn
      && grant.amount == r.terms.amountIn && IsDecimal(grant.amount)
      && IsDecimal(grant.expiration) && IsDecimal(r.terms.deadline)
      && Value(grant.expiration) == Value(r.terms.deadline) + 30 * 60 < 0x1_0000_0000_0000
      && plan.transaction.to == terms.spender
      && plan.transaction.data
         == PermitApprove(r.terms.tokenIn, terms.target, Value(grant.amount), Value(grant.expiration))
  {
    hide LocalTerms, IsPositiveInteger, MinimumOk, Value, AllDigits;
  }

  // A swap carries no approval of either kind.
  lemma AcceptedSwapCarriesNoApproval(
      r: Response, signer: Address, chainId: string, slippageBps: nat, trusted: Trusted, now: nat)
    requires ValidatePreparation(r, signer, chainId, slippageBps, trusted, now).Ok?
    requires r.status == Ready
    ensures r.approvalSpender.None? && r.approvalTransaction.None? && r.permission.None? && LocalTerms(r, trusted).Ok?
    ensures
      var plan, terms := ValidatePreparation(r, signer, chainId, slippageBps, trusted, now).value,
                         LocalTerms(r, trusted).value;
      && r.transaction == Some(plan.transaction)
      && plan.transaction.to == terms.target && plan.transaction.data == terms.data
      && plan == SwapPlan(plan.transaction, terms.spender,
                          Obligations(r.terms.tokenIn, r.terms.tokenOut, signer, r.terms.amountIn, r.terms.minimum,
                                      terms.intermediate, terms.touched))
  {
    hide LocalTerms, IsPositiveInteger, MinimumOk, Value, AllDigits;
  }

  // ---------- the local plan of a direct route ----------

  // A leg over configured tokens at a configured fee, in no V4 pool.
  predicate ConfiguredFeeLeg(leg: Leg, fees: seq<nat>, tokens: seq<Address>) {
    && leg.tokenIn in tokens && leg.tokenOut in tokens && !leg.hasV4PoolKey
    && leg.selector.FeePips? && leg.selector.fee in fees && leg.selector.fee < 1000000
  }

  predicate Connected(legs: seq<Leg>, tokenIn: Address, tokenOut: Address) {
    && (|legs| == 1 || |legs| == 2)
    && legs[0].tokenIn == tokenIn && legs[|legs| - 1].tokenOut == tokenOut
    && forall i :: 0 < i < |legs| ==> legs[i - 1].tokenOut == legs[i].tokenIn
  }

  // What the local plan of a fee route amounts to: the configured router is both the target and the spender;
  // every leg is configured, and the call packs its path with the terms' own amounts, recipient and deadline.
  lemma FeePlanIsConfigured(r: Response, trusted: Trusted)
    requires r.terms.route.Some? && LocalTerms(r, trusted).Ok?
    requires
      var id := r.terms.route.value.deploymentId;
      id in trusted.deployments ==> trusted.deployments[id].Uniswap? || trusted.deployments[id].Pancake?
    ensures r.terms.route.value.deploymentId in trusted.deployments
    ensures
      var route, terms := r.terms.route.value, LocalTerms(r, trusted).value;
      var impl := trusted.deployments[route.deploymentId];
      var d := impl.deployment;
      && terms.target == terms.spender == d.router && route.provider == d.kind
      && Connected(route.legs, r.terms.tokenIn, r.terms.tokenOut)
      && (forall i :: 0 <= i < |route.legs| ==> ConfiguredFeeLeg(route.legs[i], d.fees, trusted.tokens))
      && terms.quotedOutput == route.amountOut && Positive(route.amountOut)
      && terms.intermediate == (if |route.legs| == 1 then [] else [BalanceProbe(route.legs[0].tokenOut, d.router)])
      && terms.touched == [] && terms.permission.None?
      && IsDecimal(r.terms.amountIn) && IsDecimal(r.terms.minimum) && IsDecimal(r.terms.deadline)
      && var path := Packed(Tokens(route.legs), FeesOf(route.legs));
         terms.data ==
           if impl.Uniswap? then
             Multicall(Value(r.terms.deadline),
                       ExactInput(path, r.terms.recipient, Value(r.terms.amountIn), Value(r.terms.minimum)))
           else
             ExactInputWithDeadline(path, r.terms.recipient, Value(r.terms.deadline), Value(r.terms.amountIn),
                                    Value(r.terms.minimum))
  {
    hide Packed, Tokens, FeesOf, Decode, Value, AllDigits;
    var route := r.terms.route.value;
    var impl := trusted.deployments[route.deploymentId];
    assert forall i :: 0 <= i < |route.legs| ==> AdmitV3Leg(route.legs[i], impl.deployment.fees, trusted.tokens)
                                                 && FeeLeg(route.legs[i]);
    V3PathsAgree(route.legs);
  }

  // The same for a route over tick spacings.
  lemma SpacingPlanIsConfigured(r: Response, trusted: Trusted)
    requires r.terms.route.Some? && LocalTerms(r, trusted).Ok?
    requires
      var id := r.terms.route.value.deploymentId;
      id in trusted.deployments ==> trusted.deployments[id].Slipstream?
    ensures r.terms.route.value.deploymentId in trusted.deployments
    ensures
      var route, terms := r.terms.route.value, LocalTerms(r, trusted).value;
      var d := trusted.deployments[route.deploymentId].pools;
      && terms.target == terms.spender == d.router && route.provider == "aerodrome-slipstream"
      && Connected(route.legs, r.terms.tokenIn, r.terms.tokenOut)
      && (forall i :: 0 <= i < |route.legs| ==>
            && route.legs[i].tokenIn in trusted.tokens && route.legs[i].tokenOut in trusted.tokens
            && !route.legs[i].hasV4PoolKey && route.legs[i].selector.TickSpacing?
            && route.legs[i].selector.spacing in d.spacings)
      && terms.quotedOutput == route.amountOut && Positive(route.amountOut)
      && terms.intermediate == (if |route.legs| == 1 then [] else [BalanceProbe(route.legs[0].tokenOut, d.router)])
      && terms.touched == [] && terms.permission.None?
      && IsDecimal(r.terms.amountIn) && IsDecimal(r.terms.minimum) && IsDecimal(r.terms.deadline)
      && terms.data ==
         ExactInputWithDeadline(
           Packed(Tokens(route.legs), MaskedAll(SpacingsOf(route.legs))), r.terms.recipient, Value(r.terms.deadline),
           Value(r.terms.amountIn), Value(r.terms.minimum))
  {
    hide Packed, Tokens, SpacingsOf, MaskedAll, Decode, SignedWord, Value, AllDigits;
    SlipstreamPathsAgree(r.terms.route.value.legs);
  }

  // ---------- the local plan of an executor ----------

  // The amounts of an allocation's texts.
  predicate AllocatesAmounts(a: QuotedAllocation) {
    Positive(a.amountIn) && Value(a.amountIn) < UINT256_LIMIT && a.route.Some? && Positive(a.route.value.amountOut)
  }

  // An allocation over a configured venue: a configured fee route of the whole pair that visits no token
  // twice, positive amounts on both sides, and the block every allocation was quoted at.
  predicate ConfiguredAllocation(
      e: ExecutorTrust, p: Terms, tokens: seq<Address>, a: QuotedAllocation, block: Option<Block>)
  {
    && AllocatesAmounts(a)
    && var route := a.route.value;
       && route.deploymentId in e.venues && route.provider == e.venues[route.deploymentId].kind
       && (route.provider == "uniswap-v3" || route.provider == "pancake-v3")
       && Connected(route.legs, p.tokenIn, p.tokenOut) && (|route.legs| == 2 ==> route.legs[0].tokenOut != p.tokenIn)
       && (|route.legs| == 2 ==> route.legs[0].tokenOut != p.tokenOut) && p.tokenIn != p.tokenOut
       && (forall i :: 0 <= i < |route.legs| ==>
             ConfiguredFeeLeg(route.legs[i], e.venues[route.deploymentId].fees, tokens))
       && route.block.Some? && route.block == block && IsHash(route.block.value.hash) && IsDecimal(route.block.value.number)
  }

  // What one allocation packs to: the venue, the amount and, leg by leg, the next token and the fee.
  predicate PacksAllocation(a: QuotedAllocation, packed: ExecutorAllocation) {
    && a.route.Some? && IsDecimal(a.amountIn) && packed.amountIn == Value(a.amountIn)
    && packed.venue == (if a.route.value.provider == "uniswap-v3" then 0 else 1)
    && |packed.hops| == |a.route.value.legs|
    && forall i :: 0 <= i < |packed.hops| ==>
         && a.route.value.legs[i].selector.FeePips?
         && packed.hops[i] == Hop(a.route.value.legs[i].tokenOut, a.route.value.legs[i].selector.fee)
  }

  lemma AllocationIsConfigured(e: ExecutorTrust, p: Terms, tokens: seq<Address>, a: QuotedAllocation, block: Option<Block>)
    requires AllocationOk(e, p, tokens, a) && BlockOk(BlockOf(a), block) && Encodable(a)
    ensures ConfiguredAllocation(e, p, tokens, a, block) && PacksAllocation(a, LocalAllocation(a)) && AllocatesAmounts(a)
    ensures Input(a) == Value(a.amountIn) && Output(a) == Value(a.route.value.amountOut)
  {
    hide Value, AllDigits;
    var legs := a.route.value.legs;
    assert PathTokens(legs)[0] == p.tokenIn && PathTokens(legs)[|legs|] == p.tokenOut;
    assert |legs| == 2 ==> PathTokens(legs)[1] == legs[0].tokenOut;
    assert forall i :: 0 <= i < |legs| ==> AdmitV3Leg(legs[i], e.venues[a.route.value.deploymentId].fees, tokens);
    forall i | 0 <= i < |legs| ensures LocalHops(legs)[i] == Hop(legs[i].tokenOut, legs[i].selector.fee) {}
  }

  // What the local plan of an executor response amounts to: one or two configured allocations over different
  // venues, at one block; their inputs add up to the input amount and their outputs to the quoted output; the
  // executor is target and spender, and the call packs the terms and every allocation in order.
  lemma ExecutorPlanIsConfigured(r: Response, trusted: Trusted)
    requires r.terms.route.None? && LocalTerms(r, trusted).Ok?
    ensures trusted.executor.Some?
    ensures
      var e, p, terms := trusted.executor.value, r.terms, LocalTerms(r, trusted).value;
      && (|p.allocations| == 1 || |p.allocations| == 2)
      && (forall i :: 0 <= i < |p.allocations| ==>
            ConfiguredAllocation(e, p, trusted.tokens, p.allocations[i], p.allocations[0].route.value.block))
      && (|p.allocations| == 2 ==>
            p.allocations[0].route.value.deploymentId != p.allocations[1].route.value.deploymentId)
      && IsDecimal(p.amountIn) && IsDecimal(p.minimum) && IsDecimal(p.deadline)
      && Value(p.amountIn) == Value(p.allocations[0].amountIn)
                              + (if |p.allocations| == 2 then Value(p.allocations[1].amountIn) else 0)
      && terms.target == terms.spender == e.address && terms.permission.None?
      && |terms.intermediate| == |PlanIntermediates(p.allocations)|
      && (forall i :: 0 <= i < |terms.intermediate| ==>
            terms.intermediate[i] == BalanceProbe(PlanIntermediates(p.allocations)[i], e.address))
      && terms.touched == PlanTouches(e, p, p.allocations)
      && terms.quotedOutput == Print(Value(p.allocations[0].route.value.amountOut)
                                     + (if |p.allocations| == 2 then Value(p.allocations[1].route.value.amountOut) else 0))
      && terms.data.Execute?
      && terms.data == Execute(p.tokenIn, p.tokenOut, Value(p.amountIn), Value(p.minimum), Value(p.deadline),
                               terms.data.allocations)
      && |terms.data.allocations| == |p.allocations|
      && forall i :: 0 <= i < |p.allocations| ==> PacksAllocation(p.allocations[i], terms.data.allocations[i])
  {
    hide AllocationOk, BlockOk, ConfiguredAllocation, PacksAllocation, Encodable, LocalAllocation, Value, AllDigits, Print,
      PlanTouches, PlanIntermediates, Input, Output;
    var e, p := trusted.executor.value, r.terms;
    forall i | 0 <= i < |p.allocations|
      ensures ConfiguredAllocation(e, p, trusted.tokens, p.allocations[i], BlockOf(p.allocations[0]))
      ensures PacksAllocation(p.allocations[i], LocalAllocations(p.allocations)[i]) && AllocatesAmounts(p.allocations[i])
      ensures Input(p.allocations[i]) == Value(p.allocations[i].amountIn)
      ensures Output(p.allocations[i]) == Value(p.allocations[i].route.value.amountOut)
    {
      AllocationIsConfigured(e, p, trusted.tokens, p.allocations[i], BlockOf(p.allocations[0]));
    }
    OneOrTwo(p.allocations);
  }

  lemma OneOrTwo(allocations: seq<QuotedAllocation>)
    requires |allocations| == 1 || |allocations| == 2
    ensures
      var both := |allocations| == 2;
      && TotalInput(allocations) == Input(allocations[0]) + (if both then Input(allocations[1]) else 0)
      && TotalOutput(allocations) == Output(allocations[0]) + (if both then Output(allocations[1]) else 0)
  {
    assert allocations[..|allocations| - 1] == if |allocations| == 2 then [allocations[0]] else [];
    assert TotalInput([]) == 0 == TotalOutput([]) && [allocations[0]][..0] == [];
    assert TotalInput([allocations[0]]) == Input(allocations[0]);
    assert TotalOutput([allocations[0]]) == Output(allocations[0]);
  }
}
