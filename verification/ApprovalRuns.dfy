// Engine and terminal over whole runs, for the answers that ask for an authorization: over a searched build
// the terminal accepts every ERC-20 approval the engine asks for, and a permission exactly as planned.
module ApprovalRuns {
  import opened Messages
  import opened Numerals
  import opened PreparationProtocol
  import opened PreparationSafety
  import opened PreparationTheorems
  import opened PreparationRecord
  import opened Policy
  import opened Routers
  import opened Agreement
  import opened EngineRuns
  import opened Acceptance
  import E = Executor

  // ---------- at the policy ----------

  // An ERC-20 answer over terms whose ready answer would be accepted is accepted.
  lemma ApprovalIsAccepted(
      r: Response, ready: Response, signer: Address, chainId: string, slippageBps: nat, trusted: Trusted, now: nat)
    requires ValidatePreparation(ready, signer, chainId, slippageBps, trusted, now).Ok? && ready.status == Ready
    requires r.terms == ready.terms && LocalTerms(r, trusted) == LocalTerms(ready, trusted) && LocalTerms(r, trusted).Ok?
    requires r.status == ApprovalRequired && r.transaction.None? && r.permission.None? && IsDecimal(r.terms.amountIn)
    requires
      var spender := LocalTerms(r, trusted).value.spender;
      && r.approvalSpender == Some(spender)
      && r.approvalTransaction
         == Some(Transaction(chainId, signer, r.terms.tokenIn, Approve(spender, Value(r.terms.amountIn)), "0", "100000"))
    ensures ValidatePreparation(r, signer, chainId, slippageBps, trusted, now)
         == Ok(ApprovalPlan(r.approvalTransaction.value, LocalTerms(r, trusted).value.spender))
  {
    hide LocalTerms, MinimumOk, Value;
    assert AllDigits("100000");
  }

  // So is a permission that names the local plan's parties, the whole input, and half an hour past the deadline.
  lemma PermissionIsAccepted(
      r: Response, ready: Response, signer: Address, chainId: string, slippageBps: nat, trusted: Trusted, now: nat)
    requires ValidatePreparation(ready, signer, chainId, slippageBps, trusted, now).Ok? && ready.status == Ready
    requires r.terms == ready.terms && LocalTerms(r, trusted) == LocalTerms(ready, trusted) && LocalTerms(r, trusted).Ok?
    requires r.status == ApprovalRequired && r.transaction.None? && r.approvalTransaction.None? && r.approvalSpender.None?
    requires IsDecimal(r.terms.amountIn) && IsDecimal(r.terms.deadline)
    requires Value(r.terms.deadline) + 30 * 60 < 0x1_0000_0000_0000
    requires
      var terms, expiration := LocalTerms(r, trusted).value, Value(r.terms.deadline) + 30 * 60;
      && terms.permission == Some(PermissionTerms(terms.spender, terms.target))
      && r.permission == Some(OnChainPermission(
           terms.spender, r.terms.tokenIn, terms.target, r.terms.amountIn, Print(expiration),
           Some(Transaction(chainId, signer, terms.spender,
                            PermitApprove(r.terms.tokenIn, terms.target, Value(r.terms.amountIn), expiration), "0",
                            "100000"))))
    ensures ValidatePreparation(r, signer, chainId, slippageBps, trusted, now)
         == Ok(ApprovalPlan(r.permission.value.transaction.value, LocalTerms(r, trusted).value.spender))
  {
    hide LocalTerms, MinimumOk, Value, Print;
    assert AllDigits("100000");
    PrintRoundTrip(Value(r.terms.deadline) + 30 * 60);
  }

  // ---------- over a run ----------

  // An answer that asks for an approval carries the terms of its build, and authorizes what they say: the input
  // token, the spender of the plan, the input amount; or the permission of the plan.
  lemma ApprovalAnswersCarryTheBuild(chains: Chains, steps: seq<Step>, k: nat, a: Issued)
    requires k < |steps| && Freezes(chains, Run(chains, steps[..k]), steps[k])
    requires a in Run(chains, steps).answers && a.response.status == ApprovalRequired
    requires a.response.terms.preparationId == steps[k].input.preparationId
    ensures a.response.terms == BuildTerms(Run(chains, steps[..k]), steps[k]) && a.response.transaction.None?
    ensures At(Run(chains, steps[..k]), steps[k].rid).quote.value.value.request.chain in chains
    ensures a.response.approvalTransaction.None? ==> a.response.permission.Some? && a.response.approvalSpender.None?
    ensures
      var plan, p := steps[k].input.plan.value, a.response.terms;
      var chainId := chains[At(Run(chains, steps[..k]), steps[k].rid).quote.value.value.request.chain];
      && (a.response.approvalTransaction.Some? && IsDecimal(p.amountIn) ==>
            && a.response.approvalSpender == Some(plan.spender)
            && a.response.approvalTransaction
               == Some(Transaction(chainId, p.recipient, p.tokenIn, Approve(plan.spender, Value(p.amountIn)), "0",
                                   "100000")))
      && (a.response.permission.Some? ==>
            && plan.permission.Some?
            && var g := plan.permission.value;
               a.response.permission
               == Some(OnChainPermission(
                    g.target, g.token, g.spender, Print(g.amount), Print(g.expiration),
                    Some(Transaction(chainId, p.recipient, g.target,
                                     PermitApprove(g.token, g.spender, g.amount, g.expiration), "0", "100000")))))
  {
    hide Apply, BuildTerms, SameButSelection, FieldsOk, AnswerShape;
    var s := Run(chains, steps[..k]);
    var id := steps[k].input.preparationId;
    FreezingFixesTerms(chains, s, steps[k]);
    FreezingFixesChain(chains, s, steps[k]);
    assert steps[..k + 1][..k] == steps[..k] && steps[..k + 1][k] == steps[k];
    assert Run(chains, steps[..k + 1]) == Apply(chains, s, steps[k]);
    FrozenForever(chains, steps, k + 1, id);
    TwoClasses(chains, steps, a, a);
    ApprovalAnswerFields(chains, steps, a);
    FieldsWritten(chains, Run(chains, steps).history.frozen[id], a.response);
  }

  // A build runs on the chain of its quote, and only on one the engine is configured for.
  lemma FreezingFixesChain(chains: Chains, s: State, step: Step)
    requires Freezes(chains, s, step)
    ensures
      var f := Apply(chains, s, step).history.frozen[step.input.preparationId];
      f.chain == At(s, step.rid).quote.value.value.request.chain && f.chain in chains
  {
    hide Admit, FreshResponse, FindRoute;
  }

  lemma ApprovalAnswerFields(chains: Chains, steps: seq<Step>, a: Issued)
    requires a in Run(chains, steps).answers && a.response.status == ApprovalRequired
    ensures
      var h, id := Run(chains, steps).history, IdOf(a);
      && id in h.frozen && a.response.terms == h.frozen[id].terms
      && (a.response.approvalTransaction.None? ==> a.response.permission.Some?)
      && FieldsOk(chains, h.frozen[id], a.response.terms, a.response)
  {
    hide RequestsOk, QuotesOk, LatchOk, PreparationsOk, MarksOk, TaintOk, BornOk, HistoryOk, ApprovalTransaction, Permission;
    RunInv(chains, steps);
    AnsweredTerms(chains, steps, a);
    assert IssuedOk(chains, Run(chains, steps).history, a);
  }

  // The approval fields of an answer, written out.
  lemma FieldsWritten(chains: Chains, f: Frozen, r: Response)
    requires FieldsOk(chains, f, r.terms, r) && f.chain in chains
    ensures r.approvalTransaction.Some? && IsDecimal(r.terms.amountIn) ==>
              && r.approvalSpender == Some(f.plan.spender)
              && r.approvalTransaction
                 == Some(Transaction(chains[f.chain], r.terms.recipient, r.terms.tokenIn,
                                     Approve(f.plan.spender, Value(r.terms.amountIn)), "0", "100000"))
    ensures r.approvalTransaction.None? ==> r.approvalSpender.None?
    ensures r.permission.Some? ==>
              && f.plan.permission.Some?
              && var g := f.plan.permission.value;
                 r.permission
                 == Some(OnChainPermission(
                      g.target, g.token, g.spender, Print(g.amount), Print(g.expiration),
                      Some(Transaction(chains[f.chain], r.terms.recipient, g.target,
                                       PermitApprove(g.token, g.spender, g.amount, g.expiration), "0", "100000"))))
  {
    hide Value, Print, AllDigits;
  }

  // ---------- over searched builds ----------

  // The ready answer of a build, whether or not any call gave it.
  function ReadyForm(terms: Terms, plan: Plan): Response {
    Response(Ready, "", terms, Some(plan.transaction), None, None, None, None, "")
  }

  // The terminal accepts an approval for the caller and the slippage of the build's request.
  ghost predicate ApprovalAccepted(
      s: State, step: Step, r: Response, chainId: string, spender: Address, trusted: Trusted, now: nat)
    requires step.DoBuild? && BuildReady(s, step)
  {
    var request := At(s, step.rid).request;
    && r.approvalTransaction.Some?
    && ValidatePreparation(r, request.sender.value, chainId, request.slippageBps, trusted, now)
       == Ok(ApprovalPlan(r.approvalTransaction.value, spender))
  }

  lemma BuildTermsFields(s: State, step: Step)
    requires step.DoBuild? && BuildReady(s, step)
    ensures BuildTerms(s, step).recipient == At(s, step.rid).request.sender.value
  {}

  // One build whose plan needs no permission: if its ready answer would be accepted, so is every ERC-20 answer.
  lemma Erc20AnswerIsAccepted(
      chains: Chains, steps: seq<Step>, k: nat, a: Issued, chainId: string, trusted: Trusted, now: nat)
    requires k < |steps| && Freezes(chains, Run(chains, steps[..k]), steps[k])
    requires a in Run(chains, steps).answers && a.response.status == ApprovalRequired
    requires a.response.terms.preparationId == steps[k].input.preparationId
    requires
      var s := Run(chains, steps[..k]);
      var ready := ReadyForm(BuildTerms(s, steps[k]), steps[k].input.plan.value);
      && At(s, steps[k].rid).quote.value.value.request.chain in chains
      && chains[At(s, steps[k].rid).quote.value.value.request.chain] == chainId
      && steps[k].input.plan.value.permission.None? && Accepted(s, steps[k], ready, chainId, trusted, now)
      && LocalTerms(a.response.(terms := ready.terms), trusted) == LocalTerms(ready, trusted)
      && LocalTerms(ready, trusted).Ok? && LocalTerms(ready, trusted).value.spender == steps[k].input.plan.value.spender
    ensures ApprovalAccepted(
              Run(chains, steps[..k]), steps[k], a.response, chainId, steps[k].input.plan.value.spender, trusted, now)
  {
    hide Run, Freezes, BuildTerms, LocalTerms, ValidatePreparation, Value, AllDigits;
    BuildIsReady(chains, Run(chains, steps[..k]), steps[k]);
    ApprovalAnswersCarryTheBuild(chains, steps, k, a);
    var s := Run(chains, steps[..k]);
    var request := At(s, steps[k].rid).request;
    var ready := ReadyForm(BuildTerms(s, steps[k]), steps[k].input.plan.value);
    BuildTermsFields(s, steps[k]);
    AcceptedIsCurrent(ready, request.sender.value, chainId, request.slippageBps, trusted, now);
    assert a.response.(terms := ready.terms) == a.response;
    ApprovalIsAccepted(a.response, ready, request.sender.value, chainId, request.slippageBps, trusted, now);
  }

  // Every unexpired answer over a searched direct route that asks for an approval is accepted, as the approval
  // it carries: of the input amount, to the configured router.
  lemma DirectApprovalsAreAccepted(
      chains: Chains, steps: seq<Step>, k: nat, a: Issued, d: DirectPreparer, trusted: Trusted, route: Route,
      output: nat, now: nat)
    requires k < |steps| && Freezes(chains, Run(chains, steps[..k]), steps[k])
    requires DirectBuild(Run(chains, steps[..k]), steps[k], d, trusted, route, output)
    requires a in Run(chains, steps).answers && a.response.status == ApprovalRequired
    requires a.response.terms.preparationId == steps[k].input.preparationId && Unexpired(a.response.terms, now)
    requires
      var chain := At(Run(chains, steps[..k]), steps[k].rid).quote.value.value.request.chain;
      chain in chains ==> chains[chain] == d.chainId
    ensures ApprovalAccepted(Run(chains, steps[..k]), steps[k], a.response, d.chainId, d.target, trusted, now)
  {
    hide Run, Freezes, DirectBuild, Accepted, BuildReady, BuildTerms, Unexpired, ApprovalAccepted, LocalTerms;
    var s := Run(chains, steps[..k]);
    BuildIsReady(chains, s, steps[k]);
    ApprovalAnswersCarryTheBuild(chains, steps, k, a);
    var ready := ReadyForm(BuildTerms(s, steps[k]), steps[k].input.plan.value);
    DirectBuildIsAccepted(s, steps[k], ready, d, trusted, route, output, now);
    DirectLocalTerms(s, steps[k], a.response, d, trusted, route, output, now);
    Erc20AnswerIsAccepted(chains, steps, k, a, d.chainId, trusted, now);
  }

  lemma DirectLocalTerms(
      s: State, step: Step, r: Response, d: DirectPreparer, trusted: Trusted, route: Route, output: nat, now: nat)
    requires step.DoBuild? && BuildReady(s, step) && DirectBuild(s, step, d, trusted, route, output)
    requires step.input.plan.Some? && r.terms == BuildTerms(s, step)
    requires Accepted(s, step, ReadyForm(r.terms, step.input.plan.value), d.chainId, trusted, now)
    ensures step.input.plan.value.permission.None? && step.input.plan.value.spender == d.target
    ensures
      var ready := ReadyForm(r.terms, step.input.plan.value);
      LocalTerms(r, trusted) == LocalTerms(ready, trusted) && LocalTerms(ready, trusted).Ok?
      && LocalTerms(ready, trusted).value.spender == d.target
  {
    hide ValidatePreparation, BuildTerms, Uint256, AdmitV3Route, AdmitSpacingRoute, UniswapData, PancakeData,
      SlipstreamData, SearchedFor, AdmittedRequest, Intermediate, Print, Routable, E.AmountOf, RequestLeft, DirectChecks,
      RouterCall, PathBytes;
    var request := At(s, step.rid).request;
    var ready := ReadyForm(r.terms, step.input.plan.value);
    AcceptedIsCurrent(ready, request.sender.value, d.chainId, request.slippageBps, trusted, now);
    assert r.terms.route == Some(route);
  }

  // The same over an admitted executor plan.
  lemma ExecutorApprovalsAreAccepted(
      chains: Chains, steps: seq<Step>, k: nat, a: Issued, chain: E.Chain, e: ExecutorTrust, trusted: Trusted,
      requested: seq<RouteAllocation>, allocations: seq<QuotedAllocation>, now: nat)
    requires k < |steps| && Freezes(chains, Run(chains, steps[..k]), steps[k])
    requires ExecutorBuild(Run(chains, steps[..k]), steps[k], chain, e, trusted, requested, allocations)
    requires a in Run(chains, steps).answers && a.response.status == ApprovalRequired
    requires a.response.terms.preparationId == steps[k].input.preparationId && Unexpired(a.response.terms, now)
    requires
      var name := At(Run(chains, steps[..k]), steps[k].rid).quote.value.value.request.chain;
      name in chains ==> chains[name] == chain.chainId
    ensures ApprovalAccepted(Run(chains, steps[..k]), steps[k], a.response, chain.chainId, e.address, trusted, now)
  {
    hide Run, Freezes, ExecutorBuild, Accepted, BuildReady, BuildTerms, Unexpired, ApprovalAccepted, LocalTerms;
    var s := Run(chains, steps[..k]);
    BuildIsReady(chains, s, steps[k]);
    ApprovalAnswersCarryTheBuild(chains, steps, k, a);
    var ready := ReadyForm(BuildTerms(s, steps[k]), steps[k].input.plan.value);
    ExecutorBuildIsAccepted(s, steps[k], ready, chain, e, trusted, requested, allocations, now);
    ExecutorLocalTerms(s, steps[k], a.response, chain, e, trusted, requested, allocations, now);
    Erc20AnswerIsAccepted(chains, steps, k, a, chain.chainId, trusted, now);
  }

  lemma ExecutorLocalTerms(
      s: State, step: Step, r: Response, chain: E.Chain, e: ExecutorTrust, trusted: Trusted,
      requested: seq<RouteAllocation>, allocations: seq<QuotedAllocation>, now: nat)
    requires step.DoBuild? && BuildReady(s, step) && ExecutorBuild(s, step, chain, e, trusted, requested, allocations)
    requires step.input.plan.Some? && r.terms == BuildTerms(s, step)
    requires Accepted(s, step, ReadyForm(r.terms, step.input.plan.value), chain.chainId, trusted, now)
    ensures step.input.plan.value.permission.None? && step.input.plan.value.spender == e.address
    ensures
      var ready := ReadyForm(r.terms, step.input.plan.value);
      LocalTerms(r, trusted) == LocalTerms(ready, trusted) && LocalTerms(ready, trusted).Ok?
      && LocalTerms(ready, trusted).value.spender == e.address
  {
    hide ValidatePreparation, PlanOk, ExpectedExecutorData, Uint256, TotalInput, PlanTouches, PlanIntermediates,
      Print, StoredRoutesSearched, AdmittedRequest, BuiltPlan, RequestLeft, E.TotalOutput, E.PackedAllocations, E.PlanPairs,
      E.PlanClears, E.Members, E.AmountOf, RouterMap, BlockReported;
    var request := At(s, step.rid).request;
    var ready := ReadyForm(r.terms, step.input.plan.value);
    AcceptedIsCurrent(ready, request.sender.value, chain.chainId, request.slippageBps, trusted, now);
  }

  // An answer that asks for a permission alone is accepted under any local plan that names its parties, if the
  // engine's builder has frozen the whole input and half an hour past the deadline.
  lemma PermissionAnswersAreAccepted(
      chains: Chains, steps: seq<Step>, k: nat, a: Issued, chainId: string, trusted: Trusted, now: nat)
    requires k < |steps| && Freezes(chains, Run(chains, steps[..k]), steps[k])
    requires a in Run(chains, steps).answers && a.response.status == ApprovalRequired && a.response.approvalTransaction.None?
    requires a.response.terms.preparationId == steps[k].input.preparationId
    requires
      var s := Run(chains, steps[..k]);
      var ready := ReadyForm(BuildTerms(s, steps[k]), steps[k].input.plan.value);
      && At(s, steps[k].rid).quote.value.value.request.chain in chains
      && chains[At(s, steps[k].rid).quote.value.value.request.chain] == chainId
      && Accepted(s, steps[k], ready, chainId, trusted, now)
      && LocalTerms(a.response.(terms := ready.terms), trusted) == LocalTerms(ready, trusted)
    requires
      var p := BuildTerms(Run(chains, steps[..k]), steps[k]);
      var local := LocalTerms(a.response.(terms := p), trusted);
      && local.Ok? && IsDecimal(p.amountIn) && IsDecimal(p.deadline)
      && Value(p.deadline) + 30 * 60 < 0x1_0000_0000_0000
      && local.value.permission == Some(PermissionTerms(local.value.spender, local.value.target))
      && steps[k].input.plan.value.permission
         == Some(PermissionPlan(local.value.spender, p.tokenIn, local.value.target, Value(p.amountIn),
                                Value(p.deadline) + 30 * 60))
    ensures
      var request := At(Run(chains, steps[..k]), steps[k].rid).request;
      && a.response.permission.Some? && a.response.permission.value.transaction.Some?
      && ValidatePreparation(a.response, request.sender.value, chainId, request.slippageBps, trusted, now)
         == Ok(ApprovalPlan(a.response.permission.value.transaction.value, a.response.permission.value.target))
  {
    hide Run, Freezes, BuildTerms, LocalTerms, ValidatePreparation, Value, AllDigits, Print;
    BuildIsReady(chains, Run(chains, steps[..k]), steps[k]);
    ApprovalAnswersCarryTheBuild(chains, steps, k, a);
    var s := Run(chains, steps[..k]);
    var request := At(s, steps[k].rid).request;
    var ready := ReadyForm(BuildTerms(s, steps[k]), steps[k].input.plan.value);
    BuildTermsFields(s, steps[k]);
    AcceptedIsCanonical(ready, request.sender.value, chainId, request.slippageBps, trusted, now);
    assert a.response.(terms := ready.terms) == a.response;
    PermissionIsAccepted(a.response, ready, request.sender.value, chainId, request.slippageBps, trusted, now);
  }
}
