// Engine and terminal over whole runs: whatever interleaving a preparation lives through, each of its
// ready answers, first or rechecked, is one the terminal accepts, as long as the strategy has not changed
// the selection it handed over.
module EngineRuns {
  import opened Messages
  import opened Numerals
  import opened PreparationProtocol
  import opened PreparationSafety
  import opened PreparationTheorems
  import opened PreparationRecord
  import opened Policy
  import opened Routers
  import opened Agreement
  import E = Executor

  // The terms the build step at the end of a run would freeze.
  function BuildTerms(s: State, step: Step): Terms
    requires step.DoBuild? && BuildReady(s, step)
  {
    var l := At(s, step.rid);
    FreshResponse(step.input.preparationId, step.input.request, l.request.sender.value, l.request.slippageBps,
                  step.input.selection.value, l.now, step.reading.snapshot.value.timestamp).terms
  }

  predicate BuildReady(s: State, step: Step)
    requires step.DoBuild?
  {
    var l := At(s, step.rid);
    && l.Looked? && l.prep.None? && l.quote.Some? && l.request.slippageBps < 10000 && l.request.sender.Some?
    && step.input.preparationId != "" && step.input.selection.Some? && step.reading.snapshot.Some?
  }

  // A build step that succeeded: it froze terms and a plan under a new preparation ID.
  predicate Freezes(chains: Chains, s: State, step: Step) {
    && step.DoBuild? && BuildReady(s, step) && step.input.plan.Some?
    && step.input.preparationId !in s.history.frozen
    && step.input.preparationId in Apply(chains, s, step).history.frozen
  }

  lemma FreezingFixesTerms(chains: Chains, s: State, step: Step)
    requires Freezes(chains, s, step)
    ensures var f := Apply(chains, s, step).history.frozen[step.input.preparationId];
            f.terms == BuildTerms(s, step) && f.plan == step.input.plan.value
  {
    hide Admit, FreshResponse, FindRoute, UsableSnapshot;
  }

  // What a first call freezes, written out: thirty seconds to live from its lookup, the minimum of the quoted
  // output less the slippage, the quote's amount and pair, the caller as recipient, and a deadline of two minutes
  // after the pinned block, on 64 bits. The quote's block was canonical, the route named is one of the quote's, and
  // the pinned block is of the quote's chain.
  lemma BuildTermsWritten(chains: Chains, s: State, step: Step)
    requires Freezes(chains, s, step)
    ensures
      var (l, f) := (At(s, step.rid), Apply(chains, s, step).history.frozen[step.input.preparationId]);
      var selection := step.input.selection.value;
      && step.input.canonical
      && (l.request.routeId != "" ==> FindRoute(l.quote.value.value.final.routes, l.request.routeId).Some?)
      && f.chain == l.quote.value.value.request.chain && f.chain in chains
      && step.reading.snapshot.value.chainId == chains[f.chain] && step.reading.snapshot.value.timestamp > 0
      && f.quoteId == l.request.quoteId && f.expires == l.now + 30 * 1000000000 && f.plan == step.input.plan.value
      && f.terms == Terms(
           step.input.preparationId, Print((l.now + 30 * 1000000000) / 1000000000),
           Print(selection.output * (10000 - l.request.slippageBps) / 10000), step.input.request.amountIn,
           step.input.request.tokenIn, step.input.request.tokenOut, l.request.sender.value,
           Print((step.reading.snapshot.value.timestamp + 120) % 0x1_0000_0000_0000_0000), selection.route,
           selection.allocations)
  {
    hide Admit, FindRoute;
  }

  // The strategy has left the request of the quote it was shown as it was.
  predicate RequestLeft(s: State, step: Step)
    requires step.DoBuild? && BuildReady(s, step)
  {
    step.input.request == At(s, step.rid).quote.value.value.request
  }

  // The answer of the first call itself, or of a preparation whose saved selection is the copied one.
  ghost predicate AsBuilt(chains: Chains, steps: seq<Step>, a: Issued) {
    a.rid in Run(chains, steps).history.born || !Overwritten(chains, steps, IdOf(a))
  }

  lemma TermsAsBuilt(chains: Chains, steps: seq<Step>, a: Issued)
    requires a in Run(chains, steps).answers
    ensures
      var h, id := Run(chains, steps).history, IdOf(a);
      && id in h.frozen && SameButSelection(a.response.terms, h.frozen[id].terms)
      && (a.response.terms == h.frozen[id].terms <==> AsBuilt(chains, steps, a))
  {
    hide Run, Overwritten;
    AnsweredTerms(chains, steps, a);
    KeptExactly(chains, steps, IdOf(a));
  }

  // Every ready answer under the ID of a build is a ready response over that build's plan and, up to the
  // selection, its terms; over all its terms exactly if it is as built.
  lemma ReadyAnswersCarryTheBuild(chains: Chains, steps: seq<Step>, k: nat, a: Issued)
    requires k < |steps| && Freezes(chains, Run(chains, steps[..k]), steps[k])
    requires a in Run(chains, steps).answers && a.response.status == Ready
    requires a.response.terms.preparationId == steps[k].input.preparationId
    ensures SameButSelection(a.response.terms, BuildTerms(Run(chains, steps[..k]), steps[k]))
    ensures a.response.terms == BuildTerms(Run(chains, steps[..k]), steps[k]) <==> AsBuilt(chains, steps, a)
    ensures ReadyResponse(a.response, a.response.terms, steps[k].input.plan.value)
  {
    hide Apply, FieldsOk, BuildTerms, NoApproval, AsBuilt, SameButSelection;
    var s := Run(chains, steps[..k]);
    var id := steps[k].input.preparationId;
    FreezingFixesTerms(chains, s, steps[k]);
    assert steps[..k + 1][..k] == steps[..k] && steps[..k + 1][k] == steps[k];
    assert Run(chains, steps[..k + 1]) == Apply(chains, s, steps[k]);
    FrozenForever(chains, steps, k + 1, id);
    TwoClasses(chains, steps, a, a);
    TermsAsBuilt(chains, steps, a);
    ReadyAnswerTransaction(chains, steps, a);
  }

  lemma ReadyAnswerTransaction(chains: Chains, steps: seq<Step>, a: Issued)
    requires a in Run(chains, steps).answers && a.response.status == Ready
    ensures var h := Run(chains, steps).history;
            var id := a.response.terms.preparationId;
            && id in h.frozen
            && a.response.transaction == Some(h.frozen[id].plan.transaction)
  {
    RunInv(chains, steps);
    assert IssuedOk(chains, Run(chains, steps).history, a);
  }

  lemma BuildIsReady(chains: Chains, s: State, step: Step)
    requires Freezes(chains, s, step)
    ensures step.DoBuild? && BuildReady(s, step) && step.input.plan.Some?
  {}

  lemma BuildTermsAreFrozen(s: State, step: Step)
    requires step.DoBuild? && BuildReady(s, step) && RequestLeft(s, step)
    requires step.input.selection.value.output < UINT256_LIMIT
    ensures var l := At(s, step.rid);
            FrozenTerms(
              BuildTerms(s, step), step.input.preparationId, l.quote.value.value.request, l.request.sender.value,
              l.request.slippageBps, step.input.selection.value, l.now, step.reading.snapshot.value.timestamp)
    ensures BuildTerms(s, step).allocations == step.input.selection.value.allocations
    ensures BuildTerms(s, step).route == step.input.selection.value.route
  {}

  // The terminal accepts a response as a swap, for the caller and the slippage of the build's request.
  ghost predicate Accepted(s: State, step: Step, r: Response, chainId: string, trusted: Trusted, now: nat)
    requires step.DoBuild? && BuildReady(s, step)
  {
    var request := At(s, step.rid).request;
    var verdict := ValidatePreparation(r, request.sender.value, chainId, request.slippageBps, trusted, now);
    verdict.Ok? && verdict.value.SwapPlan? && Some(verdict.value.transaction) == r.transaction
  }

  // ---------- direct routes ----------

  // A build over one stored route whose plan is the router builder's, by a strategy that left the request.
  ghost predicate DirectSelection(
      s: State, step: Step, d: DirectPreparer, trusted: Trusted, route: Route, output: nat)
    requires step.DoBuild? && BuildReady(s, step)
  {
    var terms := BuildTerms(s, step);
    && RequestLeft(s, step) && route.deploymentId == d.id && route.provider == d.kind
    && d.id in trusted.deployments && SameDeployment(d, trusted.deployments[d.id])
    && route.amountOut == Print(output) && output < UINT256_LIMIT
    && step.input.selection == Some(Selection(Some(route), [], output))
    && Routable(d.encoder, route.legs) && E.AmountOf(terms.minimum) > 0
    && terms.route == Some(route) && step.input.plan == Some(DirectPlan(d, terms))
  }

  // The same, and the route came out of a search for an admitted request.
  ghost predicate DirectBuild(
      s: State, step: Step, d: DirectPreparer, trusted: Trusted, route: Route, output: nat)
    requires step.DoBuild? && BuildReady(s, step)
  {
    && DirectSelection(s, step, d, trusted, route, output)
    && AdmittedRequest(At(s, step.rid).quote.value.value.request, trusted.tokens)
    && SearchedFor(route, trusted.deployments[d.id], trusted.tokens, BuildTerms(s, step))
  }

  lemma DirectBuildIsAccepted(
      s: State, step: Step, r: Response, d: DirectPreparer, trusted: Trusted, route: Route, output: nat, now: nat)
    requires step.DoBuild? && BuildReady(s, step) && DirectBuild(s, step, d, trusted, route, output)
    requires step.input.plan.Some? && r.terms == BuildTerms(s, step)
    requires ReadyResponse(r, r.terms, step.input.plan.value) && Unexpired(r.terms, now)
    ensures Accepted(s, step, r, d.chainId, trusted, now)
  {
    hide DirectPlan, SearchedFor, SameDeployment, ValidatePreparation, AdmittedRequest, Unexpired, BuildTerms, Print,
         FrozenTerms, Routable, E.AmountOf, NoApproval;
    var l := At(s, step.rid);
    BuildTermsAreFrozen(s, step);
    DirectAgreement(
      d, trusted, r, step.input.preparationId, l.quote.value.value.request, l.request.sender.value,
      l.request.slippageBps, route, output, l.now, step.reading.snapshot.value.timestamp, now);
  }

  // In every continuation of a run after such a build, each unexpired ready answer under its ID that is as
  // built is accepted.
  lemma DirectAnswersAreAccepted(
      chains: Chains, steps: seq<Step>, k: nat, a: Issued, d: DirectPreparer, trusted: Trusted, route: Route,
      output: nat, now: nat)
    requires k < |steps| && Freezes(chains, Run(chains, steps[..k]), steps[k])
    requires DirectBuild(Run(chains, steps[..k]), steps[k], d, trusted, route, output)
    requires a in Run(chains, steps).answers && a.response.status == Ready && AsBuilt(chains, steps, a)
    requires a.response.terms.preparationId == steps[k].input.preparationId && Unexpired(a.response.terms, now)
    ensures Accepted(Run(chains, steps[..k]), steps[k], a.response, d.chainId, trusted, now)
  {
    hide Run, Freezes, DirectBuild, Accepted, BuildReady, BuildTerms, ReadyResponse, Unexpired, AsBuilt;
    BuildIsReady(chains, Run(chains, steps[..k]), steps[k]);
    ReadyAnswersCarryTheBuild(chains, steps, k, a);
    DirectBuildIsAccepted(Run(chains, steps[..k]), steps[k], a.response, d, trusted, route, output, now);
  }

  // ---------- executor plans ----------

  // A build whose allocations were admitted, re-quoted at the quote's block and built by the engine.
  ghost predicate ExecutorSelection(
      s: State, step: Step, chain: E.Chain, e: ExecutorTrust, trusted: Trusted, requested: seq<RouteAllocation>,
      allocations: seq<QuotedAllocation>)
    requires step.DoBuild? && BuildReady(s, step)
  {
    var saved := At(s, step.rid).quote.value.value;
    var terms := BuildTerms(s, step);
    && RequestLeft(s, step) && trusted.executor == Some(e) && SameExecutor(chain, e)
    && step.input.selection == Some(Selection(None, allocations, E.TotalOutput(allocations)))
    && BlockReported(saved.final.block) && BuiltPlan(chain, saved, requested, allocations)
    && step.input.plan.Some? && ExecutorPlanFor(chain, terms, step.input.plan.value) && terms.minimum != "0"
  }

  // The same, and the stored routes came out of a search for an admitted request.
  ghost predicate ExecutorBuild(
      s: State, step: Step, chain: E.Chain, e: ExecutorTrust, trusted: Trusted, requested: seq<RouteAllocation>,
      allocations: seq<QuotedAllocation>)
    requires step.DoBuild? && BuildReady(s, step)
  {
    var saved := At(s, step.rid).quote.value.value;
    && ExecutorSelection(s, step, chain, e, trusted, requested, allocations)
    && StoredRoutesSearched(saved, e, trusted.tokens) && AdmittedRequest(saved.request, trusted.tokens)
  }

  lemma ExecutorBuildIsAccepted(
      s: State, step: Step, r: Response, chain: E.Chain, e: ExecutorTrust, trusted: Trusted,
      requested: seq<RouteAllocation>, allocations: seq<QuotedAllocation>, now: nat)
    requires step.DoBuild? && BuildReady(s, step) && ExecutorBuild(s, step, chain, e, trusted, requested, allocations)
    requires step.input.plan.Some? && r.terms == BuildTerms(s, step)
    requires ReadyResponse(r, r.terms, step.input.plan.value) && Unexpired(r.terms, now)
    ensures Accepted(s, step, r, chain.chainId, trusted, now)
  {
    hide ExecutorPlanFor, ValidatePreparation, AdmittedRequest, Unexpired, StoredRoutesSearched, BuildTerms, FrozenTerms,
         BuiltPlan, SameExecutor, E.TotalOutput, BlockReported, NoApproval;
    var l := At(s, step.rid);
    BuiltPlanFacts(chain, l.quote.value.value, requested, allocations);
    BuildTermsAreFrozen(s, step);
    ExecutorAgreement(
      chain, e, trusted, r, step.input.preparationId, l.quote.value.value, l.request.sender.value,
      l.request.slippageBps, requested, step.input.plan.value, l.now, step.reading.snapshot.value.timestamp, now);
  }

  lemma ExecutorAnswersAreAccepted(
      chains: Chains, steps: seq<Step>, k: nat, a: Issued, chain: E.Chain, e: ExecutorTrust, trusted: Trusted,
      requested: seq<RouteAllocation>, allocations: seq<QuotedAllocation>, now: nat)
    requires k < |steps| && Freezes(chains, Run(chains, steps[..k]), steps[k])
    requires ExecutorBuild(Run(chains, steps[..k]), steps[k], chain, e, trusted, requested, allocations)
    requires a in Run(chains, steps).answers && a.response.status == Ready && AsBuilt(chains, steps, a)
    requires a.response.terms.preparationId == steps[k].input.preparationId && Unexpired(a.response.terms, now)
    ensures Accepted(Run(chains, steps[..k]), steps[k], a.response, chain.chainId, trusted, now)
  {
    hide Run, Freezes, ExecutorBuild, Accepted, BuildReady, BuildTerms, ReadyResponse, Unexpired, AsBuilt;
    BuildIsReady(chains, Run(chains, steps[..k]), steps[k]);
    ReadyAnswersCarryTheBuild(chains, steps, k, a);
    ExecutorBuildIsAccepted(
      Run(chains, steps[..k]), steps[k], a.response, chain, e, trusted, requested, allocations, now);
  }

  // ---------- what the terminal makes of two authorizations ----------

  // A response that asks for an ERC-20 approval and a Permit2 permission at once is refused.
  lemma BothIsRefused(r: Response, signer: Address, chainId: string, slippageBps: nat, trusted: Trusted, now: nat)
    requires r.approvalTransaction.Some? && r.permission.Some?
    ensures ValidatePreparation(r, signer, chainId, slippageBps, trusted, now).Err?
  {
    hide LocalTerms, MinimumOk, TermsOk, TransactionOk, Uint256, IsDecimal, Value;
  }

  // So although the engine may ask for two, all answers of one preparation the terminal accepts, at any
  // time and under any configuration, lead to the same transaction.
  lemma OnePreparationOneSignature(
      chains: Chains, steps: seq<Step>, a: Issued, b: Issued, signer: Address, chainId: string, slippageBps: nat,
      trusted: Trusted, now: nat, signer': Address, chainId': string, slippageBps': nat, trusted': Trusted, now': nat)
    requires a in Run(chains, steps).answers && b in Run(chains, steps).answers && IdOf(a) == IdOf(b)
    requires ValidatePreparation(a.response, signer, chainId, slippageBps, trusted, now).Ok?
    requires ValidatePreparation(b.response, signer', chainId', slippageBps', trusted', now').Ok?
    ensures ValidatePreparation(a.response, signer, chainId, slippageBps, trusted, now).value.transaction
         == ValidatePreparation(b.response, signer', chainId', slippageBps', trusted', now').value.transaction
  {
    hide Run, ValidatePreparation;
    TwoClasses(chains, steps, a, b);
    ImmutableTerms(chains, steps, a, b);
    SignedIsChosen(a.response, signer, chainId, slippageBps, trusted, now);
    SignedIsChosen(b.response, signer', chainId', slippageBps', trusted', now');
  }

  lemma SignedIsChosen(r: Response, signer: Address, chainId: string, slippageBps: nat, trusted: Trusted, now: nat)
    requires ValidatePreparation(r, signer, chainId, slippageBps, trusted, now).Ok?
    ensures Chosen(r) == Some(ValidatePreparation(r, signer, chainId, slippageBps, trusted, now).value.transaction)
    ensures r.status == ApprovalRequired && r.permission.None? ==> r.approvalTransaction.Some?
  {
    hide LocalTerms, MinimumOk, TermsOk, TransactionOk, Current;
  }
}
