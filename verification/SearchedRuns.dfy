// From the search to the signature: the routes a quote stores are what some schedule of the concurrent
// search found, so the ready answers of every run over them are accepted by the terminal.
module SearchedRuns {
  import opened Messages
  import opened Numerals
  import opened Retention
  import opened PreparationProtocol
  import opened PathQuotes
  import opened Paths
  import opened Policy
  import opened Routers
  import opened Agreement
  import opened EngineRuns
  import E = Executor
  import En = Enumeration
  import S = SearchPool
  import R = Ranking

  // A deployment as the engine searches it: its protocol, its selectors and its pinned quoter.
  datatype Venue = Venue(kind: string, selectorKind: SelectorKind, paths: En.Deployment, quote: Provider)

  datatype Setup = Setup(venues: map<string, Venue>, tokens: seq<Address>, hex: Address -> string)

  // What quoting a candidate says.
  ghost function AnswerTo(v: Venue, c: En.Candidate, amount: nat): S.Answer {
    if |c.tokens| != |c.selectors| + 1 then S.Missing
    else
      match Along(v.selectorKind, v.quote, c.tokens, c.selectors, amount)
      case NoRoute => S.Missing
      case Broken(reason) => S.Failed(reason)
      case Complete(legs, output) => S.Found(Route(c.routeId, v.kind, c.deployment, legs, Print(output), None))
  }

  // A job of the search is a path of its deployment's enumeration.
  ghost predicate Enumerated(setup: Setup, request: QuoteRequest, middles: seq<Address>, job: S.Job) {
    && job.candidate.deployment in setup.venues
    && var v := setup.venues[job.candidate.deployment];
       && v.paths.id == job.candidate.deployment && job.kind == v.kind
       && exists p :: En.Searched(p, v.paths, middles)
            && job.candidate == En.CandidateOf(p, request.tokenIn, request.tokenOut, setup.hex)
  }

  predicate Between(middles: seq<Address>, tokens: seq<Address>, request: QuoteRequest) {
    forall m :: m in middles ==> m in tokens && m != request.tokenIn && m != request.tokenOut
  }

  // A search of an admitted request, run under some schedule and ranked, cut short or complete.
  ghost predicate IsSearch(
      setup: Setup, request: QuoteRequest, final: QuoteFinal, search: S.Search, schedule: seq<S.Step>,
      problems: seq<ProviderError>, middles: seq<Address>)
  {
    && AdmittedRequest(request, setup.tokens) && Between(middles, setup.tokens, request)
    && (forall job :: job in search.jobs ==>
          && Enumerated(setup, request, middles, job)
          && search.answer(job)
             == AnswerTo(setup.venues[job.candidate.deployment], job.candidate, E.AmountOf(request.amountIn)))
    && S.Run(search, schedule).closed && R.Ranked(final, problems, S.Ordered(S.Run(search, schedule)))
  }

  ghost predicate CameFromSearch(setup: Setup, request: QuoteRequest, final: QuoteFinal) {
    exists search, schedule, problems, middles :: IsSearch(setup, request, final, search, schedule, problems, middles)
  }

  // ---------- the queue of a configured chain ----------

  lemma {:induction false} JobsComeFromSources(sources: seq<S.Source>, job: S.Job) returns (i: nat, k: nat)
    requires job in S.Jobs(sources)
    ensures i < |sources| && k < |sources[i].candidates|
    ensures job == S.Job(sources[i].kind, sources[i].candidates[k])
  {
    var here := S.JobsOf(sources[0].kind, sources[0].candidates);
    if job in here {
      k :| 0 <= k < |here| && here[k] == job;
      i := 0;
    } else {
      i, k := JobsComeFromSources(sources[1..], job);
      i := i + 1;
    }
  }

  // The jobs of a chain's sources are the paths of its deployments, nothing else.
  lemma QueuedIsEnumerated(
      setup: Setup, request: QuoteRequest, sources: seq<S.Source>, ds: seq<En.Deployment>, middles: seq<Address>,
      job: S.Job)
    requires R.ChainSources(sources, ds, middles, request.tokenIn, request.tokenOut, setup.hex)
    requires forall i :: 0 <= i < |ds| ==>
               ds[i].id in setup.venues && setup.venues[ds[i].id].paths == ds[i]
               && setup.venues[ds[i].id].kind == sources[i].kind
    requires job in S.Jobs(sources)
    ensures Enumerated(setup, request, middles, job)
  {
    var i, k := JobsComeFromSources(sources, job);
    var paths := En.PathsOf(ds[i], middles);
    var p := paths[k];
    assert job.candidate == En.CandidateOf(p, request.tokenIn, request.tokenOut, setup.hex);
    En.EnumerationIsExact(ds[i], middles, p);
    assert p in paths;
  }

  // ---------- what a search stores ----------

  // A stored route is what quoting one candidate found.
  lemma StoredRouteWasFound(
      setup: Setup, request: QuoteRequest, final: QuoteFinal, search: S.Search, schedule: seq<S.Step>,
      problems: seq<ProviderError>, middles: seq<Address>, route: Route) returns (job: S.Job)
    requires IsSearch(setup, request, final, search, schedule, problems, middles) && route in final.routes
    ensures Enumerated(setup, request, middles, job)
    ensures AnswerTo(setup.venues[job.candidate.deployment], job.candidate, E.AmountOf(request.amountIn)) == S.Found(route)
  {
    hide Enumerated, AnswerTo, S.Run, S.Ordered, AdmittedRequest;
    job := R.EveryRouteWasFound(search, schedule, problems, final, route);
  }

  // Engine and terminal are configured alike: tokens, protocols, fees and spacings.
  predicate SameVenue(v: Venue, impl: Implementation) {
    match impl
    case Uniswap(d) => v.selectorKind.FeeKind? && forall s :: s in v.paths.selectors ==> 0 <= s < FEE_LIMIT && s in d.fees
    case Pancake(d) => v.selectorKind.FeeKind? && forall s :: s in v.paths.selectors ==> 0 <= s < FEE_LIMIT && s in d.fees
    case Slipstream(d) =>
      v.selectorKind.SpacingKind?
      && forall s :: s in v.paths.selectors ==> MIN_TICK_SPACING <= s <= MAX_TICK_SPACING && s in d.spacings
    case Other(_) => true
  }

  ghost predicate SameSetup(setup: Setup, trusted: Trusted) {
    && setup.tokens == trusted.tokens
    && (forall id :: id in setup.venues && id in trusted.deployments ==>
          SameVenue(setup.venues[id], trusted.deployments[id]))
    && (trusted.executor.Some? ==>
          forall id :: id in setup.venues && id in trusted.executor.value.venues ==>
            SameVenue(setup.venues[id], Uniswap(trusted.executor.value.venues[id])))
  }

  lemma FoundIsSearched(
      setup: Setup, request: QuoteRequest, middles: seq<Address>, job: S.Job, route: Route, impl: Implementation,
      terms: Terms)
    requires Enumerated(setup, request, middles, job) && Between(middles, setup.tokens, request)
    requires AdmittedRequest(request, setup.tokens) && !impl.Other?
    requires AnswerTo(setup.venues[job.candidate.deployment], job.candidate, E.AmountOf(request.amountIn)) == S.Found(route)
    requires SameVenue(setup.venues[job.candidate.deployment], impl)
    requires terms.tokenIn == request.tokenIn && terms.tokenOut == request.tokenOut
    ensures route.deploymentId == job.candidate.deployment
    ensures SearchedFor(route, impl, setup.tokens, terms)
  {
    hide En.RouteId, Along, SearchedFeeRoute, SearchedSpacingRoute, E.AmountOf, E.AmountText, Print;
    var v := setup.venues[job.candidate.deployment];
    var amount := E.AmountOf(request.amountIn);
    var p :| En.Searched(p, v.paths, middles)
      && job.candidate == En.CandidateOf(p, request.tokenIn, request.tokenOut, setup.hex);
    match impl {
      case Slipstream(d) =>
        SpacingSearchFindsSearchedRoutes(
          v.quote, p, v.paths, middles, d.spacings, setup.tokens, request.tokenIn, request.tokenOut, amount, setup.hex);
      case Uniswap(d) =>
        FeeSearchFindsSearchedRoutes(
          v.quote, p, v.paths, middles, d.fees, setup.tokens, request.tokenIn, request.tokenOut, amount, setup.hex);
      case Pancake(d) =>
        FeeSearchFindsSearchedRoutes(
          v.quote, p, v.paths, middles, d.fees, setup.tokens, request.tokenIn, request.tokenOut, amount, setup.hex);
    }
  }

  // Every stored route of a search is one the terminal's configuration admits.
  lemma StoredRouteIsSearched(
      setup: Setup, request: QuoteRequest, final: QuoteFinal, route: Route, impl: Implementation, terms: Terms)
    requires CameFromSearch(setup, request, final) && route in final.routes && !impl.Other?
    requires route.deploymentId in setup.venues ==> SameVenue(setup.venues[route.deploymentId], impl)
    requires terms.tokenIn == request.tokenIn && terms.tokenOut == request.tokenOut
    ensures SearchedFor(route, impl, setup.tokens, terms) && AdmittedRequest(request, setup.tokens)
  {
    hide Enumerated, AdmittedRequest, SearchedFor, SameVenue, Along, S.Run, S.Ordered, E.AmountOf, Print;
    var search, schedule, problems, middles :|
      IsSearch(setup, request, final, search, schedule, problems, middles);
    var job := StoredRouteWasFound(setup, request, final, search, schedule, problems, middles, route);
    EnumeratedVenue(setup, request, middles, job);
    FoundIsSearched(setup, request, middles, job, route, impl, terms);
  }

  lemma EnumeratedVenue(setup: Setup, request: QuoteRequest, middles: seq<Address>, job: S.Job)
    requires Enumerated(setup, request, middles, job)
    ensures job.candidate.deployment in setup.venues
  {}

  // ---------- over a run ----------

  // A search's answer was saved at some step.
  predicate SavedBefore(steps: seq<Step>, record: QuoteRecord) {
    exists i :: 0 <= i < |steps| && steps[i].SaveQuote? && steps[i].search == record.request && steps[i].final == record.final
  }

  predicate QuotesSaved(steps: seq<Step>, s: State) {
    && (forall id :: id in s.store.quotes ==> SavedBefore(steps, s.store.quotes[id].value))
    && forall rid :: rid in s.requests && s.requests[rid].Looked? && s.requests[rid].quote.Some? ==>
         SavedBefore(steps, s.requests[rid].quote.value.value)
  }

  lemma SavedLater(steps: seq<Step>, step: Step, record: QuoteRecord)
    requires SavedBefore(steps, record)
    ensures SavedBefore(steps + [step], record)
  {
    var i :| 0 <= i < |steps| && steps[i].SaveQuote? && steps[i].search == record.request && steps[i].final == record.final;
    assert (steps + [step])[i] == steps[i];
  }

  // A quote in the store was there before, latched since at most, or is being saved.
  lemma QuoteOrigin(chains: Chains, s: State, step: Step, id: string)
    requires id in Apply(chains, s, step).store.quotes
    ensures
      var record := Apply(chains, s, step).store.quotes[id].value;
      || (id in s.store.quotes && record.request == s.store.quotes[id].value.request
          && record.final == s.store.quotes[id].value.final)
      || (step.SaveQuote? && record.request == step.search && record.final == step.final)
  {
    hide Lookup, Admit, Built, SettleMark, BranchAllowance, BranchPermission, ConfirmApproval, ConfirmReady, Evictable,
      UsableSnapshot;
  }

  // A looked-up call holds what the store held at its lookup.
  lemma LookOrigin(chains: Chains, s: State, step: Step, rid: nat)
    requires
      var s' := Apply(chains, s, step);
      rid in s'.requests && s'.requests[rid].Looked? && s'.requests[rid].quote.Some?
    ensures
      var record := Apply(chains, s, step).requests[rid].quote.value.value;
      || (rid in s.requests && s.requests[rid].Looked? && s.requests[rid].quote.Some?
          && s.requests[rid].quote.value.value == record)
      || exists id :: id in s.store.quotes && s.store.quotes[id].value == record
  {
    hide Inserted, Evictable, UsableSnapshot, Latched, FreshResponse, FindRoute;
    if step.DoLookup? && At(s, step.rid).Arrived? && rid == step.rid {
      var id := At(s, rid).request.quoteId;
      assert id in s.store.quotes;
    }
  }

  lemma {:induction false} QuotesAreSaved(chains: Chains, steps: seq<Step>)
    ensures QuotesSaved(steps, Run(chains, steps))
  {
    hide Apply, SavedBefore;
    if steps != [] {
      var init, last := steps[..|steps| - 1], steps[|steps| - 1];
      QuotesAreSaved(chains, init);
      assert steps == init + [last];
      var s, s' := Run(chains, init), Run(chains, steps);
      forall id | id in s'.store.quotes ensures SavedBefore(steps, s'.store.quotes[id].value) {
        QuoteOrigin(chains, s, last, id);
        SavedHere(init, last, s, s'.store.quotes[id].value, id);
      }
      forall rid | rid in s'.requests && s'.requests[rid].Looked? && s'.requests[rid].quote.Some?
        ensures SavedBefore(steps, s'.requests[rid].quote.value.value) {
        LookOrigin(chains, s, last, rid);
        SavedLater(init, last, s'.requests[rid].quote.value.value);
      }
    }
  }

  lemma SavedHere(init: seq<Step>, last: Step, s: State, record: QuoteRecord, id: string)
    requires QuotesSaved(init, s)
    requires
      || (id in s.store.quotes && record.request == s.store.quotes[id].value.request
          && record.final == s.store.quotes[id].value.final)
      || (last.SaveQuote? && record.request == last.search && record.final == last.final)
    ensures SavedBefore(init + [last], record)
  {
    if last.SaveQuote? && record.request == last.search && record.final == last.final {
      assert (init + [last])[|init|] == last;
    } else {
      SavedLater(init, last, s.store.quotes[id].value);
    }
  }

  // The engine saves only what its searches answered.
  ghost predicate SavesSearches(setup: Setup, steps: seq<Step>) {
    forall i :: 0 <= i < |steps| && steps[i].SaveQuote? ==> CameFromSearch(setup, steps[i].search, steps[i].final)
  }

  lemma LookedQuoteWasSearched(chains: Chains, setup: Setup, steps: seq<Step>, k: nat, rid: nat)
    requires SavesSearches(setup, steps) && k <= |steps|
    requires
      var l := At(Run(chains, steps[..k]), rid);
      l.Looked? && l.quote.Some?
    ensures
      var record := At(Run(chains, steps[..k]), rid).quote.value.value;
      CameFromSearch(setup, record.request, record.final)
  {
    hide Run, CameFromSearch;
    QuotesAreSaved(chains, steps[..k]);
    var record := At(Run(chains, steps[..k]), rid).quote.value.value;
    var i :| 0 <= i < k && steps[..k][i].SaveQuote? && steps[..k][i].search == record.request
      && steps[..k][i].final == record.final;
    assert steps[..k][i] == steps[i];
  }

  // In a run whose quotes are search results, every unexpired ready answer for a stored route prepared
  // by its router's builder is accepted by a terminal configured like the engine, if it is as built.
  lemma SearchedDirectAnswersAreAccepted(
      chains: Chains, setup: Setup, steps: seq<Step>, k: nat, a: Issued, d: DirectPreparer, trusted: Trusted, route: Route,
      output: nat, now: nat)
    requires SavesSearches(setup, steps) && SameSetup(setup, trusted)
    requires k < |steps| && Freezes(chains, Run(chains, steps[..k]), steps[k])
    requires DirectSelection(Run(chains, steps[..k]), steps[k], d, trusted, route, output)
    requires route in At(Run(chains, steps[..k]), steps[k].rid).quote.value.value.final.routes
    requires a in Run(chains, steps).answers && a.response.status == Ready && AsBuilt(chains, steps, a)
    requires a.response.terms.preparationId == steps[k].input.preparationId && Unexpired(a.response.terms, now)
    ensures Accepted(Run(chains, steps[..k]), steps[k], a.response, d.chainId, trusted, now)
  {
    hide Run, Freezes, Accepted, SavesSearches, CameFromSearch, SameVenue, SearchedFor, Unexpired, DirectPlan, Routable,
         AdmittedRequest, FreshResponse, E.AmountOf, Print, AsBuilt;
    var s := Run(chains, steps[..k]);
    BuildIsReady(chains, s, steps[k]);
    var saved := At(s, steps[k].rid).quote.value.value;
    LookedQuoteWasSearched(chains, setup, steps, k, steps[k].rid);
    PairOfTerms(s, steps[k]);
    StoredRouteIsSearched(setup, saved.request, saved.final, route, trusted.deployments[d.id], BuildTerms(s, steps[k]));
    DirectAnswersAreAccepted(chains, steps, k, a, d, trusted, route, output, now);
  }

  lemma PairOfTerms(s: State, step: Step)
    requires step.DoBuild? && BuildReady(s, step) && RequestLeft(s, step)
    ensures
      var request := At(s, step.rid).quote.value.value.request;
      BuildTerms(s, step).tokenIn == request.tokenIn && BuildTerms(s, step).tokenOut == request.tokenOut
  {}

  lemma StoredRoutesAreSearched(setup: Setup, saved: QuoteRecord, e: ExecutorTrust, trusted: Trusted, terms: Terms)
    requires CameFromSearch(setup, saved.request, saved.final) && SameSetup(setup, trusted) && trusted.executor == Some(e)
    requires terms.tokenIn == saved.request.tokenIn && terms.tokenOut == saved.request.tokenOut
    ensures StoredRoutesSearched(saved, e, trusted.tokens) && AdmittedRequest(saved.request, trusted.tokens)
  {
    hide SameVenue, IsSearch, SearchedFeeRoute, AdmittedRequest;
    forall route | route in saved.final.routes && route.deploymentId in e.venues
      ensures SearchedFeeRoute(route.legs, e.venues[route.deploymentId].fees, trusted.tokens, saved.request.tokenIn,
                               saved.request.tokenOut) {
      StoredRouteIsSearched(setup, saved.request, saved.final, route, Uniswap(e.venues[route.deploymentId]), terms);
    }
    SearchedRequest(setup, saved.request, saved.final);
  }

  lemma SearchedRequest(setup: Setup, request: QuoteRequest, final: QuoteFinal)
    requires CameFromSearch(setup, request, final)
    ensures AdmittedRequest(request, setup.tokens)
  {}

  // The same for executor plans.
  lemma SearchedExecutorAnswersAreAccepted(
      chains: Chains, setup: Setup, steps: seq<Step>, k: nat, a: Issued, chain: E.Chain, e: ExecutorTrust, trusted: Trusted,
      requested: seq<RouteAllocation>, allocations: seq<QuotedAllocation>, now: nat)
    requires SavesSearches(setup, steps) && SameSetup(setup, trusted)
    requires k < |steps| && Freezes(chains, Run(chains, steps[..k]), steps[k])
    requires ExecutorSelection(Run(chains, steps[..k]), steps[k], chain, e, trusted, requested, allocations)
    requires a in Run(chains, steps).answers && a.response.status == Ready && AsBuilt(chains, steps, a)
    requires a.response.terms.preparationId == steps[k].input.preparationId && Unexpired(a.response.terms, now)
    ensures Accepted(Run(chains, steps[..k]), steps[k], a.response, chain.chainId, trusted, now)
  {
    hide Run, Freezes, Accepted, SavesSearches, CameFromSearch, SameSetup, StoredRoutesSearched, Unexpired, AdmittedRequest,
         FreshResponse, BuiltPlan, ExecutorPlanFor, SameExecutor, E.TotalOutput, AsBuilt;
    var s := Run(chains, steps[..k]);
    BuildIsReady(chains, s, steps[k]);
    LookedQuoteWasSearched(chains, setup, steps, k, steps[k].rid);
    PairOfTerms(s, steps[k]);
    StoredRoutesAreSearched(setup, At(s, steps[k].rid).quote.value.value, e, trusted, BuildTerms(s, steps[k]));
    ExecutorAnswersAreAccepted(chains, steps, k, a, chain, e, trusted, requested, allocations, now);
  }
}
