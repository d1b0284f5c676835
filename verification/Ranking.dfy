// From collected results to the answer of a quote: usable sources before the search, ranking after it.
module Ranking {
  import opened Messages
  import opened Numerals
  import opened Enumeration
  import opened Sorting
  import opened SearchPool

  // ---------- before the search ----------

  // problem: why a deployment cannot be searched, or empty. candidates: what its protocol enumerates.
  datatype Configured = Configured(id: string, kind: string, problem: string, candidates: seq<Candidate>)

  ghost function UsableSources(ds: seq<Configured>): seq<Source> {
    if ds == [] then []
    else UsableSources(ds[..|ds| - 1]) +
         if Last(ds).problem == "" then [Source(Last(ds).kind, Last(ds).candidates)] else []
  }

  // How a deployment's problem is reported.
  function Report(d: Configured): ProviderError { ProviderError(d.kind, None, d.id + ": " + d.problem) }

  ghost function DeploymentErrors(ds: seq<Configured>): seq<ProviderError> {
    if ds == [] then []
    else DeploymentErrors(ds[..|ds| - 1]) +
         if Last(ds).problem == "" then [] else [Report(Last(ds))]
  }

  function Last<T>(s: seq<T>): T
    requires s != []
  {
    s[|s| - 1]
  }

  method SplitDeployments(ds: seq<Configured>) returns (sources: seq<Source>, errors: seq<ProviderError>)
    ensures sources == UsableSources(ds) && errors == DeploymentErrors(ds)
  {
    sources, errors := [], [];
    var i := 0;
    while i < |ds|
      invariant i <= |ds|
      invariant sources == UsableSources(ds[..i]) && errors == DeploymentErrors(ds[..i])
    {
      var d := ds[i];
      assert ds[..i + 1][..i] == ds[..i] && Last(ds[..i + 1]) == d;
      if d.problem != "" {
        errors := errors + [ProviderError(d.kind, None, d.id + ": " + d.problem)];
      } else {
        sources := sources + [Source(d.kind, d.candidates)];
      }
      i := i + 1;
    }
    assert ds[..|ds|] == ds;
  }

  // How many of a list are of a kind.
  ghost function Count<T>(s: seq<T>, kind: T -> bool): nat {
    if s == [] then 0 else Count(s[..|s| - 1], kind) + if kind(Last(s)) then 1 else 0
  }

  lemma {:induction false} CountGrows<T>(s: seq<T>, kind: T -> bool, i: nat)
    requires i < |s| && kind(s[i])
    ensures Count(s[..i], kind) < Count(s, kind)
  {
    if i < |s| - 1 {
      assert s[..|s| - 1][..i] == s[..i];
      CountGrows(s[..|s| - 1], kind, i);
    }
  }

  // The place of the one that has m of its kind before it.
  lemma {:induction false} PlaceOf<T>(s: seq<T>, kind: T -> bool, m: nat) returns (i: nat)
    requires m < Count(s, kind)
    ensures i < |s| && kind(s[i]) && Count(s[..i], kind) == m
  {
    if kind(Last(s)) && m == Count(s, kind) - 1 {
      i := |s| - 1;
    } else {
      i := PlaceOf(s[..|s| - 1], kind, m);
      assert s[..|s| - 1][..i] == s[..i];
    }
  }

  predicate IsBroken(d: Configured) { d.problem != "" }

  predicate IsUsable(d: Configured) { d.problem == "" }

  // Every deployment with a problem is reported, with its name and its problem, where the order says.
  lemma {:induction false} BrokenIsReported(ds: seq<Configured>, i: nat)
    requires i < |ds| && ds[i].problem != ""
    ensures |DeploymentErrors(ds)| == Count(ds, IsBroken) && Count(ds[..i], IsBroken) < |DeploymentErrors(ds)|
    ensures DeploymentErrors(ds)[Count(ds[..i], IsBroken)]
         == ProviderError(ds[i].kind, None, ds[i].id + ": " + ds[i].problem)
  {
    ErrorsCounted(ds);
    CountGrows(ds, IsBroken, i);
    var init := ds[..|ds| - 1];
    ErrorsCounted(init);
    if i < |ds| - 1 {
      assert init[..i] == ds[..i] && init[i] == ds[i];
      BrokenIsReported(init, i);
    }
  }

  lemma {:induction false} ErrorsCounted(ds: seq<Configured>)
    ensures |DeploymentErrors(ds)| == Count(ds, IsBroken)
  {
    if ds != [] { ErrorsCounted(ds[..|ds| - 1]); }
  }

  // Every other one is searched.
  lemma {:induction false} OtherIsSearched(ds: seq<Configured>, i: nat)
    requires i < |ds| && ds[i].problem == ""
    ensures |UsableSources(ds)| == Count(ds, IsUsable) && Count(ds[..i], IsUsable) < |UsableSources(ds)|
    ensures UsableSources(ds)[Count(ds[..i], IsUsable)] == Source(ds[i].kind, ds[i].candidates)
  {
    SourcesCounted(ds);
    CountGrows(ds, IsUsable, i);
    var init := ds[..|ds| - 1];
    SourcesCounted(init);
    if i < |ds| - 1 {
      assert init[..i] == ds[..i] && init[i] == ds[i];
      OtherIsSearched(init, i);
    }
  }

  lemma {:induction false} SourcesCounted(ds: seq<Configured>)
    ensures |UsableSources(ds)| == Count(ds, IsUsable)
  {
    if ds != [] { SourcesCounted(ds[..|ds| - 1]); }
  }

  ghost predicate UsableCandidate(ds: seq<Configured>, c: Candidate) {
    exists d :: d in ds && d.problem == "" && c in d.candidates
  }

  ghost predicate Queued(jobs: seq<Job>, c: Candidate) {
    exists job :: job in jobs && job.candidate == c
  }

  // Every candidate of every usable deployment is queued, and nothing else.
  lemma {:induction false} UsableCandidatesAreQueued(ds: seq<Configured>, c: Candidate)
    ensures UsableCandidate(ds, c) <==> Queued(Jobs(UsableSources(ds)), c)
  {
    if ds != [] {
      var init, last := ds[..|ds| - 1], Last(ds);
      var before := Jobs(UsableSources(init));
      UsableCandidatesAreQueued(init, c);
      assert ds == init + [last];
      assert UsableCandidate(ds, c) <==> UsableCandidate(init, c) || (last.problem == "" && c in last.candidates);
      if last.problem == "" {
        JobsAppend(UsableSources(init), Source(last.kind, last.candidates));
        var more := JobsOf(last.kind, last.candidates);
        JobsOfMembers(last.kind, last.candidates, c);
        assert Queued(before + more, c) <==> Queued(before, c) || Queued(more, c);
      } else {
        assert UsableSources(ds) == UsableSources(init);
      }
    }
  }

  lemma JobsOfMembers(kind: string, candidates: seq<Candidate>, c: Candidate)
    ensures Queued(JobsOf(kind, candidates), c) <==> c in candidates
  {
    var js := JobsOf(kind, candidates);
    if c in candidates {
      var i :| 0 <= i < |candidates| && candidates[i] == c;
      assert js[i] in js && js[i].candidate == c;
    }
  }

  lemma {:induction false} JobsAppend(sources: seq<Source>, source: Source)
    ensures Jobs(sources + [source]) == Jobs(sources) + JobsOf(source.kind, source.candidates)
  {
    if sources == [] {
      assert [source][1..] == [];
    } else {
      JobsAppend(sources[1..], source);
      assert (sources + [source])[1..] == sources[1..] + [source];
    }
  }

  // ---------- after the search ----------

  function RoutesOf(items: seq<Item>): seq<Route> {
    if items == [] then []
    else RoutesOf(items[..|items| - 1]) +
         if Last(items).outcome.Priced? then [Last(items).outcome.route] else []
  }

  function ErrorsOf(items: seq<Item>): seq<ProviderError> {
    if items == [] then []
    else ErrorsOf(items[..|items| - 1]) +
         if Last(items).outcome.Error? then [Last(items).outcome.error] else []
  }

  predicate IsPriced(item: Item) { item.outcome.Priced? }

  predicate IsFailed(item: Item) { item.outcome.Error? }

  lemma {:induction false} RoutesCounted(items: seq<Item>)
    ensures |RoutesOf(items)| == Count(items, IsPriced)
  {
    if items != [] { RoutesCounted(items[..|items| - 1]); }
  }

  lemma {:induction false} FailuresCounted(items: seq<Item>)
    ensures |ErrorsOf(items)| == Count(items, IsFailed)
  {
    if items != [] { FailuresCounted(items[..|items| - 1]); }
  }

  lemma {:induction false} PricedIsARoute(items: seq<Item>, i: nat)
    requires i < |items| && items[i].outcome.Priced?
    ensures Count(items[..i], IsPriced) < |RoutesOf(items)|
    ensures RoutesOf(items)[Count(items[..i], IsPriced)] == items[i].outcome.route
  {
    RoutesCounted(items);
    CountGrows(items, IsPriced, i);
    var init := items[..|items| - 1];
    RoutesCounted(init);
    if i < |items| - 1 {
      assert init[..i] == items[..i] && init[i] == items[i];
      PricedIsARoute(init, i);
    }
  }

  lemma {:induction false} FailedIsAnError(items: seq<Item>, i: nat)
    requires i < |items| && items[i].outcome.Error?
    ensures Count(items[..i], IsFailed) < |ErrorsOf(items)|
    ensures ErrorsOf(items)[Count(items[..i], IsFailed)] == items[i].outcome.error
  {
    FailuresCounted(items);
    CountGrows(items, IsFailed, i);
    var init := items[..|items| - 1];
    FailuresCounted(init);
    if i < |items| - 1 {
      assert init[..i] == items[..i] && init[i] == items[i];
      FailedIsAnError(init, i);
    }
  }

  // Outputs are printed by the engine itself, so the text always parses.
  function Output(route: Route): nat { if AllDigits(route.amountOut) then Value(route.amountOut) else 0 }

  predicate FirstMaximum(routes: seq<Route>, k: int) {
    && 0 <= k < |routes|
    && (forall i :: 0 <= i < k ==> Output(routes[i]) < Output(routes[k]))
    && (forall i :: k < i < |routes| ==> Output(routes[i]) <= Output(routes[k]))
  }

  ghost predicate IsBest(routes: seq<Route>, best: Option<string>) {
    match best
    case None => routes == []
    case Some(id) => exists k :: FirstMaximum(routes, k) && routes[k].routeId == id
  }

  lemma FirstMaximumIsUnique(routes: seq<Route>, j: int, k: int)
    requires FirstMaximum(routes, j) && FirstMaximum(routes, k)
    ensures j == k
  {
    hide Output;
    var a, b := Output(routes[j]), Output(routes[k]);
    assert j < k ==> a < b && b <= a;
    assert k < j ==> b < a && a <= b;
  }

  lemma BestIsUnique(routes: seq<Route>, a: Option<string>, b: Option<string>)
    requires IsBest(routes, a) && IsBest(routes, b)
    ensures a == b
  {
    if a.Some? && b.Some? {
      var j :| FirstMaximum(routes, j) && routes[j].routeId == a.value;
      var k :| FirstMaximum(routes, k) && routes[k].routeId == b.value;
      FirstMaximumIsUnique(routes, j, k);
    }
  }

  method Rank(quoteId: string, block: Block, problems: seq<ProviderError>, ordered: seq<Item>, complete: bool)
    returns (final: QuoteFinal)
    ensures Ranked(final, problems, ordered) && IsBest(final.routes, final.bestRouteId)
    ensures final.quoteId == quoteId && final.block == block && final.searchComplete == complete
  {
    var routes: seq<Route> := [];
    var errors := problems;
    var best: Option<string> := None;
    var bestOutput := 0;
    ghost var k := 0;
    var i := 0;
    while i < |ordered|
      invariant i <= |ordered|
      invariant routes == RoutesOf(ordered[..i]) && errors == problems + ErrorsOf(ordered[..i])
      invariant best.None? <==> routes == []
      invariant best.Some? ==> FirstMaximum(routes, k) && best == Some(routes[k].routeId) && bestOutput == Output(routes[k])
    {
      var outcome := ordered[i].outcome;
      assert ordered[..i + 1][..i] == ordered[..i] && Last(ordered[..i + 1]) == ordered[i];
      match outcome {
      case Priced(route) =>
        if best.None? || Output(route) > bestOutput {
          best, bestOutput, k := Some(route.routeId), Output(route), |routes|;
        }
        routes := routes + [route];
      case Error(error) =>
        assert problems + (ErrorsOf(ordered[..i]) + [error]) == problems + ErrorsOf(ordered[..i]) + [error];
        errors := errors + [error];
      case Nothing =>
      }
      i := i + 1;
    }
    assert ordered[..|ordered|] == ordered;
    return QuoteFinal(quoteId, block, routes, errors, best, complete);
  }

  predicate Ranked(final: QuoteFinal, problems: seq<ProviderError>, ordered: seq<Item>) {
    final.routes == RoutesOf(ordered) && final.errors == problems + ErrorsOf(ordered)
  }

  // The concurrent search answers exactly what quoting the candidates in order would: same routes,
  // same errors, same best route, for any concurrency and any schedule the budget does not cut short.
  lemma ConcurrentAnswerIsSequential(
      search: Search, steps: seq<Step>, problems: seq<ProviderError>, concurrent: QuoteFinal, sequential: QuoteFinal)
    requires search.concurrency >= 1
    requires Run(search, steps).closed && !Run(search, steps).expired
    requires Ranked(concurrent, problems, Ordered(Run(search, steps)))
    requires IsBest(concurrent.routes, concurrent.bestRouteId)
    requires Ranked(sequential, problems, Sequential(search))
    requires IsBest(sequential.routes, sequential.bestRouteId)
    ensures concurrent.routes == sequential.routes && concurrent.errors == sequential.errors
    ensures concurrent.bestRouteId == sequential.bestRouteId
  {
    RefinesSequential(search, steps);
    BestIsUnique(concurrent.routes, concurrent.bestRouteId, sequential.bestRouteId);
  }

  // An answer is its results and nothing else. As many routes as priced results, and each priced result is the
  // route that has as many before it; after the deployments' problems the errors likewise.
  lemma AnswerIsItsResults(final: QuoteFinal, problems: seq<ProviderError>, ordered: seq<Item>, i: nat)
    requires Ranked(final, problems, ordered) && i < |ordered|
    ensures |final.routes| == Count(ordered, IsPriced) && |final.errors| == |problems| + Count(ordered, IsFailed)
    ensures final.errors[..|problems|] == problems
    ensures
      var n, m := Count(ordered[..i], IsPriced), Count(ordered[..i], IsFailed);
      match ordered[i].outcome
      case Priced(route) => n < |final.routes| && final.routes[n] == route
      case Error(error) => |problems| + m < |final.errors| && final.errors[|problems| + m] == error
      case Nothing => Count(ordered[..i + 1], IsPriced) == n && Count(ordered[..i + 1], IsFailed) == m
  {
    RoutesCounted(ordered);
    FailuresCounted(ordered);
    assert ordered[..i + 1][..i] == ordered[..i];
    match ordered[i].outcome {
      case Priced(route) => PricedIsARoute(ordered, i);
      case Error(error) => FailedIsAnError(ordered, i);
      case Nothing =>
    }
  }

  // In every complete search each quote that was found is in the answer under its own identifier's route, each
  // failure is reported under its provider and candidate, and the best route is the first with the largest output.
  lemma EveryFoundQuoteIsAnswered(
      search: Search, steps: seq<SearchPool.Step>, problems: seq<ProviderError>, final: QuoteFinal, j: nat)
    requires search.concurrency >= 1 && Run(search, steps).closed && !Run(search, steps).expired && j < |search.jobs|
    requires Ranked(final, problems, Ordered(Run(search, steps))) && IsBest(final.routes, final.bestRouteId)
    ensures search.answer(search.jobs[j]).Found? ==> search.answer(search.jobs[j]).route in final.routes
    ensures search.answer(search.jobs[j]).Failed? ==>
              var job := search.jobs[j];
              ProviderError(job.kind, Some(job.candidate.routeId), search.answer(job).reason) in final.errors
  {
    hide Run, Ordered, RoutesOf, ErrorsOf;
    RefinesSequential(search, steps);
    var ordered := Ordered(Run(search, steps));
    assert Sequential(search)[j] == Item(j, OutcomeOf(search.jobs[j], search.answer(search.jobs[j])));
    AnswerIsItsResults(final, problems, ordered, j);
  }

  // In any finished search, cut short or not, each candidate that was handed out is answered for: by the quote that
  // was found, by the failure, by nothing where there is no pool, or, once the budget has expired, by the budget.
  lemma EveryIssuedIsAnswered(
      search: Search, steps: seq<SearchPool.Step>, problems: seq<ProviderError>, final: QuoteFinal, j: nat)
    requires Run(search, steps).closed && j < Run(search, steps).index
    requires Ranked(final, problems, Ordered(Run(search, steps)))
    ensures j < |search.jobs|
    ensures
      var job := search.jobs[j];
      || (Run(search, steps).expired
          && ProviderError(job.kind, Some(job.candidate.routeId), "search budget expired") in final.errors)
      || match search.answer(job)
         case Missing => true
         case Failed(reason) => ProviderError(job.kind, Some(job.candidate.routeId), reason) in final.errors
         case Found(route) => route in final.routes
  {
    hide Run, Ordered, RoutesOf, ErrorsOf;
    ExactlyOnce(search, steps);
    var ordered := Ordered(Run(search, steps));
    assert Sound(search, Run(search, steps), ordered[j]);
    AnswerIsItsResults(final, problems, ordered, j);
  }

  // The best route is the first of those with the largest output, and there is one as soon as there is a route.
  lemma BestIsFirstOfTheLargest(routes: seq<Route>, best: Option<string>) returns (k: nat)
    requires IsBest(routes, best) && routes != []
    ensures k < |routes| && best == Some(routes[k].routeId)
    ensures forall i :: 0 <= i < |routes| && IsDecimal(routes[i].amountOut) && IsDecimal(routes[k].amountOut) ==>
              Value(routes[i].amountOut) <= Value(routes[k].amountOut)
    ensures forall i :: 0 <= i < k && IsDecimal(routes[i].amountOut) && IsDecimal(routes[k].amountOut) ==>
              Value(routes[i].amountOut) < Value(routes[k].amountOut)
  {
    hide AllDigits, Value;
    var b :| FirstMaximum(routes, b) && routes[b].routeId == best.value;
    k := b;
  }

  // Whatever an answer names is a result: a route was found by its candidate's quote, also when the search was cut
  // short.
  lemma EveryRouteWasFound(
      search: Search, steps: seq<SearchPool.Step>, problems: seq<ProviderError>, final: QuoteFinal, route: Route)
    returns (job: Job)
    requires Run(search, steps).closed && Ranked(final, problems, Ordered(Run(search, steps)))
    requires route in final.routes
    ensures job in search.jobs && search.answer(job) == Found(route)
  {
    hide Run, Ordered, RoutesOf, ErrorsOf;
    ExactlyOnce(search, steps);
    var ordered := Ordered(Run(search, steps));
    var m :| 0 <= m < |final.routes| && final.routes[m] == route;
    RoutesCounted(ordered);
    var i := PlaceOf(ordered, IsPriced, m);
    PricedIsARoute(ordered, i);
    assert Sound(search, Run(search, steps), ordered[i]);
    job := search.jobs[i];
  }

  // So in a complete search no quote that was found is better than the best route.
  lemma NothingBeatsTheBest(
      search: Search, steps: seq<SearchPool.Step>, problems: seq<ProviderError>, final: QuoteFinal, j: nat)
    returns (best: Route)
    requires search.concurrency >= 1 && Run(search, steps).closed && !Run(search, steps).expired && j < |search.jobs|
    requires Ranked(final, problems, Ordered(Run(search, steps))) && IsBest(final.routes, final.bestRouteId)
    requires search.answer(search.jobs[j]).Found? && IsDecimal(search.answer(search.jobs[j]).route.amountOut)
    requires forall i :: 0 <= i < |search.jobs| && search.answer(search.jobs[i]).Found? ==>
               IsDecimal(search.answer(search.jobs[i]).route.amountOut)
    ensures best in final.routes && final.bestRouteId == Some(best.routeId) && IsDecimal(best.amountOut)
    ensures Value(search.answer(search.jobs[j]).route.amountOut) <= Value(best.amountOut)
  {
    hide Run, Ordered, Ranked, IsBest, Value, AllDigits;
    EveryFoundQuoteIsAnswered(search, steps, problems, final, j);
    var k := BestIsFirstOfTheLargest(final.routes, final.bestRouteId);
    best := final.routes[k];
    var job := EveryRouteWasFound(search, steps, problems, final, best);
    assert IsDecimal(search.answer(job).route.amountOut);
    var i :| 0 <= i < |final.routes| && final.routes[i] == search.answer(search.jobs[j]).route;
  }

  // A complete answer left nothing out: every candidate of every usable deployment has its outcome.
  lemma CompleteSearchCoversEveryCandidate(ds: seq<Configured>, search: Search, steps: seq<SearchPool.Step>, c: Candidate)
    requires search.jobs == Jobs(UsableSources(ds)) && search.concurrency >= 1
    requires Run(search, steps).closed && !Run(search, steps).expired && UsableCandidate(ds, c)
    ensures exists i :: 0 <= i < |search.jobs| && search.jobs[i].candidate == c && i < |Ordered(Run(search, steps))| &&
              Ordered(Run(search, steps))[i] == Item(i, OutcomeOf(search.jobs[i], search.answer(search.jobs[i])))
  {
    hide Run, Ordered, Jobs;
    RefinesSequential(search, steps);
    UsableCandidatesAreQueued(ds, c);
    var job :| job in search.jobs && job.candidate == c;
    var i :| 0 <= i < |search.jobs| && search.jobs[i] == job;
    assert Sequential(search)[i] == Item(i, OutcomeOf(search.jobs[i], search.answer(search.jobs[i])));
  }

  // ---------- looking a route up by its identifier ----------

  ghost predicate KeepsIds(search: Search) {
    forall job :: job in search.jobs && search.answer(job).Found? ==>
      search.answer(job).route.routeId == job.candidate.routeId
  }

  ghost predicate CandidatesApart(search: Search) {
    forall i, j :: 0 <= i < j < |search.jobs| ==>
      search.jobs[i].candidate.routeId != search.jobs[j].candidate.routeId
  }

  // Results whose routes carry the identifiers of their own candidates.
  ghost predicate Labelled(search: Search, items: seq<Item>) {
    && |items| <= |search.jobs|
    && forall i :: 0 <= i < |items| ==>
         items[i].outcome.Priced? ==> items[i].outcome.route.routeId == search.jobs[i].candidate.routeId
  }

  ghost predicate RoutesApart(routes: seq<Route>) {
    forall i, j :: 0 <= i < j < |routes| ==> routes[i].routeId != routes[j].routeId
  }

  lemma {:induction false} LabelledRoutesApart(search: Search, items: seq<Item>)
    requires CandidatesApart(search) && Labelled(search, items)
    ensures RoutesApart(RoutesOf(items))
    ensures forall route :: route in RoutesOf(items) ==>
              exists i :: 0 <= i < |items| && route.routeId == search.jobs[i].candidate.routeId
  {
    if items != [] {
      var init := items[..|items| - 1];
      LabelledRoutesApart(search, init);
      var routes := RoutesOf(init);
      if Last(items).outcome.Priced? {
        var last := Last(items).outcome.route;
        assert last.routeId == search.jobs[|items| - 1].candidate.routeId;
        forall i | 0 <= i < |routes| ensures routes[i].routeId != last.routeId {
          assert routes[i] in routes;
        }
        assert RoutesOf(items) == routes + [last];
      }
      forall route | route in RoutesOf(items)
        ensures exists i :: 0 <= i < |items| && route.routeId == search.jobs[i].candidate.routeId
      {
        if route in routes {
          var i :| 0 <= i < |init| && route.routeId == search.jobs[i].candidate.routeId;
          assert 0 <= i < |items|;
        }
      }
    }
  }

  lemma {:induction false} FirstMatchIsTheRoute(routes: seq<Route>, k: nat)
    requires RoutesApart(routes) && k < |routes|
    ensures FindRoute(routes, routes[k].routeId) == Some(routes[k])
  {
    if k > 0 { FirstMatchIsTheRoute(routes[1..], k - 1); }
  }

  // In every answer of every search, complete or not, looking up a route's identifier finds that
  // route and the best route is found under the identifier the answer names.
  lemma LookupFindsTheRoute(
      search: Search, steps: seq<Step>, problems: seq<ProviderError>, final: QuoteFinal, route: Route)
    requires KeepsIds(search) && CandidatesApart(search) && Run(search, steps).closed
    requires Ranked(final, problems, Ordered(Run(search, steps))) && IsBest(final.routes, final.bestRouteId)
    requires route in final.routes
    ensures FindRoute(final.routes, route.routeId) == Some(route)
    ensures final.bestRouteId.Some? && FindRoute(final.routes, final.bestRouteId.value).Some?
    ensures Output(route) <= Output(FindRoute(final.routes, final.bestRouteId.value).value)
  {
    var s := Run(search, steps);
    RunIsLabelled(search, steps);
    LabelledRoutesApart(search, Ordered(s));
    var k :| 0 <= k < |final.routes| && final.routes[k] == route;
    FirstMatchIsTheRoute(final.routes, k);
    BestIsFound(final.routes, final.bestRouteId, route);
  }

  lemma BestIsFound(routes: seq<Route>, best: Option<string>, route: Route)
    requires RoutesApart(routes) && IsBest(routes, best) && route in routes
    ensures best.Some? && FindRoute(routes, best.value).Some?
    ensures Output(route) <= Output(FindRoute(routes, best.value).value)
  {
    hide Output;
    var b :| FirstMaximum(routes, b) && routes[b].routeId == best.value;
    FirstMatchIsTheRoute(routes, b);
    var k :| 0 <= k < |routes| && routes[k] == route;
    if k != b { assert Output(routes[k]) <= Output(routes[b]); }
  }

  lemma RunIsLabelled(search: Search, steps: seq<Step>)
    requires KeepsIds(search) && Run(search, steps).closed
    ensures Labelled(search, Ordered(Run(search, steps)))
  {
    hide Run, Ordered;
    var s := Run(search, steps);
    ExactlyOnce(search, steps);
    forall i | 0 <= i < |Ordered(s)| && Ordered(s)[i].outcome.Priced?
      ensures Ordered(s)[i].outcome.route.routeId == search.jobs[i].candidate.routeId
    {
      assert Sound(search, s, Ordered(s)[i]);
      assert search.jobs[i] in search.jobs;
    }
  }

  // ---------- a configured chain ----------

  // The sources of a chain: each deployment's own enumeration.
  ghost predicate ChainSources(
      sources: seq<Source>, ds: seq<Deployment>, middles: seq<Address>, tokenIn: Address, tokenOut: Address,
      hex: Address -> string)
  {
    && |sources| == |ds|
    && forall i :: 0 <= i < |ds| ==>
         sources[i].candidates == Named(PathsOf(ds[i], middles), tokenIn, tokenOut, hex)
  }

  function CandidatesOf(jobs: seq<Job>): (cs: seq<Candidate>)
    ensures |cs| == |jobs| && forall i :: 0 <= i < |cs| ==> cs[i] == jobs[i].candidate
  {
    seq(|jobs|, i requires 0 <= i < |jobs| => jobs[i].candidate)
  }

  lemma {:induction false} ChainJobs(
      sources: seq<Source>, ds: seq<Deployment>, middles: seq<Address>, tokenIn: Address, tokenOut: Address,
      hex: Address -> string, k: nat)
    requires ChainSources(sources, ds, middles, tokenIn, tokenOut, hex) && k <= |ds|
    ensures CandidatesOf(Jobs(sources[k..])) == Named(PathsFrom(ds, middles, k), tokenIn, tokenOut, hex)
    decreases |ds| - k
  {
    hide Jobs, Named, PathsOf, CandidatesOf;
    if k < |ds| {
      ChainJobs(sources, ds, middles, tokenIn, tokenOut, hex, k + 1);
      JobsFrom(sources, k);
      NamedConcat(PathsOf(ds[k], middles), PathsFrom(ds, middles, k + 1), tokenIn, tokenOut, hex);
      CandidatesConcat(JobsOf(sources[k].kind, sources[k].candidates), Jobs(sources[k + 1..]));
      CandidatesOfJobs(sources[k].kind, sources[k].candidates);
    } else {
      NoJobs(sources[k..]);
    }
  }

  lemma NoJobs(sources: seq<Source>)
    requires sources == []
    ensures CandidatesOf(Jobs(sources)) == []
  {}

  lemma JobsFrom(sources: seq<Source>, k: nat)
    requires k < |sources|
    ensures Jobs(sources[k..]) == JobsOf(sources[k].kind, sources[k].candidates) + Jobs(sources[k + 1..])
  {
    assert sources[k..][1..] == sources[k + 1..];
  }

  lemma CandidatesConcat(a: seq<Job>, b: seq<Job>)
    ensures CandidatesOf(a + b) == CandidatesOf(a) + CandidatesOf(b)
  {}

  lemma CandidatesOfJobs(kind: string, cs: seq<Candidate>)
    ensures CandidatesOf(JobsOf(kind, cs)) == cs
  {}

  lemma NamedConcat(
      a: seq<Path>, b: seq<Path>, tokenIn: Address, tokenOut: Address, hex: Address -> string)
    ensures Named(a + b, tokenIn, tokenOut, hex) == Named(a, tokenIn, tokenOut, hex) + Named(b, tokenIn, tokenOut, hex)
  {
    var whole := Named(a + b, tokenIn, tokenOut, hex);
    var parts := Named(a, tokenIn, tokenOut, hex) + Named(b, tokenIn, tokenOut, hex);
    forall i | 0 <= i < |whole| ensures whole[i] == parts[i] {
      assert whole[i] == CandidateOf((a + b)[i], tokenIn, tokenOut, hex);
      if i >= |a| { assert parts[i] == Named(b, tokenIn, tokenOut, hex)[i - |a|]; }
    }
  }

  // A search over a configured chain, fee and tick-spacing deployments together, never names two
  // candidates alike: the hypothesis of LookupFindsTheRoute holds of every configuration.
  lemma ChainSearchIsApart(
      search: Search, sources: seq<Source>, ds: seq<Deployment>, middles: seq<Address>, tokenIn: Address,
      tokenOut: Address, hex: Address -> string)
    requires search.jobs == Jobs(sources) && ChainSources(sources, ds, middles, tokenIn, tokenOut, hex)
    requires HexText(hex) && Distinct(middles)
    requires forall d :: d in ds ==> Distinct(d.selectors) && NoColon(d.id)
    requires forall i, j :: 0 <= i < j < |ds| ==> ds[i].id != ds[j].id
    ensures CandidatesApart(search)
  {
    ChainJobs(sources, ds, middles, tokenIn, tokenOut, hex, 0);
    assert sources[0..] == sources;
    ChainRouteIdsApart(ds, middles, tokenIn, tokenOut, hex);
    var cs := CandidatesOf(search.jobs);
    assert RouteIdsApart(cs);
    forall i, j | 0 <= i < j < |search.jobs|
      ensures search.jobs[i].candidate.routeId != search.jobs[j].candidate.routeId
    {
      assert cs[i].routeId != cs[j].routeId;
    }
  }
}
