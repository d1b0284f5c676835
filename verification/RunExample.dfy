// A whole run, from a search of one candidate to a ready answer the terminal accepts: every hypothesis
// of the results about runs is met by it.
module RunExample {
  import opened Messages
  import opened Numerals
  import opened Retention
  import opened PreparationProtocol
  import opened PreparationTheorems
  import opened LoneCalls
  import opened Authorizations
  import opened PathQuotes
  import opened Paths
  import opened Sorting
  import opened Policy
  import opened Routers
  import opened Agreement
  import opened EngineRuns
  import opened SearchedRuns
  import opened Examples
  import E = Executor
  import En = Enumeration
  import S = SearchPool
  import R = Ranking

  // ---------- the search ----------

  const DEPLOYMENT: En.Deployment := En.Deployment("uni", [500])
  const PATH: En.Path := En.Direct("uni", 500)

  function Doubling(tokenIn: Address, tokenOut: Address, amount: nat, selector: int): HopQuote { Quoted(9, 2 * amount) }

  function Hex(a: Address): string { "0x" + Print(a) }

  const SETUP: Setup := Setup(map["uni" := Venue("uniswap-v3", FeeKind, DEPLOYMENT, Doubling)], [1, 2], Hex)
  const JOB: S.Job := S.Job("uniswap-v3", En.Candidate("uni:500", "uni", [1, 2], [500]))
  const SEARCH: S.Search := S.Search([JOB], (job: S.Job) => S.Found(ROUTE), 1)
  const SCHEDULE: seq<S.Step> := [S.Launch, S.Launch, S.Return(0), S.Send(0), S.Fetch(0), S.Close]
  const BLOCK: Block := Block("1", "0x1")
  const FINAL: QuoteFinal := QuoteFinal("q", BLOCK, [ROUTE], [], Some("uni:500"), true)

  lemma JobIsEnumerated()
    ensures Enumerated(SETUP, REQUEST, [], JOB)
  {
    assert Print(5) == "5" && Print(50) == "50" && Print(500) == "500";
    assert En.CandidateOf(PATH, 1, 2, Hex) == JOB.candidate;
    assert DEPLOYMENT.selectors[0] == 500;
    assert En.Searched(PATH, DEPLOYMENT, []);
  }

  lemma JobIsAnswered()
    ensures AnswerTo(SETUP.venues["uni"], JOB.candidate, 100) == S.Found(ROUTE)
  {
    ShortTexts();
    hide Print;
    assert [500][1..] == [] && [1, 2][1..] == [2];
    assert Along(FeeKind, Doubling, [2], [], 200) == Complete([], 200);
    assert [LEG] + [] == [LEG];
    assert Along(FeeKind, Doubling, [1, 2], [500], 100) == Complete([LEG], 200);
  }

  lemma OneMore(steps: seq<S.Step>, step: S.Step)
    requires S.Enabled(SEARCH, S.Run(SEARCH, steps), step)
    ensures S.Run(SEARCH, steps + [step]) == S.Apply(SEARCH, S.Run(SEARCH, steps), step)
  {
    assert (steps + [step])[..|steps|] == steps;
  }

  lemma SearchEnds()
    ensures S.Run(SEARCH, SCHEDULE).closed
    ensures S.Run(SEARCH, SCHEDULE).collected == [S.Item(0, S.Priced(ROUTE))]
  {
    hide S.Run;
    NothingRun();
    OneMore([], S.Launch);
    assert [] + [S.Launch] == SCHEDULE[..1];
    assert S.Run(SEARCH, SCHEDULE[..1]).workers == [S.Quoting(0, JOB)];
    assert S.Run(SEARCH, SCHEDULE[..1]).pending == [];
    OneMore(SCHEDULE[..1], S.Launch);
    assert SCHEDULE[..1] + [S.Launch] == SCHEDULE[..2];
    OneMore(SCHEDULE[..2], S.Return(0));
    assert SCHEDULE[..2] + [S.Return(0)] == SCHEDULE[..3];
    OneMore(SCHEDULE[..3], S.Send(0));
    assert SCHEDULE[..3] + [S.Send(0)] == SCHEDULE[..4];
    OneMore(SCHEDULE[..4], S.Fetch(0));
    assert SCHEDULE[..4] + [S.Fetch(0)] == SCHEDULE[..5];
    OneMore(SCHEDULE[..5], S.Close);
    assert SCHEDULE[..5] + [S.Close] == SCHEDULE;
  }

  lemma NothingRun()
    ensures S.Run(SEARCH, []) == S.Start(SEARCH)
  {}

  lemma RouteIsRanked()
    ensures R.Ranked(FINAL, [], S.Ordered(S.Run(SEARCH, SCHEDULE)))
  {
    SearchEnds();
    hide S.Run;
    var items := S.Ordered(S.Run(SEARCH, SCHEDULE));
    var item := S.Item(0, S.Priced(ROUTE));
    assert [item][1..] == [] && SortBy<S.Item>([], S.IndexOf) == [];
    assert SortBy([item], S.IndexOf) == [item];
    assert items == [item];
    assert items[..0] == [];
    assert R.RoutesOf(items) == [ROUTE] && R.ErrorsOf(items) == [];
  }

  lemma QuoteCameFromSearch()
    ensures CameFromSearch(SETUP, REQUEST, FINAL) && SameSetup(SETUP, TRUSTED)
  {
    SearchEnds();
    RouteIsRanked();
    JobIsEnumerated();
    JobIsAnswered();
    ExampleConfiguration();
    ExampleTermsFacts();
    AmountIsText();
    AmountIsHundred();
    hide S.Run, S.Ordered, Enumerated, AnswerTo, AdmittedRequest, E.AmountOf, R.Ranked;
    assert IsSearch(SETUP, REQUEST, FINAL, SEARCH, SCHEDULE, [], []);
  }

  lemma AmountIsHundred()
    ensures E.AmountOf("100") == 100
  {
    assert Print(1) == "1" && Print(10) == "10" && Print(100) == "100";
    PrintRoundTrip(100);
  }

  // ---------- the run ----------

  const CHAINS: Chains := map["base" := "8453"]
  const SAVED: seq<Step> := [SaveQuote(REQUEST, FINAL, 0, 0, None)]

  function FrozenPlan(): Plan
    requires FeeRoute(ROUTE.legs)
  {
    DirectPlan(PREPARER, ExampleTerms())
  }

  function TheCall(): Call
    requires FeeRoute(ROUTE.legs)
  {
    Call(1, PrepareRequest("q", "uni:500", Some(SENDER), 100, "", []), 0,
         BuildInput(true, REQUEST, Some(SELECTION), "id", Some(FrozenPlan())),
         Reading(Some(Snapshot("8453", BLOCK, 1000)), true, Some(false)), false, "200", None, Handover(Some(ROUTE), []))
  }

  function TheRun(): seq<Step>
    requires FeeRoute(ROUTE.legs)
  {
    SAVED + Steps(TheCall())
  }

  lemma QuoteIsSaved()
    ensures
      var s := Run(CHAINS, SAVED);
      && s.store == StoreState(map["q" := Entry(QuoteRecord(REQUEST, FINAL, {}), RETENTION)], map[])
      && s.requests == map[] && s.history.frozen == map[]
  {
    assert SAVED[..0] == [];
    assert Run(CHAINS, SAVED) == Apply(CHAINS, EMPTY, SAVED[0]);
    assert Live<QuoteRecord>(map[], 0) == map[] && Live<Preparation>(map[], 0) == map[];
  }

  lemma CallIsFirst()
    requires FeeRoute(ROUTE.legs)
    ensures FirstCall(CHAINS, Run(CHAINS, SAVED), TheCall())
    ensures FirstWork(CHAINS, Run(CHAINS, SAVED), TheCall()).p.response.terms == ExampleTerms()
    ensures FirstWork(CHAINS, Run(CHAINS, SAVED), TheCall()).p.plan == FrozenPlan()
  {
    hide Run, FrozenPlan, UnixSeconds, Print, SlippageMinimum;
    QuoteIsSaved();
    LiveSize(Run(CHAINS, SAVED).store.preparations, 0);
    assert FindRoute(FINAL.routes, "uni:500") == Some(ROUTE);
  }

  lemma BuildIsThird()
    requires FeeRoute(ROUTE.legs)
    ensures |TheRun()| == 14
    ensures TheRun()[3] == DoBuild(1, TheCall().input, TheCall().reading, 0)
    ensures
      var s := Run(CHAINS, SAVED);
      Run(CHAINS, TheRun()[..3]) == Next(CHAINS, s, Steps(TheCall())[0], Steps(TheCall())[1])
  {
    hide Apply, FrozenPlan, FeeRoute;
    var run := TheRun();
    assert run[..1] == SAVED && run[..2][..1] == run[..1] && run[..3][..2] == run[..2];
    assert run[1] == Steps(TheCall())[0] && run[2] == Steps(TheCall())[1];
  }

  lemma BuildFreezes()
    requires FeeRoute(ROUTE.legs)
    ensures
      var s := Run(CHAINS, TheRun()[..3]);
      && Freezes(CHAINS, s, TheRun()[3])
      && At(s, 1) == Looked(TheCall().request, 0, Some(Entry(QuoteRecord(REQUEST, FINAL, {}), RETENTION)), None)
  {
    hide Run, TheRun, FrozenPlan, Evictable, Pruned, Value, Print, SlippageMinimum, UnixSeconds, Admit, FirstCall;
    QuoteIsSaved();
    CallIsFirst();
    BuildIsThird();
    LookupStage(CHAINS, Run(CHAINS, SAVED), TheCall());
    assert FindRoute(FINAL.routes, "uni:500") == Some(ROUTE);
  }

  lemma BuildOfTheRun()
    requires FeeRoute(ROUTE.legs)
    ensures
      var s := Run(CHAINS, TheRun()[..3]);
      && TheRun()[3].DoBuild? && BuildReady(s, TheRun()[3]) && BuildTerms(s, TheRun()[3]) == ExampleTerms()
  {
    BuildFreezes();
    BuildIsThird();
    hide Run, TheRun, Freezes, FreshResponse, FrozenPlan;
  }

  lemma RequestIsLeft()
    requires FeeRoute(ROUTE.legs)
    ensures
      var s := Run(CHAINS, TheRun()[..3]);
      TheRun()[3].DoBuild? && BuildReady(s, TheRun()[3]) && RequestLeft(s, TheRun()[3])
  {
    BuildFreezes();
    BuildIsThird();
    hide Run, TheRun, Freezes, FrozenPlan, FeeRoute;
  }

  lemma SelectionIsDirect()
    requires FeeRoute(ROUTE.legs)
    ensures
      var s := Run(CHAINS, TheRun()[..3]);
      && TheRun()[3].DoBuild? && BuildReady(s, TheRun()[3])
      && DirectSelection(s, TheRun()[3], PREPARER, TRUSTED, ROUTE, 200)
  {
    BuildOfTheRun();
    RequestIsLeft();
    BuildIsThird();
    ExampleConfiguration();
    ExampleTermsFacts();
    ShortTexts();
    TermsOfTheRoute();
    hide Run, TheRun, Freezes, Print, E.AmountOf, DirectPlan, Routable, SameDeployment, SearchedFor, Unexpired, BuildTerms,
         AdmittedRequest, FeeRoute, ExampleTerms, BuildReady, RequestLeft;
  }

  lemma TermsOfTheRoute()
    ensures ExampleTerms().route == Some(ROUTE) && ExampleTerms().preparationId == "id"
  {
    hide Print, UnixSeconds;
  }

  lemma CallIsAnswered() returns (a: Issued)
    requires FeeRoute(ROUTE.legs)
    ensures a in Run(CHAINS, TheRun()).answers && a.response.status == Ready && a.response.terms == ExampleTerms()
  {
    hide Run, FirstCall, Apply, Steps, AllowanceKey, PermissionKey, DirectPlan, FeeRoute;
    CallIsFirst();
    QuoteIsSaved();
    AdvanceIsRun(CHAINS, SAVED, Steps(TheCall()));
    NoPermission();
    LoneFirstCall(CHAINS, Run(CHAINS, SAVED), TheCall());
    a := RecordOf(CHAINS, TheRun(), 1);
  }

  // The answer of the call that built.
  lemma FirstAnswer() returns (a: Issued)
    requires FeeRoute(ROUTE.legs)
    ensures a in Run(CHAINS, TheRun()).answers && a.response.status == Ready && a.response.terms == ExampleTerms()
    ensures AsBuilt(CHAINS, TheRun(), a)
  {
    hide Run, Freezes, FeeRoute, DirectPlan, Print, Steps, BuildTerms, ExampleTerms, ReadyResponse, TheRun, FrozenPlan;
    var b := CallIsAnswered();
    a := FirstCallOf(CHAINS, TheRun(), b);
    TwoClasses(CHAINS, TheRun(), a, b);
    BuildFreezes();
    BuildIsThird();
    BuildOfTheRun();
    TermsOfTheRoute();
    assert AsBuilt(CHAINS, TheRun(), a);
    ReadyAnswersCarryTheBuild(CHAINS, TheRun(), 3, a);
  }

  lemma NoPermission()
    requires FeeRoute(ROUTE.legs)
    ensures FrozenPlan().permission.None?
  {
    hide Print;
  }

  // The search's quote is saved, one call prepares its route and is answered ready, and the terminal
  // accepts the answer.
  lemma AReadyAnswerOfARunIsAccepted() returns (a: Issued)
    ensures FeeRoute(ROUTE.legs) && SavesSearches(SETUP, TheRun())
    ensures a in Run(CHAINS, TheRun()).answers && a.response.status == Ready
    ensures ValidatePreparation(a.response, SENDER, "8453", 100, TRUSTED, 1).Ok?
  {
    ExampleRoute();
    hide Run, Freezes, DirectSelection, SavesSearches, Accepted, FeeRoute, CameFromSearch, SameSetup, DirectPlan, Unexpired,
         ValidatePreparation, BuildTerms, Print, Steps, SearchedFeeRoute;
    QuoteCameFromSearch();
    OnlyOneSave();
    ExampleTermsFacts();
    BuildFreezes();
    BuildIsThird();
    SelectionIsDirect();
    a := FirstAnswer();
    TermsOfTheRoute();
    RouteIsStored();
    SearchedDirectAnswersAreAccepted(CHAINS, SETUP, TheRun(), 3, a, PREPARER, TRUSTED, ROUTE, 200, 1);
    AcceptedIsOk(Run(CHAINS, TheRun()[..3]), TheRun()[3], a.response, "8453", TRUSTED, 1);
  }

  lemma RouteIsStored()
    requires FeeRoute(ROUTE.legs)
    ensures At(Run(CHAINS, TheRun()[..3]), 1).Looked? && At(Run(CHAINS, TheRun()[..3]), 1).quote.Some?
    ensures ROUTE in At(Run(CHAINS, TheRun()[..3]), 1).quote.value.value.final.routes
  {
    hide Run, Freezes, FeeRoute, FrozenPlan;
    BuildFreezes();
    assert FINAL.routes[0] == ROUTE;
  }

  lemma AcceptedIsOk(s: State, step: Step, r: Response, chainId: string, trusted: Trusted, now: nat)
    requires step.DoBuild? && BuildReady(s, step) && Accepted(s, step, r, chainId, trusted, now)
    ensures var request := At(s, step.rid).request;
            ValidatePreparation(r, request.sender.value, chainId, request.slippageBps, trusted, now).Ok?
  {
    hide ValidatePreparation;
  }

  lemma OnlyOneSave()
    requires FeeRoute(ROUTE.legs) && CameFromSearch(SETUP, REQUEST, FINAL)
    ensures SavesSearches(SETUP, TheRun())
  {
    hide CameFromSearch, FeeRoute, FrozenPlan;
    forall i | 0 <= i < |TheRun()| && TheRun()[i].SaveQuote?
      ensures CameFromSearch(SETUP, TheRun()[i].search, TheRun()[i].final) {
      assert i == 0;
    }
  }
}
