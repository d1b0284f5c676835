// A concrete direct response, over one hop, that meets every hypothesis of the agreement results.
module Examples {
  import opened Messages
  import opened Numerals
  import opened PreparationProtocol
  import opened PathQuotes
  import opened Paths
  import opened Policy
  import opened Routers
  import opened Agreement
  import E = Executor

  const SENDER: Address := 5
  const REQUEST: QuoteRequest := QuoteRequest("base", 1, 2, "100")
  const UNISWAP: V3Deployment := V3Deployment("uniswap-v3", 7, [500])
  const PREPARER: DirectPreparer := DirectPreparer("uni", "uniswap-v3", 7, "8453", UniswapRouter02)
  const LEG: Leg := Leg(9, 1, 2, FeePips(500), false)
  const ROUTE: Route := Route("uni:500", "uniswap-v3", "uni", [LEG], "200", None)
  const TRUSTED: Trusted := Trusted([1, 2], map["uni" := Uniswap(UNISWAP)], None)

  const SELECTION: Selection := Selection(Some(ROUTE), [], 200)

  function ExampleTerms(): Terms {
    FreshResponse("id", REQUEST, SENDER, 100, SELECTION, 0, 1000).terms
  }

  function ExampleResponse(): Response
    requires FeeRoute(ROUTE.legs)
  {
    Response(Ready, "", ExampleTerms(), Some(DirectPlan(PREPARER, ExampleTerms()).transaction), None, None, None, None, "")
  }

  lemma ShortTexts()
    ensures Print(30) == "30" && Print(198) == "198" && Print(200) == "200"
  {
    assert Print(3) == "3" && Print(1) == "1" && Print(19) == "19" && Print(2) == "2" && Print(20) == "20";
  }

  lemma DeadlineText()
    ensures Print(1120) == "1120" && Value("1120") == 1120 && AllDigits("1120")
  {
    assert Print(1) == "1" && Print(11) == "11" && Print(112) == "112";
    PrintRoundTrip(1120);
  }

  lemma AmountIsText()
    ensures E.AmountText("100")
  {
    assert Print(1) == "1" && Print(10) == "10" && Print(100) == "100";
    PrintRoundTrip(100);
  }

  lemma ExampleTermsFacts()
    ensures ExampleTerms().minimum == "198" && ExampleTerms().deadline == "1120" && ExampleTerms().expiresAt == "30"
    ensures E.AmountOf("198") == 198 && Unexpired(ExampleTerms(), 1)
  {
    ShortTexts();
    DeadlineText();
    PrintRoundTrip(198);
    PrintRoundTrip(30);
    hide Print, Value;
    assert SlippageMinimum(200, 100) == 198 && Deadline(1000) == 1120;
  }

  lemma ExampleConfiguration()
    ensures ROUTE.deploymentId == PREPARER.id && PREPARER.id in TRUSTED.deployments && ROUTE.provider == PREPARER.kind
    ensures SameDeployment(PREPARER, TRUSTED.deployments[PREPARER.id])
    ensures SearchedFor(ROUTE, TRUSTED.deployments[PREPARER.id], TRUSTED.tokens, ExampleTerms())
    ensures AdmittedRequest(REQUEST, TRUSTED.tokens) && Routable(PREPARER.encoder, ROUTE.legs)
  {
    ExampleRoute();
    AmountIsText();
    hide E.AmountText, FeeRoute, SearchedFeeRoute;
    assert TRUSTED.tokens[0] == 1 && TRUSTED.tokens[1] == 2;
  }

  lemma ExampleIsReady()
    requires FeeRoute(ROUTE.legs)
    ensures ReadyResponse(ExampleResponse(), ExampleResponse().terms, DirectPlan(PREPARER, ExampleResponse().terms))
    ensures ExampleResponse().terms == ExampleTerms()
    ensures FrozenTerms(ExampleTerms(), "id", REQUEST, SENDER, 100, SELECTION, 0, 1000)
  {
    hide DirectPlan, FreshResponse, FeeRoute;
  }

  // A one-hop route quoted at 200 for 100, prepared at slippage 1%, read in its second second.
  lemma ADirectResponseIsAccepted()
    ensures Routable(PREPARER.encoder, ROUTE.legs)
    ensures ValidatePreparation(ExampleResponse(), SENDER, "8453", 100, TRUSTED, 1).Ok?
  {
    ExampleConfiguration();
    ExampleTermsFacts();
    ShortTexts();
    ExampleIsReady();
    hide Print, Value, AllDigits, SearchedFor, SameDeployment, ValidatePreparation, DirectPlan, E.AmountOf, Unexpired,
         FreshResponse, FrozenTerms, ReadyResponse, AdmittedRequest, ExampleResponse, ExampleTerms, FeeRoute;
    DirectAgreement(PREPARER, TRUSTED, ExampleResponse(), "id", REQUEST, SENDER, 100, ROUTE, 200, 0, 1000, 1);
  }

  lemma ExampleRoute()
    ensures FeeRoute(ROUTE.legs) && SearchedFeeRoute(ROUTE.legs, UNISWAP.fees, TRUSTED.tokens, 1, 2)
  {
    assert Tokens(ROUTE.legs) == [1, 2] && Fees(ROUTE.legs) == [500];
    assert TRUSTED.tokens[0] == 1 && TRUSTED.tokens[1] == 2;
    assert UNISWAP.fees[0] == 500;
  }
}
