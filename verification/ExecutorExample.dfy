// A concrete executor plan over two venues, one of them in two hops: the engine builds it, and the
// terminal accepts it while it lasts.
module ExecutorExample {
  import opened Messages
  import opened Numerals
  import opened Retention
  import opened PreparationProtocol
  import opened PathQuotes
  import opened Policy
  import opened Agreement
  import opened EndToEnd
  import E = Executor

  const HASH: string := "0x" + seq(64, _ => 'a')
  const BLOCK: Block := Block("1", HASH)
  const REQUEST: QuoteRequest := QuoteRequest("base", 1, 2, "100")
  const DIRECT: Leg := Leg(9, 1, 2, FeePips(500), false)
  const FIRST: Leg := Leg(10, 1, 3, FeePips(100), false)
  const SECOND: Leg := Leg(11, 3, 2, FeePips(100), false)
  const UNI: Route := Route("u", "uniswap-v3", "uni", [DIRECT], "120", None)
  const PAN: Route := Route("p", "pancake-v3", "pan", [FIRST, SECOND], "160", None)
  const SAVED: QuoteRecord := QuoteRecord(REQUEST, QuoteFinal("q", BLOCK, [UNI, PAN], [], Some("u"), true), {})
  const REQUESTED: seq<RouteAllocation> := [RouteAllocation("u", "60"), RouteAllocation("p", "40")]

  // Every hop doubles the amount; each pair has one pool.
  function Doubling(tokenIn: Address, tokenOut: Address, amount: nat, selector: int): HopQuote {
    Quoted(if tokenOut == 3 then 10 else if tokenIn == 3 then 11 else 9, 2 * amount)
  }

  const CHAIN: E.Chain := E.Chain(
    "8453", map["uni" := E.Deployment("uniswap-v3", 7), "pan" := E.Deployment("pancake-v3", 8)],
    Some(E.ExecutorConfig(6, "uni", "pan")), map["uni" := Doubling, "pan" := Doubling], {})
  const TRUST: ExecutorTrust := ExecutorTrust(
    6, map["uni" := V3Deployment("uniswap-v3", 7, [500]), "pan" := V3Deployment("pancake-v3", 8, [100])])
  const TRUSTED: Trusted := Trusted([1, 2, 3], map[], Some(TRUST))

  lemma Texts()
    ensures Print(100) == "100" && Print(60) == "60" && Print(40) == "40"
    ensures E.AmountText("100") && E.AmountText("60") && E.AmountText("40")
    ensures Value("60") == 60 && Value("40") == 40 && AllDigits("60") && AllDigits("40")
  {
    assert Print(1) == "1" && Print(10) == "10" && Print(6) == "6" && Print(4) == "4";
    PrintRoundTrip(100);
    PrintRoundTrip(60);
    PrintRoundTrip(40);
  }

  lemma RoutesAreSearched()
    ensures StoredRoutesSearched(SAVED, TRUST, TRUSTED.tokens) && BlockReported(BLOCK)
    ensures AdmittedRequest(REQUEST, TRUSTED.tokens) && SameExecutor(CHAIN, TRUST)
  {
    Texts();
    UniIsSearched();
    PanIsSearched();
    assert TRUSTED.tokens[0] == 1 && TRUSTED.tokens[1] == 2;
    hide SearchedFeeRoute, E.AmountText, Print, Value;
    assert AllDigits("1");
  }

  lemma UniIsSearched()
    ensures SearchedFeeRoute(UNI.legs, [500], TRUSTED.tokens, 1, 2)
  {
    assert Tokens(UNI.legs) == [1, 2] && Fees(UNI.legs) == [500];
    assert TRUSTED.tokens[0] == 1 && TRUSTED.tokens[1] == 2 && [500][0] == 500;
  }

  lemma PanIsSearched()
    ensures SearchedFeeRoute(PAN.legs, [100], TRUSTED.tokens, 1, 2)
  {
    assert Tokens(PAN.legs) == [1, 3, 2] && Fees(PAN.legs) == [100, 100];
    assert TRUSTED.tokens[0] == 1 && TRUSTED.tokens[1] == 2 && TRUSTED.tokens[2] == 3 && [100][0] == 100;
  }

  lemma Found()
    ensures E.SelectedRoute(SAVED, REQUESTED[0]) == Some(UNI) && E.SelectedRoute(SAVED, REQUESTED[1]) == Some(PAN)
  {
    assert FindRoute([UNI, PAN], "u") == Some(UNI);
    assert FindRoute([PAN], "p") == Some(PAN);
    assert [UNI, PAN][1..] == [PAN];
  }

  lemma PlanIsAdmissible()
    ensures E.Plannable(CHAIN, SAVED, REQUESTED)
  {
    Texts();
    Found();
    hide E.AmountText, FindRoute, Print, Value;
    assert E.VenueOf(CHAIN, UNI) == Some(0) && E.VenueOf(CHAIN, PAN) == Some(1);
    assert E.Admissible(CHAIN, SAVED, REQUESTED[0]) && E.Admissible(CHAIN, SAVED, REQUESTED[1]);
    assert E.Venues(CHAIN, SAVED, REQUESTED) == [0, 1];
  }

  lemma TotalIsQuoted()
    ensures Print(E.Total(REQUESTED)) == REQUEST.amountIn
  {
    Texts();
    hide Print, Value, AllDigits;
    assert REQUESTED[..1] == [REQUESTED[0]] && [REQUESTED[0]][..0] == [];
    assert E.Total([REQUESTED[0]]) == 60;
    assert E.Total(REQUESTED) == 100;
  }

  lemma UniDoubles()
    ensures Along(FeeKind, Doubling, [1, 2], [500], 60) == Complete([DIRECT], 120)
  {
    assert [500][1..] == [] && [1, 2][1..] == [2];
    assert Along(FeeKind, Doubling, [2], [], 120) == Complete([], 120);
    assert [DIRECT] + [] == [DIRECT];
  }

  lemma PanDoublesTwice()
    ensures Along(FeeKind, Doubling, [1, 3, 2], [100, 100], 40) == Complete([FIRST, SECOND], 160)
  {
    assert [100, 100][1..] == [100] && [1, 3, 2][1..] == [3, 2] && [100][1..] == [] && [3, 2][1..] == [2];
    assert Along(FeeKind, Doubling, [2], [], 160) == Complete([], 160);
    assert [SECOND] + [] == [SECOND];
    assert Along(FeeKind, Doubling, [3, 2], [100], 80) == Complete([SECOND], 160);
    assert [FIRST] + [SECOND] == [FIRST, SECOND];
  }

  lemma PlanIsQuotable()
    ensures E.Quotable(CHAIN, SAVED, REQUESTED)
    ensures E.TotalOutput(E.FreshPlan(CHAIN, SAVED, REQUESTED)) == 280
  {
    Texts();
    Found();
    PlanIsAdmissible();
    TotalIsQuoted();
    UniDoubles();
    PanDoublesTwice();
    QuotedTexts();
    hide E.Plannable, E.Total, E.SelectedRoute, Print, Value, AllDigits, Along;
    var selected := E.Selected(SAVED, REQUESTED);
    assert selected == [QuotedAllocation("60", Some(UNI)), QuotedAllocation("40", Some(PAN))];
    assert Tokens(UNI.legs) == [1, 2] && Fees(UNI.legs) == [500];
    assert Tokens(PAN.legs) == [1, 3, 2] && Fees(PAN.legs) == [100, 100];
    var plan := E.FreshPlan(CHAIN, SAVED, REQUESTED);
    assert |plan| == 2;
    assert E.OutputOf(plan[0]) == 120 && E.OutputOf(plan[1]) == 160;
    assert plan[..1] == [plan[0]] && [plan[0]][..0] == [];
    assert E.TotalOutput([plan[0]]) == 120;
  }

  lemma QuotedTexts()
    ensures Value(Print(120)) == 120 && AllDigits(Print(120)) && Value(Print(160)) == 160 && AllDigits(Print(160))
  {
    PrintRoundTrip(120);
    PrintRoundTrip(160);
  }

  lemma TermsLast(terms: Terms)
    requires terms.expiresAt == UnixSeconds(RETENTION) && terms.deadline == Print(Deadline(1000))
    ensures Unexpired(terms, 1)
  {
    PrintRoundTrip(30);
    PrintRoundTrip(1120);
    hide Print, Value;
  }

  method ATwoVenuePlanIsAccepted() returns (r: Response)
    ensures |r.terms.allocations| == 2 && r.terms.minimum == Print(277)
    ensures ValidatePreparation(r, 5, "8453", 100, TRUSTED, 1).Ok?
  {
    hide Print, Value, StoredRoutesSearched, SameExecutor, AdmittedRequest, BlockReported, E.Quotable, E.FreshPlan,
         E.TotalOutput, ValidatePreparation, Unexpired, UnixSeconds, Deadline;
    RoutesAreSearched();
    PlanIsQuotable();
    assert SlippageMinimum(280, 100) == 277;
    var ready := PrepareExecutorPlan(CHAIN, TRUST, TRUSTED, SAVED, REQUESTED, "id", 5, 100, 0, 1000, BLOCK, "277");
    r := ready.value;
    TermsLast(r.terms);
  }
}
