// Runs from the empty store in which one quote authorises two transactions: two first calls that each
// ask for an approval, and a permission-first preparation whose recheck finds the allowance gone.
module AuthorizationExamples {
  import opened Messages
  import opened Numerals
  import opened Retention
  import opened PreparationProtocol
  import opened PreparationSafety
  import opened PreparationRecord
  import opened PreparationTheorems
  import opened LoneCalls
  import opened Authorizations

  const CHAINS: Chains := map["base" := "8453"]
  const ROUTE: Route := Route("r", "permit2-router", "d", [], "200", None)
  const QUOTE: QuoteRequest := QuoteRequest("base", 1, 2, "100")
  const FINAL: QuoteFinal := QuoteFinal("q", Block("1", "0x1"), [ROUTE], [], Some("r"), true)
  const SAVED: seq<Step> := [SaveQuote(QUOTE, FINAL, 0, 0, None)]
  const PLAN: Plan :=
    Plan(Transaction("8453", 5, 7, OtherBytes([]), "0", "300000"), 8, Some(PermissionPlan(3, 1, 8, 100, 2000)),
         SimulationChecks(BalanceProbe(1, 5), BalanceProbe(2, 5), [], []))

  function Readings(short: bool): Reading {
    Reading(Some(Snapshot("8453", Block("2", "0x2"), 1000)), true, Some(short))
  }

  // A first call of the quote whose build is given this preparation ID.
  function First(rid: nat, id: string, short: bool): Call {
    Call(rid, PrepareRequest("q", "r", Some(5), 100, "", []), 0,
         BuildInput(true, QUOTE, Some(Selection(Some(ROUTE), [], 200)), id, Some(PLAN)), Readings(short), true, "200",
         None, Handover(Some(ROUTE), []))
  }

  function Again(rid: nat, id: string, short: bool): Call {
    Call(rid, PrepareRequest("", "", None, 0, id, []), 0, BuildInput(true, QUOTE, None, id, None), Readings(short), true,
         "200", None, Handover(None, []))
  }

  lemma QuoteIsSaved()
    ensures
      var s := Run(CHAINS, SAVED);
      && s.store == StoreState(map["q" := Entry(QuoteRecord(QUOTE, FINAL, {}), RETENTION)], map[])
      && s.requests == map[] && s.history.frozen == map[]
  {
    assert SAVED[..0] == [];
    assert Run(CHAINS, SAVED) == Apply(CHAINS, EMPTY, SAVED[0]);
    assert Live<QuoteRecord>(map[], 0) == map[] && Live<Preparation>(map[], 0) == map[];
  }

  lemma FirstIsCalled(steps: seq<Step>, c: Call)
    requires exists rid, id, short :: c == First(rid, id, short)
    requires
      var s := Run(CHAINS, steps);
      && c.rid !in s.requests && c.input.preparationId != "" && c.input.preparationId !in s.history.frozen
      && "q" in s.store.quotes && s.store.quotes["q"].expires == RETENTION
      && s.store.quotes["q"].value.request == QUOTE && s.store.quotes["q"].value.final == FINAL
      && |s.store.preparations| < STORE_LIMIT
    ensures FirstCall(CHAINS, Run(CHAINS, steps), c)
  {
    hide Run;
    BoundedStore(CHAINS, steps);
    LiveSize(Run(CHAINS, steps).store.preparations, 0);
    assert FindRoute(FINAL.routes, "r") == Some(ROUTE);
  }

  lemma CallsSteps(c: Call)
    requires c.now < RETENTION
    ensures OneCallsSteps(Steps(c), c.rid, c.input.preparationId, RETENTION)
  {}

  // ---------- two first calls ----------

  function FirstRun(short: bool): seq<Step> { SAVED + Steps(First(1, "A", short)) }

  lemma AfterFirst(short: bool)
    ensures FirstCall(CHAINS, Run(CHAINS, SAVED), First(1, "A", short))
    ensures Run(CHAINS, FirstRun(short)) == Advance(CHAINS, Run(CHAINS, SAVED), Steps(First(1, "A", short)))
    ensures
      var s := Run(CHAINS, FirstRun(short));
      && 2 !in s.requests && "B" !in s.history.frozen
      && "q" in s.store.quotes && s.store.quotes["q"].expires == RETENTION
      && s.store.quotes["q"].value.request == QUOTE && s.store.quotes["q"].value.final == FINAL
      && |s.store.preparations| < STORE_LIMIT
  {
    hide Run, FirstCall, Apply;
    QuoteIsSaved();
    FirstIsCalled(SAVED, First(1, "A", short));
    AdvanceIsRun(CHAINS, SAVED, Steps(First(1, "A", short)));
    CallsSteps(First(1, "A", short));
    LoneLeaves(CHAINS, Run(CHAINS, SAVED), Steps(First(1, "A", short)), 1, "A", "q", 2);
  }

  lemma ShortIsAnswered(steps: seq<Step>, c: Call)
    requires FirstCall(CHAINS, Run(CHAINS, steps), c) && c.reading.allowanceShort == Some(true)
    ensures At(Run(CHAINS, steps + Steps(c)), c.rid).Answered?
  {
    hide Run, Steps, Apply, AllowanceKey, PermissionKey, Erc20Answer, Evictable, FindRoute;
    AdvanceIsRun(CHAINS, steps, Steps(c));
    LoneFirstCall(CHAINS, Run(CHAINS, steps), c);
  }

  // Two first calls find the allowance short; each is answered with an approval of its own preparation.
  lemma TwoApprovals()
    ensures !OneTransaction(Run(CHAINS, FirstRun(true) + Steps(First(2, "B", true))), "q")
  {
    hide Run, Steps, FirstCall, OneTransaction;
    AfterFirst(true);
    FirstIsCalled(FirstRun(true), First(2, "B", true));
    ShortIsAnswered(SAVED, First(1, "A", true));
    ShortIsAnswered(FirstRun(true), First(2, "B", true));
    TwoFirstCalls(CHAINS, SAVED, First(1, "A", true), First(2, "B", true));
  }

  // ---------- a permission, then an approval ----------

  lemma GrantIsAsked()
    ensures FirstCall(CHAINS, Run(CHAINS, SAVED), First(1, "A", false))
    ensures
      var pc := At(Run(CHAINS, FirstRun(false)), 1);
      pc.Answered? && pc.answer.permission.Some? && pc.answer.terms.preparationId == "A"
  {
    hide Run, Steps, Apply, AllowanceKey, PermissionKey, Evictable, FindRoute;
    QuoteIsSaved();
    AfterFirst(false);
    LoneFirstCall(CHAINS, Run(CHAINS, SAVED), First(1, "A", false));
    assert FirstWork(CHAINS, Run(CHAINS, SAVED), First(1, "A", false)).p.plan == PLAN;
  }

  lemma RecheckIsCalled()
    ensures Recheck(CHAINS, Run(CHAINS, FirstRun(false)), Again(2, "A", true))
  {
    hide Run, Steps, FirstCall, Apply, Print;
    GrantIsAsked();
    AfterFirst(false);
    var s0, s := Run(CHAINS, SAVED), Run(CHAINS, FirstRun(false));
    QuoteIsSaved();
    LoneFirstCallIsSaved(CHAINS, s0, First(1, "A", false));
    var w := FirstWork(CHAINS, s0, First(1, "A", false));
    assert w.Id() == "A" && w.expires == RETENTION && w.p.chain == "base";
    assert w.p.response.terms.deadline == Print(Deadline(1000));
    PrintRoundTrip(Deadline(1000));
    LiveSize(s.store.preparations, 0);
  }

  function TwiceRun(): seq<Step> { FirstRun(false) + Steps(Again(2, "A", true)) }

  lemma BothAreAsked()
    ensures
      var pc := At(Run(CHAINS, TwiceRun()), 2);
      && pc.Answered? && pc.answer.approvalTransaction.Some? && pc.answer.permission.Some?
      && pc.answer.terms.preparationId == "A"
  {
    hide Run, Steps, FirstCall, Recheck, Apply, Inv;
    GrantIsAsked();
    RecheckIsCalled();
    var first := LoneAnswer(CHAINS, SAVED, First(1, "A", false));
    AnswerShapes(CHAINS, FirstRun(false), first);
    RunInv(CHAINS, FirstRun(false));
    TwoAuthorizations(CHAINS, Run(CHAINS, FirstRun(false)), Again(2, "A", true));
    AdvanceIsRun(CHAINS, FirstRun(false), Steps(Again(2, "A", true)));
  }

  lemma QuoteOfTheFirst()
    ensures var h := Run(CHAINS, TwiceRun()).history; "A" in h.frozen && h.frozen["A"].quoteId == "q"
  {
    hide Run, Steps, FirstCall, Recheck, Apply;
    GrantIsAsked();
    var first := LoneAnswer(CHAINS, SAVED, First(1, "A", false));
    AnswersStay(CHAINS, FirstRun(false), Steps(Again(2, "A", true)), first);
  }

  // The recheck finds the allowance short and asks for an approval beside the permission.
  lemma PermissionThenApproval()
    ensures exists a :: AsksForBoth(Run(CHAINS, TwiceRun()), a) && IdOf(a) == "A"
    ensures !OneTransaction(Run(CHAINS, TwiceRun()), "q")
  {
    hide Run, TwiceRun, OneTransaction, Authorizes;
    BothAreAsked();
    QuoteOfTheFirst();
    var both := RecordOf(CHAINS, TwiceRun(), 2);
    AnswerShapes(CHAINS, TwiceRun(), both);
    Erc20IsAuthorized(both.response);
    BothBreaks(CHAINS, TwiceRun(), both, "q");
  }

  lemma Erc20IsAuthorized(r: Response)
    requires r.approvalTransaction.Some?
    ensures Authorizes(r, Erc20Kind)
  {}
}
