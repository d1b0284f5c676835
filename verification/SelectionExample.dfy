// A run from the empty store in which a strategy changes the route it handed over after the response was
// copied: the first call answers with the one, its recheck with the other.
module SelectionExample {
  import opened Messages
  import opened Numerals
  import opened Retention
  import opened PreparationProtocol
  import opened PreparationRecord
  import opened PreparationTheorems
  import opened LoneCalls
  import opened Authorizations
  import opened AuthorizationExamples

  // What the strategy leaves in place of the route it selected.
  const OTHER: Route := Route("r", "permit2-router", "d", [], "150", None)
  const SWAP: Plan := PLAN.(permission := None)

  function First(): Call {
    Call(1, PrepareRequest("q", "r", Some(5), 100, "", []), 0,
         BuildInput(true, QUOTE, Some(Selection(Some(ROUTE), [], 200)), "A", Some(SWAP)), Readings(false), false, "200",
         None, Handover(Some(OTHER), []))
  }

  function Again(): Call {
    Call(2, PrepareRequest("", "", None, 0, "A", []), 0, BuildInput(true, QUOTE, None, "A", None), Readings(false), false,
         "200", None, Handover(None, []))
  }

  function FirstRun(): seq<Step> { SAVED + Steps(First()) }

  function TwiceRun(): seq<Step> { FirstRun() + Steps(Again()) }

  lemma FirstIsCall()
    ensures FirstCall(CHAINS, Run(CHAINS, SAVED), First())
  {
    hide Run;
    QuoteIsSaved();
    LiveSize(Run(CHAINS, SAVED).store.preparations, 0);
    assert FindRoute(FINAL.routes, "r") == Some(ROUTE);
  }

  lemma FirstIsReady()
    ensures FirstCall(CHAINS, Run(CHAINS, SAVED), First())
    ensures
      var pc := At(Run(CHAINS, FirstRun()), 1);
      pc.Answered? && pc.answer.status == Ready && pc.answer.terms.route == Some(ROUTE)
  {
    hide Run, Steps, Apply, AllowanceKey, PermissionKey, Evictable, FindRoute;
    FirstIsCall();
    QuoteIsSaved();
    AdvanceIsRun(CHAINS, SAVED, Steps(First()));
    LoneFirstCall(CHAINS, Run(CHAINS, SAVED), First());
  }

  lemma AfterFirst()
    ensures 2 !in Run(CHAINS, FirstRun()).requests && |Run(CHAINS, FirstRun()).store.preparations| < STORE_LIMIT
  {
    hide Run, FirstCall, Apply;
    QuoteIsSaved();
    AdvanceIsRun(CHAINS, SAVED, Steps(First()));
    CallsSteps(First());
    LoneLeaves(CHAINS, Run(CHAINS, SAVED), Steps(First()), 1, "A", "q", 2);
  }

  lemma AgainIsRecheck()
    ensures Recheck(CHAINS, Run(CHAINS, FirstRun()), Again())
    ensures
      var w := RecheckWork(CHAINS, Run(CHAINS, FirstRun()), Again());
      !w.p.approval && w.p.plan.permission.None? && w.response.terms.route == Some(OTHER) && w.Id() == "A"
  {
    hide Run, Steps, FirstCall, Apply, Print;
    var s0, s := Run(CHAINS, SAVED), Run(CHAINS, FirstRun());
    QuoteIsSaved();
    FirstIsReady();
    AdvanceIsRun(CHAINS, SAVED, Steps(First()));
    LoneFirstCallIsSaved(CHAINS, s0, First());
    AfterFirst();
    var w := FirstWork(CHAINS, s0, First());
    assert w.Id() == "A" && w.expires == RETENTION && w.p.chain == "base";
    assert w.p.response.terms.deadline == Print(Deadline(1000));
    PrintRoundTrip(Deadline(1000));
    LiveSize(s.store.preparations, 0);
  }

  lemma AgainIsReady()
    ensures
      var pc := At(Run(CHAINS, TwiceRun()), 2);
      && pc.Answered? && pc.answer.status == Ready && pc.answer.terms.route == Some(OTHER)
      && pc.answer.terms.preparationId == "A"
  {
    hide Run, Steps, Recheck, FirstRun, Apply;
    AgainIsRecheck();
    AdvanceIsRun(CHAINS, FirstRun(), Steps(Again()));
    LoneRecheck(CHAINS, Run(CHAINS, FirstRun()), Again());
  }

  // Two ready answers of one preparation with different routes: a save of the run has stored a selection
  // other than the copied one.
  lemma TwoRoutes() returns (a: Issued, b: Issued)
    ensures a in Run(CHAINS, TwiceRun()).answers && b in Run(CHAINS, TwiceRun()).answers
    ensures IdOf(a) == IdOf(b) == "A" && a.response.status == b.response.status == Ready
    ensures a.response.terms.route == Some(ROUTE) && b.response.terms.route == Some(OTHER)
    ensures Overwritten(CHAINS, TwiceRun(), "A")
  {
    hide Run, Steps, Apply, Overwritten, FirstCall;
    FirstIsReady();
    AgainIsReady();
    a := LoneAnswer(CHAINS, SAVED, First());
    AnswersStay(CHAINS, FirstRun(), Steps(Again()), a);
    b := RecordOf(CHAINS, TwiceRun(), 2);
    ImmutableTerms(CHAINS, TwiceRun(), a, b);
    AnsweredTerms(CHAINS, TwiceRun(), a);
    KeptExactly(CHAINS, TwiceRun(), "A");
  }
}
