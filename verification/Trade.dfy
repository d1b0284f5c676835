// A trade run: up to three rounds of quote, selection and one guarded execution, against any engine,
// wallet and user.
module Trade {
  import opened Messages
  import opened Policy
  import opened Execution

  // Everything a run does that the outside can see, in order.
  datatype Step =
    | ShowQuote(quoteId: string)
    | ShowSelection(quoteId: string, routeId: string, afterApproval: bool)
    | Doing(deed: Deed)

  // How one round went.
  datatype Round =
    | NoQuote
    | NoRoute(quote: QuoteFinal)
    | Ran(quote: QuoteFinal, routeId: string, course: Course)

  // What one round is told: the quote, whether its execution can be set up for the signer, and everything that
  // execution is told.
  datatype RoundTold = RoundTold(quote: Option<QuoteFinal>, connected: bool, told: Told)

  // What a trade is about.
  datatype Wanted = Wanted(
    routeId: Option<string>, signer: Address, chainId: string, slippageBps: nat, trusted: Trusted, amountIn: string,
    tokenIn: Address, tokenOut: Address)

  function PolicyOf(round: nat): ApprovalPolicy {
    if round == 0 then AnyApproval else if round == 1 then PermissionOnly else NoApprovals
  }

  const TRADE_MODE: Mode := Mode(false, true, AnyApproval)

  function Did(w: seq<Deed>): (r: seq<Step>)
    ensures |r| == |w| && forall i :: 0 <= i < |r| ==> r[i] == Doing(w[i])
  {
    seq(|w|, i requires 0 <= i < |w| => Doing(w[i]))
  }

  function RoundWord(k: nat, round: Round): seq<Step> {
    match round
    case NoQuote => []
    case NoRoute(quote) => [ShowQuote(quote.quoteId)]
    case Ran(quote, routeId, course) =>
      [ShowQuote(quote.quoteId), ShowSelection(quote.quoteId, routeId, k > 0)] + Did(Word(TRADE_MODE, course))
  }

  function RunWord(rounds: seq<Round>): seq<Step> {
    if rounds == [] then []
    else RunWord(rounds[..|rounds| - 1]) + RoundWord(|rounds| - 1, rounds[|rounds| - 1])
  }

  // A round that leads to another: an approval whose receipt succeeded.
  predicate Continues(round: Round) {
    round.Ran? && round.course.Settled? && round.course.kind.Approval? && round.course.evidence == ReceiptSuccess
  }

  // A run of rounds: each but the last a confirmed approval, and none after one but in the third round.
  ghost predicate RoundsOk(rounds: seq<Round>) {
    && 1 <= |rounds| <= 3
    && (forall i :: 0 <= i < |rounds| - 1 ==> Continues(rounds[i]))
    && (|rounds| < 3 ==> !Continues(rounds[|rounds| - 1]))
    && (forall i :: 0 <= i < |rounds| && rounds[i].Ran? ==> Honoured(PolicyOf(i), rounds[i].course))
    && (forall i :: 0 <= i < |rounds| && rounds[i].Ran? ==> rounds[i].course != ShownOnly(true))
  }

  // The quote names nothing, or it is the one of the round before.
  predicate StaleQuote(quote: QuoteFinal, previous: Option<Round>) {
    quote.quoteId == "" || (previous.Some? && previous.value.Ran? && previous.value.quote.quoteId == quote.quoteId)
  }

  // The identifier a round looks for: the named one, or the quote's best.
  function WantedId(quote: QuoteFinal, routeId: Option<string>): Option<string> {
    if routeId.Some? then routeId else quote.bestRouteId
  }

  // The first route of a list under an identifier.
  ghost predicate FirstUnder(routes: seq<Route>, id: string, route: Route) {
    exists k :: 0 <= k < |routes| && routes[k] == route && route.routeId == id
                && forall j :: 0 <= j < k ==> routes[j].routeId != id
  }

  // A round by what it is told: which quote and route it is about, and how far its execution gets.
  ghost predicate RoundGoes(round: Round, previous: Option<Round>, k: nat, io: RoundTold, w: Wanted, meddling: Meddling) {
    match round
    case NoQuote => io.quote.None?
    case NoRoute(quote) =>
      && io.quote == Some(quote)
      && (StaleQuote(quote, previous) || forall r :: r in quote.routes ==> WantedId(quote, w.routeId) != Some(r.routeId))
    case Ran(quote, routeId, course) =>
      && io.quote == Some(quote) && !StaleQuote(quote, previous) && WantedId(quote, w.routeId) == Some(routeId)
      && exists route :: FirstUnder(quote.routes, routeId, route) && CourseGoes(course, route, k, io, w, meddling)
  }

  // A trade's execution is refused exactly without a connection, the right network, a preparation of the selected
  // route and the traded amount and pair, or a validation of it.
  ghost predicate CourseGoes(course: Course, route: Route, k: nat, io: RoundTold, w: Wanted, meddling: Meddling) {
    var first := io.told.first;
    var verdict := if first.None? then Err("")
                   else ValidatePreparation(first.value, w.signer, w.chainId, w.slippageBps, w.trusted, io.told.validatedAt);
    && (course.Refused? <==>
          || !io.connected || io.told.network != Some(true) || first.None? || !OfTheTrade(first.value, route, w)
          || verdict.Err?)
    && (!course.Refused? ==>
          Followed(course, Mode(false, true, PolicyOf(k)), io.told, first.value, verdict.value, meddling))
  }

  predicate OfTheTrade(r: Response, route: Route, w: Wanted) {
    && r.terms.route == Some(route) && r.terms.allocations == []
    && r.terms.amountIn == w.amountIn && r.terms.tokenIn == w.tokenIn && r.terms.tokenOut == w.tokenOut
  }

  ghost predicate AllGo(rounds: seq<Round>, io: nat -> RoundTold, w: Wanted, meddling: Meddling) {
    forall k :: 0 <= k < |rounds| ==> RoundGoes(rounds[k], Before(rounds, k), k, io(k), w, meddling)
  }

  function Before(rounds: seq<Round>, k: nat): Option<Round>
    requires k <= |rounds|
  {
    if k == 0 then None else Some(rounds[k - 1])
  }

  // What the run returns: the result of its last execution, unless that asks for another round.
  function RunOutcome(rounds: seq<Round>): Outcome
    requires rounds != []
  {
    var last := rounds[|rounds| - 1];
    if !last.Ran? || Continues(last) then Thrown else OutcomeOf(last.course)
  }

  // A run so far, every round of which asked for another.
  ghost predicate Going(rounds: seq<Round>, io: nat -> RoundTold, w: Wanted, meddling: Meddling) {
    && |rounds| <= 3 && (forall i :: 0 <= i < |rounds| ==> Continues(rounds[i]))
    && (forall i :: 0 <= i < |rounds| && rounds[i].Ran? ==>
          Honoured(PolicyOf(i), rounds[i].course) && rounds[i].course != ShownOnly(true))
    && AllGo(rounds, io, w, meddling)
  }

  // A good round, whose place in the run its number says.
  ghost predicate GoodRound(round: Round, previous: Option<Round>, k: nat, io: RoundTold, w: Wanted, meddling: Meddling) {
    && RoundGoes(round, previous, k, io, w, meddling)
    && (round.Ran? ==> Honoured(PolicyOf(k), round.course) && round.course != ShownOnly(true))
  }

  lemma NextRound(rounds: seq<Round>, round: Round, io: nat -> RoundTold, w: Wanted, meddling: Meddling)
    requires Going(rounds, io, w, meddling) && |rounds| <= 2
    requires GoodRound(round, Before(rounds, |rounds|), |rounds|, io(|rounds|), w, meddling)
    ensures AllGo(rounds + [round], io, w, meddling)
    ensures RunWord(rounds + [round]) == RunWord(rounds) + RoundWord(|rounds|, round)
    ensures Continues(round) ==> Going(rounds + [round], io, w, meddling)
    ensures !Continues(round) || |rounds| == 2 ==> RoundsOk(rounds + [round])
    ensures RunOutcome(rounds + [round]) == if !round.Ran? || Continues(round) then Thrown else OutcomeOf(round.course)
  {
    hide Honoured, PolicyOf, OutcomeOf, RoundWord, Continues, RoundGoes, AllGo, Going, RoundsOk;
    var all := rounds + [round];
    assert all[..|rounds|] == rounds && all[|all| - 1] == round;
    NextGoes(rounds, round, io, w, meddling);
    NextIsOk(rounds, round, io, w, meddling);
  }

  lemma NextGoes(rounds: seq<Round>, round: Round, io: nat -> RoundTold, w: Wanted, meddling: Meddling)
    requires Going(rounds, io, w, meddling)
    requires GoodRound(round, Before(rounds, |rounds|), |rounds|, io(|rounds|), w, meddling)
    ensures AllGo(rounds + [round], io, w, meddling)
  {
    hide Honoured, PolicyOf, Continues, RoundGoes;
    var all := rounds + [round];
    forall k | 0 <= k < |all| ensures RoundGoes(all[k], Before(all, k), k, io(k), w, meddling) {
      assert Before(all, k) == Before(rounds, k);
      if k < |rounds| { assert all[k] == rounds[k]; }
    }
  }

  lemma NextIsOk(rounds: seq<Round>, round: Round, io: nat -> RoundTold, w: Wanted, meddling: Meddling)
    requires Going(rounds, io, w, meddling) && |rounds| <= 2 && AllGo(rounds + [round], io, w, meddling)
    requires GoodRound(round, Before(rounds, |rounds|), |rounds|, io(|rounds|), w, meddling)
    ensures Continues(round) ==> Going(rounds + [round], io, w, meddling)
    ensures !Continues(round) || |rounds| == 2 ==> RoundsOk(rounds + [round])
  {
    hide Honoured, PolicyOf, Continues, RoundGoes, AllGo;
    var all := rounds + [round];
    assert forall i :: 0 <= i < |rounds| ==> all[i] == rounds[i];
  }

  // The quote must be fresh against the one before it, and name the selected route.
  method Select(quote: QuoteFinal, previous: Option<Round>, routeId: Option<string>) returns (route: Option<Route>)
    ensures route.None? <==>
            StaleQuote(quote, previous) || forall r :: r in quote.routes ==> WantedId(quote, routeId) != Some(r.routeId)
    ensures route.Some? ==>
              WantedId(quote, routeId) == Some(route.value.routeId)
              && FirstUnder(quote.routes, route.value.routeId, route.value)
  {
    if StaleQuote(quote, previous) { return None; }
    var selected := if routeId.Some? then routeId else quote.bestRouteId;
    var i := 0;
    while i < |quote.routes|
      invariant i <= |quote.routes| && forall j :: 0 <= j < i ==> Some(quote.routes[j].routeId) != selected
    {
      if Some(quote.routes[i].routeId) == selected { return Some(quote.routes[i]); }
      i := i + 1;
    }
    return None;
  }

  // Whatever quotes, engine, wallet, user and chain say.
  method RunTrade(w: Wanted, io: nat -> RoundTold, meddling: Meddling)
    returns (outcome: Outcome, log: seq<Step>, rounds: seq<Round>)
    ensures RoundsOk(rounds) && log == RunWord(rounds) && outcome == RunOutcome(rounds)
    ensures AllGo(rounds, io, w, meddling)
  {
    hide Honoured, Word, OutcomeOf, Did, RoundsOk, RunWord, RunOutcome, RoundGoes, CourseGoes, Going, AllGo, PolicyOf,
         FirstUnder, StaleQuote, WantedId;
    log, rounds := [], [];
    NothingYet(io, w, meddling);
    var k := 0;
    while k < 3
      invariant k <= 3 && |rounds| == k
      invariant Going(rounds, io, w, meddling) && log == RunWord(rounds)
      invariant k < 3
    {
      var previous := Before(rounds, k);
      if io(k).quote.None? {
        StopsThere(NoQuote, previous, k, io(k), w, meddling);
        NextRound(rounds, NoQuote, io, w, meddling);
        return Thrown, log, rounds + [NoQuote];
      }
      var quote := io(k).quote.value;
      log := log + [ShowQuote(quote.quoteId)];
      var route := Select(quote, previous, w.routeId);
      if route.None? {
        StopsThere(NoRoute(quote), previous, k, io(k), w, meddling);
        NextRound(rounds, NoRoute(quote), io, w, meddling);
        return Thrown, log, rounds + [NoRoute(quote)];
      }
      log := log + [ShowSelection(quote.quoteId, route.value.routeId, k > 0)];
      var result, deeds: seq<Deed>;
      var course: Course;
      result, deeds, course := ExecuteRound(k, route.value, io(k), w, meddling);
      var round := Ran(quote, route.value.routeId, course);
      RanWell(round, route.value, previous, k, io(k), w, meddling);
      NextRound(rounds, round, io, w, meddling);
      log := log + Did(deeds);
      rounds := rounds + [round];
      if !(result.Returned? && result.result.ApprovalConfirmed?) {
        NotConfirmedEnds(PolicyOf(k), course);
        return result, log, rounds;
      }
      ConfirmedContinues(PolicyOf(k), course);
      if k == 2 { return Thrown, log, rounds; }
      k := k + 1;
    }
    assert false;
  }

  lemma NothingYet(io: nat -> RoundTold, w: Wanted, meddling: Meddling)
    ensures Going([], io, w, meddling) && RunWord([]) == []
  {}

  lemma StopsThere(round: Round, previous: Option<Round>, k: nat, io: RoundTold, w: Wanted, meddling: Meddling)
    requires
      || (round == NoQuote && io.quote.None?)
      || (round.NoRoute? && io.quote == Some(round.quote)
          && (StaleQuote(round.quote, previous)
              || forall r :: r in round.quote.routes ==> WantedId(round.quote, w.routeId) != Some(r.routeId)))
    ensures GoodRound(round, previous, k, io, w, meddling) && !Continues(round)
  {}

  lemma RanWell(
      round: Round, route: Route, previous: Option<Round>, k: nat, io: RoundTold, w: Wanted, meddling: Meddling)
    requires round.Ran? && io.quote == Some(round.quote) && !StaleQuote(round.quote, previous)
    requires round.routeId == route.routeId && WantedId(round.quote, w.routeId) == Some(route.routeId)
    requires FirstUnder(round.quote.routes, route.routeId, route)
    requires CourseGoes(round.course, route, k, io, w, meddling)
    requires Honoured(PolicyOf(k), round.course) && round.course != ShownOnly(true)
    ensures GoodRound(round, previous, k, io, w, meddling)
  {
    hide FirstUnder, CourseGoes, Honoured, StaleQuote;
  }

  // One round's execution command, for the selected route and under the round's approval policy.
  method ExecuteRound(k: nat, route: Route, io: RoundTold, w: Wanted, meddling: Meddling)
    returns (outcome: Outcome, deeds: seq<Deed>, course: Course)
    ensures deeds == Word(TRADE_MODE, course) && outcome == OutcomeOf(course) && Honoured(PolicyOf(k), course)
    ensures course != ShownOnly(true) && CourseGoes(course, route, k, io, w, meddling)
  {
    hide Honoured, OutcomeOf, ValidatePreparation, Asked;
    if !io.connected {
      RefusedFacts(PolicyOf(k));
      return Thrown, [], Refused;
    }
    var command := new PrepareCommand(
      false, route.routeId, [], Some(TradeTerms(route, w.amountIn, w.tokenIn, w.tokenOut)), None);
    VettedIsOfTheTrade(command, io, route, w);
    outcome, deeds, course :=
      ExecutePrepared(
        command, Mode(false, true, PolicyOf(k)), w.signer, w.chainId, w.slippageBps, w.trusted, io.told, meddling);
    SameWord(Mode(false, true, PolicyOf(k)), course);
  }

  // A response that is not executable is not validated either, whatever it is about.
  lemma VettedIsOfTheTrade(command: PrepareCommand, io: RoundTold, route: Route, w: Wanted)
    requires !command.byId && command.routeId == route.routeId && command.allocations == []
    requires command.trade == Some(TradeTerms(route, w.amountIn, w.tokenIn, w.tokenOut))
    ensures forall r :: command.Vetted(r) <==> OfTheTrade(r, route, w)
    ensures forall r: Response, now: nat :: !Executable(r.status) ==>
              ValidatePreparation(r, w.signer, w.chainId, w.slippageBps, w.trusted, now).Err?
  {
    hide TransactionOk, TermsOk, LocalTerms, MinimumOk, PermissionOk, ApprovalOk;
  }

  lemma RefusedFacts(policy: ApprovalPolicy)
    ensures Honoured(policy, Refused) && OutcomeOf(Refused) == Thrown && Word(TRADE_MODE, Refused) == []
  {}

  lemma SameWord(mode: Mode, c: Course)
    requires !mode.preview && mode.reportPreparation
    ensures Word(mode, c) == Word(TRADE_MODE, c)
  {}

  lemma ConfirmedContinues(policy: ApprovalPolicy, c: Course)
    requires Honoured(policy, c) && OutcomeOf(c).Returned? && OutcomeOf(c).result.ApprovalConfirmed?
    ensures c.Settled? && c.kind.Approval? && c.evidence == ReceiptSuccess && SentCourse(c)
  {}

  lemma NotConfirmedEnds(policy: ApprovalPolicy, c: Course)
    requires !(OutcomeOf(c).Returned? && OutcomeOf(c).result.ApprovalConfirmed?)
    ensures !(c.Settled? && c.kind.Approval? && c.evidence == ReceiptSuccess)
  {}
}
