// A trade over the answers of the search: where the user names no route, the best one is taken.
module TradeSelection {
  import opened Messages
  import opened Numerals
  import opened Execution
  import opened Trade
  import opened TradeTheorems
  import opened Ranking

  // Where the user names no route, a round takes the best one of its quote: none of the quote's routes has a larger
  // output.
  lemma EngineSelectsTheBest(rounds: seq<Round>, io: nat -> RoundTold, w: Wanted, meddling: Meddling, k: nat)
    returns (best: Route)
    requires AllGo(rounds, io, w, meddling) && k < |rounds| && rounds[k].Ran? && w.routeId.None?
    requires IsBest(rounds[k].quote.routes, rounds[k].quote.bestRouteId) && RoutesApart(rounds[k].quote.routes)
    ensures best in rounds[k].quote.routes && rounds[k].routeId == best.routeId
    ensures SentCourse(rounds[k].course) ==> io(k).told.first.Some? && io(k).told.first.value.terms.route == Some(best)
    ensures forall r :: r in rounds[k].quote.routes && IsDecimal(r.amountOut) && IsDecimal(best.amountOut) ==>
              Value(r.amountOut) <= Value(best.amountOut)
  {
    hide CourseGoes, StaleQuote, OfTheTrade, Value, AllDigits, IsBest;
    assert RoundGoes(rounds[k], Before(rounds, k), k, io(k), w, meddling);
    var round, routes := rounds[k], rounds[k].quote.routes;
    var route :| FirstUnder(routes, round.routeId, route) && CourseGoes(round.course, route, k, io(k), w, meddling);
    if SentCourse(round.course) { SentRoute(round.course, route, k, io(k), w, meddling); }
    var b := BestIsFirstOfTheLargest(routes, rounds[k].quote.bestRouteId);
    best := routes[b];
    forall r | r in routes && IsDecimal(r.amountOut) && IsDecimal(best.amountOut)
      ensures Value(r.amountOut) <= Value(best.amountOut) {
      var i :| 0 <= i < |routes| && routes[i] == r;
    }
  }

  lemma SentRoute(course: Course, route: Route, k: nat, io: RoundTold, w: Wanted, meddling: Meddling)
    requires CourseGoes(course, route, k, io, w, meddling) && SentCourse(course)
    ensures io.told.first.Some? && io.told.first.value.terms.route == Some(route)
  {
    SentIsOfTheTrade(course, route, k, io, w, meddling);
  }
}
