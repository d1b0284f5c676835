// The engine's side of executor plans: admission and re-quoting of allocations, the balances and
// allowances a plan must leave alone, and the packed executor call.
module Executor {
  import opened Messages
  import opened Numerals
  import opened Sorting
  import opened Retention
  import opened PathQuotes
  import opened Paths

  datatype Deployment = Deployment(kind: string, router: Address)

  datatype ExecutorConfig = ExecutorConfig(address: Address, uniswapDeployment: string, pancakeDeployment: string)

  // requoters: deployments whose paths can be quoted again. broken: deployments with a startup error.
  datatype Chain = Chain(
    chainId: string, deployments: map<string, Deployment>, executor: Option<ExecutorConfig>,
    requoters: map<string, Provider>, broken: set<string>)

  // ---------- admission ----------

  // Exact deployment membership, not just protocol kind.
  function VenueOf(chain: Chain, route: Route): Option<nat> {
    if chain.executor.Some? && route.deploymentId in chain.deployments &&
       chain.deployments[route.deploymentId].kind == route.provider then
      if route.deploymentId == chain.executor.value.uniswapDeployment && route.provider == "uniswap-v3" then Some(0)
      else if route.deploymentId == chain.executor.value.pancakeDeployment && route.provider == "pancake-v3" then Some(1)
      else None
    else None
  }

  predicate AmountText(s: string) { IsPositiveInteger(s) && |s| <= 78 && Value(s) < UINT256_LIMIT }

  // Fee legs in a row from the quoted input token to the quoted output token.
  predicate Walks(legs: seq<Leg>, tokenIn: Address, tokenOut: Address) {
    FeeRoute(legs) && legs[0].tokenIn == tokenIn && legs[|legs| - 1].tokenOut == tokenOut
  }

  predicate Admissible(chain: Chain, saved: QuoteRecord, a: RouteAllocation) {
    && AmountText(a.amountIn)
    && FindRoute(saved.final.routes, a.routeId).Some?
    && var route := FindRoute(saved.final.routes, a.routeId).value;
       && route.deploymentId in chain.requoters && route.deploymentId !in chain.broken
       && VenueOf(chain, route).Some?
       && Walks(route.legs, saved.request.tokenIn, saved.request.tokenOut)
  }

  function SelectedRoute(saved: QuoteRecord, a: RouteAllocation): Option<Route> {
    FindRoute(saved.final.routes, a.routeId)
  }

  function VenueFor(chain: Chain, saved: QuoteRecord, a: RouteAllocation): nat {
    var route := SelectedRoute(saved, a);
    if route.Some? && VenueOf(chain, route.value).Some? then VenueOf(chain, route.value).value else 2
  }

  function Venues(chain: Chain, saved: QuoteRecord, requested: seq<RouteAllocation>): (vs: seq<nat>)
    ensures |vs| == |requested|
    ensures forall i :: 0 <= i < |vs| ==> vs[i] == VenueFor(chain, saved, requested[i])
  {
    seq(|requested|, i requires 0 <= i < |requested| => VenueFor(chain, saved, requested[i]))
  }

  function AmountOf(s: string): nat { if AllDigits(s) then Value(s) else 0 }

  function Total(requested: seq<RouteAllocation>): nat {
    if requested == [] then 0
    else Total(requested[..|requested| - 1]) + AmountOf(requested[|requested| - 1].amountIn)
  }

  ghost predicate AllAdmissible(chain: Chain, saved: QuoteRecord, requested: seq<RouteAllocation>) {
    forall i :: 0 <= i < |requested| ==> Admissible(chain, saved, requested[i])
  }

  ghost predicate Plannable(chain: Chain, saved: QuoteRecord, requested: seq<RouteAllocation>) {
    && chain.executor.Some? && 1 <= |requested| <= 2
    && AllAdmissible(chain, saved, requested) && Distinct(Venues(chain, saved, requested))
  }

  // The loop over one route's legs.
  method WalksFrom(legs: seq<Leg>, tokenIn: Address, tokenOut: Address) returns (ok: bool)
    requires 1 <= |legs| <= 2
    ensures ok == Walks(legs, tokenIn, tokenOut)
  {
    var input := tokenIn;
    var i := 0;
    while i < |legs|
      invariant i <= |legs|
      invariant forall j :: 0 <= j < i ==>
                  FeeLeg(legs[j]) && (j > 0 ==> legs[j - 1].tokenOut == legs[j].tokenIn)
      invariant i > 0 ==> legs[0].tokenIn == tokenIn
      invariant input == if i == 0 then tokenIn else legs[i - 1].tokenOut
    {
      var leg := legs[i];
      if !leg.selector.FeePips? || leg.selector.fee >= 1000000 || input != leg.tokenIn { return false; }
      input := leg.tokenOut;
      i := i + 1;
    }
    return input == tokenOut;
  }

  // One allocation against the stored quote and the venues already taken.
  method AdmitOne(chain: Chain, saved: QuoteRecord, a: RouteAllocation, seen: set<nat>)
    returns (r: Result<QuotedAllocation>)
    ensures r.Ok? <==> Admissible(chain, saved, a) && VenueFor(chain, saved, a) !in seen
    ensures r.Ok? ==> SelectedRoute(saved, a).Some? && r.value == QuotedAllocation(a.amountIn, SelectedRoute(saved, a))
    ensures r.Err? ==> r.reason == "amount" || r.reason == "route"
  {
    if |a.amountIn| > 78 || !IsPositiveInteger(a.amountIn) { return Err("amount"); }
    var amount := Value(a.amountIn);
    if amount >= UINT256_LIMIT { return Err("amount"); }
    CanonicalText(a.amountIn);
    hide Walks, Value, Print, IsPositiveInteger, FeeRoute, AllDigits;
    var found := FindRoute(saved.final.routes, a.routeId);
    if found.None? || found.value.deploymentId !in chain.requoters || found.value.deploymentId in chain.broken {
      return Err("route");
    }
    if |found.value.legs| < 1 || |found.value.legs| > 2 {
      WalksNeedsLegs(found.value.legs, saved.request.tokenIn, saved.request.tokenOut);
      return Err("route");
    }
    var venue := VenueOf(chain, found.value);
    if venue.None? || venue.value in seen { return Err("route"); }
    var walks := WalksFrom(found.value.legs, saved.request.tokenIn, saved.request.tokenOut);
    if !walks { return Err("route"); }
    return Ok(QuotedAllocation(Print(amount), found));
  }

  lemma WalksNeedsLegs(legs: seq<Leg>, tokenIn: Address, tokenOut: Address)
    ensures Walks(legs, tokenIn, tokenOut) ==> 1 <= |legs| <= 2
  {}

  // The requested allocations with the stored routes they select.
  function Selected(saved: QuoteRecord, requested: seq<RouteAllocation>): (r: seq<QuotedAllocation>)
    ensures |r| == |requested|
    ensures forall i :: 0 <= i < |r| ==> r[i] == QuotedAllocation(requested[i].amountIn, SelectedRoute(saved, requested[i]))
  {
    seq(|requested|, i requires 0 <= i < |requested| =>
      QuotedAllocation(requested[i].amountIn, SelectedRoute(saved, requested[i])))
  }

  // The whole plan is admitted before any quote is read: every allocation, and the exact total.
  method AdmitAllocations(chain: Chain, saved: QuoteRecord, requested: seq<RouteAllocation>)
    returns (r: Result<seq<QuotedAllocation>>)
    ensures r.Ok? <==> Plannable(chain, saved, requested) && Print(Total(requested)) == saved.request.amountIn
    ensures r.Err? ==> (r.reason == "total" <==> Plannable(chain, saved, requested))
    ensures r.Ok? ==> r.value == Selected(saved, requested)
  {
    hide Admissible, Value, Print, VenueFor, AllDigits, SelectedRoute;
    if chain.executor.None? || |requested| < 1 || |requested| > 2 { return Err("route"); }
    var total := 0;
    var seen: set<nat> := {};
    var result: seq<QuotedAllocation> := [];
    var i := 0;
    while i < |requested|
      invariant i <= |requested|
      invariant AllAdmissible(chain, saved, requested[..i]) && Distinct(Venues(chain, saved, requested[..i]))
      invariant forall v :: v in seen <==> v in Venues(chain, saved, requested[..i])
      invariant total == Total(requested[..i])
      invariant result == Selected(saved, requested[..i])
    {
      var a := requested[i];
      NextPlannable(chain, saved, requested, i);
      var one := AdmitOne(chain, saved, a, seen);
      if one.Err? { return Err(one.reason); }
      total := total + AmountOf(a.amountIn);
      assert Venues(chain, saved, requested[..i + 1]) ==
             Venues(chain, saved, requested[..i]) + [VenueFor(chain, saved, a)];
      assert requested[..i + 1][..i] == requested[..i] && requested[..i + 1][i] == a;
      seen := seen + {VenueFor(chain, saved, a)};
      result := result + [one.value];
      i := i + 1;
    }
    assert requested[..i] == requested;
    if Print(total) != saved.request.amountIn { return Err("total"); }
    return Ok(result);
  }

  // A plan is admissible only if each next allocation is, under a venue not yet taken.
  lemma NextPlannable(chain: Chain, saved: QuoteRecord, requested: seq<RouteAllocation>, i: nat)
    requires i < |requested|
    ensures Plannable(chain, saved, requested) ==>
              Admissible(chain, saved, requested[i]) &&
              VenueFor(chain, saved, requested[i]) !in Venues(chain, saved, requested[..i])
  {
    hide Admissible, VenueFor;
    if Plannable(chain, saved, requested) {
      var all, taken := Venues(chain, saved, requested), Venues(chain, saved, requested[..i]);
      forall j | 0 <= j < i ensures taken[j] != VenueFor(chain, saved, requested[i]) {
        assert taken[j] == all[j] && all[j] != all[i];
      }
    }
  }

  // The executor's two venues, each one deployment of one kind.
  predicate OverVenue(chain: Chain, route: Route, uniswap: bool) {
    && chain.executor.Some? && route.deploymentId in chain.deployments
    && chain.deployments[route.deploymentId].kind == route.provider
    && if uniswap then
         route.provider == "uniswap-v3" && route.deploymentId == chain.executor.value.uniswapDeployment
       else
         route.provider == "pancake-v3" && route.deploymentId == chain.executor.value.pancakeDeployment
  }

  // Two-legged routes meet in the middle, and every leg has a fee below one.
  predicate FeeWalk(legs: seq<Leg>, tokenIn: Address, tokenOut: Address) {
    && (|legs| == 1 || |legs| == 2)
    && (forall i :: 0 <= i < |legs| ==> legs[i].selector.FeePips? && legs[i].selector.fee < 1000000)
    && legs[0].tokenIn == tokenIn && legs[|legs| - 1].tokenOut == tokenOut
    && (|legs| == 2 ==> legs[0].tokenOut == legs[1].tokenIn)
  }

  // An amount without a leading zero, of at most 78 digits, that fits a word; and a stored route over one of the
  // venues, which can be quoted again and has no startup error, along the whole pair.
  predicate AdmittedOver(chain: Chain, saved: QuoteRecord, a: RouteAllocation, uniswap: bool) {
    && |a.amountIn| <= 78 && a.amountIn != "" && AllDigits(a.amountIn) && a.amountIn[0] != '0'
    && Value(a.amountIn) < UINT256_LIMIT
    && FindRoute(saved.final.routes, a.routeId).Some?
    && var route := FindRoute(saved.final.routes, a.routeId).value;
       && OverVenue(chain, route, uniswap) && route.deploymentId in chain.requoters && route.deploymentId !in chain.broken
       && FeeWalk(route.legs, saved.request.tokenIn, saved.request.tokenOut)
  }

  lemma AdmissibleExactly(chain: Chain, saved: QuoteRecord, a: RouteAllocation)
    ensures Admissible(chain, saved, a) <==> AdmittedOver(chain, saved, a, true) || AdmittedOver(chain, saved, a, false)
    ensures AdmittedOver(chain, saved, a, true) ==> VenueFor(chain, saved, a) == 0
    ensures AdmittedOver(chain, saved, a, false) ==> VenueFor(chain, saved, a) == 1
    ensures AdmittedOver(chain, saved, a, true) || AdmittedOver(chain, saved, a, false) ==> chain.executor.Some?
  {
    hide Value;
    if FindRoute(saved.final.routes, a.routeId).Some? {
      var legs := FindRoute(saved.final.routes, a.routeId).value.legs;
      assert Walks(legs, saved.request.tokenIn, saved.request.tokenOut)
        <==> FeeWalk(legs, saved.request.tokenIn, saved.request.tokenOut) by {
        if FeeWalk(legs, saved.request.tokenIn, saved.request.tokenOut) {
          assert forall i :: 0 <= i < |legs| ==> FeeLeg(legs[i]);
        }
        if Walks(legs, saved.request.tokenIn, saved.request.tokenOut) {
          assert forall i :: 0 <= i < |legs| ==> FeeLeg(legs[i]);
        }
      }
    }
  }

  // A request is a plan exactly if it is one allocation over either venue, or one over each.
  lemma PlannableExactly(chain: Chain, saved: QuoteRecord, requested: seq<RouteAllocation>)
    ensures Plannable(chain, saved, requested) <==>
              || (|requested| == 1
                  && (AdmittedOver(chain, saved, requested[0], true) || AdmittedOver(chain, saved, requested[0], false)))
              || (|requested| == 2
                  && ((AdmittedOver(chain, saved, requested[0], true) && AdmittedOver(chain, saved, requested[1], false))
                      || (AdmittedOver(chain, saved, requested[0], false) && AdmittedOver(chain, saved, requested[1], true))))
  {
    hide Admissible, VenueFor, AmountOf, AdmittedOver;
    var venues := Venues(chain, saved, requested);
    if |requested| == 1 {
      AdmissibleExactly(chain, saved, requested[0]);
      assert Distinct(venues);
    } else if |requested| == 2 {
      AdmissibleExactly(chain, saved, requested[0]);
      AdmissibleExactly(chain, saved, requested[1]);
      assert venues[0] == VenueFor(chain, saved, requested[0]) && venues[1] == VenueFor(chain, saved, requested[1]);
      assert Distinct(venues) <==> venues[0] != venues[1];
    }
  }

  // What the allocations of a plan add up to.
  lemma TotalOfAPlan(requested: seq<RouteAllocation>)
    ensures |requested| == 1 ==> Total(requested) == AmountOf(requested[0].amountIn)
    ensures |requested| == 2 ==> Total(requested) == AmountOf(requested[0].amountIn) + AmountOf(requested[1].amountIn)
  {
    if |requested| == 1 {
      assert requested[..0] == [];
    } else if |requested| == 2 {
      assert requested[..1] == [requested[0]] && [requested[0]][..0] == [];
    }
  }

  // ---------- quoting the admitted allocations ----------

  // An allocation's own path quoted again for its own amount.
  ghost predicate AllRequotable(chain: Chain, allocations: seq<QuotedAllocation>) {
    forall i :: 0 <= i < |allocations| ==>
      && allocations[i].route.Some? && allocations[i].route.value.legs != []
      && allocations[i].route.value.deploymentId in chain.requoters
      && Requotable(chain.requoters[allocations[i].route.value.deploymentId], allocations[i].route.value,
                    AmountOf(allocations[i].amountIn))
  }

  ghost function FreshlyQuoted(chain: Chain, a: QuotedAllocation, block: Block): QuotedAllocation {
    if a.route.None? || a.route.value.deploymentId !in chain.requoters || a.route.value.legs == [] then a
    else
      var route := a.route.value;
      var again := Along(FeeKind, chain.requoters[route.deploymentId], Tokens(route.legs), Fees(route.legs),
                         AmountOf(a.amountIn));
      if !again.Complete? then a
      else a.(route := Some(route.(legs := again.legs, amountOut := Print(again.output), block := Some(block))))
  }

  ghost predicate Requoted(
      chain: Chain, before: seq<QuotedAllocation>, block: Block, after: seq<QuotedAllocation>)
  {
    |after| == |before| && forall i :: 0 <= i < |after| ==> after[i] == FreshlyQuoted(chain, before[i], block)
  }

  ghost predicate Quotable(chain: Chain, saved: QuoteRecord, requested: seq<RouteAllocation>) {
    && Plannable(chain, saved, requested) && Print(Total(requested)) == saved.request.amountIn
    && AllRequotable(chain, Selected(saved, requested))
  }

  method QuoteAllocations(chain: Chain, saved: QuoteRecord, requested: seq<RouteAllocation>)
    returns (r: Result<seq<QuotedAllocation>>)
    ensures r.Ok? <==> Quotable(chain, saved, requested)
    ensures r.Ok? ==> Requoted(chain, Selected(saved, requested), saved.final.block, r.value)
  {
    hide Plannable, Print, Total, Along, Tokens, Fees, Value, AllDigits, SamePools;
    var admission := AdmitAllocations(chain, saved, requested);
    if admission.Err? { return Err(admission.reason); }
    var result := admission.value;
    ghost var admitted := result;
    var i := 0;
    while i < |result|
      invariant i <= |result| == |admitted|
      invariant forall j :: i <= j < |result| ==> result[j] == admitted[j]
      invariant forall j :: 0 <= j < i ==> result[j] == FreshlyQuoted(chain, admitted[j], saved.final.block)
      invariant AllRequotable(chain, admitted[..i])
    {
      var a := result[i];
      assert a == admitted[i];
      if a.route.None? || a.route.value.deploymentId !in chain.requoters || a.route.value.legs == [] {
        return Err("route");
      }
      var route := a.route.value;
      var again := Requote(chain.requoters[route.deploymentId], route, AmountOf(a.amountIn), saved.final.block);
      if again.Refused? { return Err(again.reason); }
      result := result[i := a.(route := Some(again.route))];
      i := i + 1;
    }
    assert admitted[..i] == admitted;
    return Ok(result);
  }

  function OutputOf(a: QuotedAllocation): nat { if a.route.Some? then AmountOf(a.route.value.amountOut) else 0 }

  function TotalOutput(allocations: seq<QuotedAllocation>): nat {
    if allocations == [] then 0
    else TotalOutput(allocations[..|allocations| - 1]) + OutputOf(allocations[|allocations| - 1])
  }

  // The requested allocations, each quoted again at the quote's block.
  ghost function FreshPlan(chain: Chain, saved: QuoteRecord, requested: seq<RouteAllocation>): (r: seq<QuotedAllocation>)
    ensures Requoted(chain, Selected(saved, requested), saved.final.block, r)
  {
    var selected := Selected(saved, requested);
    seq(|selected|, i requires 0 <= i < |selected| => FreshlyQuoted(chain, selected[i], saved.final.block))
  }

  lemma OneFreshPlan(chain: Chain, saved: QuoteRecord, requested: seq<RouteAllocation>, allocations: seq<QuotedAllocation>)
    requires Requoted(chain, Selected(saved, requested), saved.final.block, allocations)
    ensures allocations == FreshPlan(chain, saved, requested)
  {
    hide FreshlyQuoted;
  }

  // What re-quoting makes of an allocation: the same amount over the stored route, whose own path, hop after hop
  // from that amount, gave the new output at the quote's block; its pools, tokens and fees are the stored ones.
  lemma FreshPlanIsThreaded(chain: Chain, saved: QuoteRecord, requested: seq<RouteAllocation>, i: nat)
    returns (amounts: seq<nat>)
    requires Quotable(chain, saved, requested) && i < |requested|
    ensures
      var again, found := FreshPlan(chain, saved, requested)[i], FindRoute(saved.final.routes, requested[i].routeId);
      && again.amountIn == requested[i].amountIn && again.route.Some? && found.Some? && found.value.legs != []
      && found.value.deploymentId in chain.requoters
      && var (route, stored) := (again.route.value, found.value);
         && Threads(chain.requoters[stored.deploymentId], Tokens(stored.legs), Fees(stored.legs), amounts, |stored.legs|)
         && amounts[0] == AmountOf(requested[i].amountIn) && 0 < amounts[|stored.legs|] < UINT256_LIMIT
         && route == stored.(legs := route.legs, amountOut := Print(amounts[|stored.legs|]), block := Some(saved.final.block))
         && |route.legs| == |stored.legs|
         && forall j :: 0 <= j < |stored.legs| ==>
              && route.legs[j].pool == stored.legs[j].pool && route.legs[j].tokenOut == stored.legs[j].tokenOut
              && route.legs[j].tokenIn == Tokens(stored.legs)[j]
              && route.legs[j].selector == FeePips(FeeOf(stored.legs[j]))
  {
    hide Plannable, Print, Total, Along, Tokens, Fees, FindRoute;
    var selected := Selected(saved, requested);
    var stored := selected[i].route.value;
    var quote, amount := chain.requoters[stored.deploymentId], AmountOf(requested[i].amountIn);
    assert Requotable(quote, stored, amount);
    var k: nat;
    amounts, k := RequotableExactly(quote, stored, amount);
    ThreadedIsComplete(FeeKind, quote, Tokens(stored.legs), Fees(stored.legs), amounts);
    assert FreshPlan(chain, saved, requested)[i] == FreshlyQuoted(chain, selected[i], saved.final.block);
  }

  // Selection adds the outputs before anything is rounded. It succeeds exactly for a quotable plan whose
  // outputs add up to an amount.
  method SelectPlan(chain: Chain, saved: QuoteRecord, requested: seq<RouteAllocation>)
    returns (r: Result<(seq<QuotedAllocation>, nat)>)
    ensures r.Ok? <==>
              Quotable(chain, saved, requested) && TotalOutput(FreshPlan(chain, saved, requested)) < UINT256_LIMIT
    ensures r.Ok? ==> Requoted(chain, Selected(saved, requested), saved.final.block, r.value.0)
    ensures r.Ok? ==> r.value == (FreshPlan(chain, saved, requested), TotalOutput(FreshPlan(chain, saved, requested)))
  {
    hide Quotable, Requoted, OutputOf, FreshPlan;
    var quoted := QuoteAllocations(chain, saved, requested);
    if quoted.Err? { return Err(quoted.reason); }
    var allocations := quoted.value;
    OneFreshPlan(chain, saved, requested, allocations);
    var output := 0;
    var i := 0;
    while i < |allocations|
      invariant i <= |allocations| && output == TotalOutput(allocations[..i])
    {
      assert allocations[..i + 1][..i] == allocations[..i];
      output := output + OutputOf(allocations[i]);
      i := i + 1;
    }
    assert allocations[..i] == allocations;
    if output >= UINT256_LIMIT { return Err("invalid aggregate output"); }
    return Ok((allocations, output));
  }

  // ---------- what a plan must leave alone ----------

  function RouterOf(routers: map<string, Address>, a: QuotedAllocation): Address {
    if a.route.Some? && a.route.value.deploymentId in routers then routers[a.route.value.deploymentId] else 0
  }

  function LegsOf(a: QuotedAllocation): seq<Leg> { if a.route.Some? then a.route.value.legs else [] }

  // The pairs of a list of tokens with a list of owners.
  ghost function Pairs(tokens: seq<Address>, owners: seq<Address>): set<BalanceProbe> {
    set t, o | t in tokens && o in owners :: BalanceProbe(t, o)
  }

  ghost function LegPairs(legs: seq<Leg>, owners: seq<Address>): set<BalanceProbe> {
    if legs == [] then {}
    else LegPairs(legs[..|legs| - 1], owners) +
         Pairs([legs[|legs| - 1].tokenIn, legs[|legs| - 1].tokenOut], owners)
  }

  ghost function PlanPairs(
      allocations: seq<QuotedAllocation>, sender: Address, executor: Address, routers: map<string, Address>)
    : set<BalanceProbe>
  {
    if allocations == [] then {}
    else
      var last := allocations[|allocations| - 1];
      PlanPairs(allocations[..|allocations| - 1], sender, executor, routers) +
      LegPairs(LegsOf(last), [sender, executor, RouterOf(routers, last)])
  }

  function LegClears(legs: seq<Leg>, executor: Address, router: Address): seq<AllowanceProbe> {
    if legs == [] then []
    else LegClears(legs[..|legs| - 1], executor, router) +
         [AllowanceProbe(legs[|legs| - 1].tokenIn, executor, router)]
  }

  // One allowance per hop, in order.
  function PlanClears(allocations: seq<QuotedAllocation>, executor: Address, routers: map<string, Address>)
    : seq<AllowanceProbe>
  {
    if allocations == [] then []
    else
      var last := allocations[|allocations| - 1];
      PlanClears(allocations[..|allocations| - 1], executor, routers) +
      LegClears(LegsOf(last), executor, RouterOf(routers, last))
  }

  ghost function Members<T>(s: seq<T>): set<T> { set x | x in s }

  method AddProbe(probes: seq<BalanceProbe>, token: Address, owner: Address) returns (r: seq<BalanceProbe>)
    requires Distinct(probes)
    ensures Distinct(r) && probes <= r
    ensures Members(r) == Members(probes) + {BalanceProbe(token, owner)}
  {
    var i := 0;
    while i < |probes|
      invariant i <= |probes|
      invariant forall j :: 0 <= j < i ==> probes[j] != BalanceProbe(token, owner)
    {
      if probes[i].token == token && probes[i].owner == owner { return probes; }
      i := i + 1;
    }
    return probes + [BalanceProbe(token, owner)];
  }

  method AddPairs(probes: seq<BalanceProbe>, tokens: seq<Address>, owners: seq<Address>) returns (r: seq<BalanceProbe>)
    requires Distinct(probes)
    ensures Distinct(r) && probes <= r
    ensures Members(r) == Members(probes) + Pairs(tokens, owners)
  {
    hide Distinct;
    r := probes;
    var i := 0;
    while i < |tokens|
      invariant i <= |tokens| && Distinct(r) && probes <= r
      invariant Members(r) == Members(probes) + Pairs(tokens[..i], owners)
    {
      ghost var before := Members(r);
      var j := 0;
      while j < |owners|
        invariant j <= |owners| && Distinct(r) && probes <= r
        invariant Members(r) == before + Pairs([tokens[i]], owners[..j])
      {
        r := AddProbe(r, tokens[i], owners[j]);
        assert Pairs([tokens[i]], owners[..j + 1]) ==
               Pairs([tokens[i]], owners[..j]) + {BalanceProbe(tokens[i], owners[j])};
        j := j + 1;
      }
      assert owners[..j] == owners;
      assert Pairs(tokens[..i + 1], owners) == Pairs(tokens[..i], owners) + Pairs([tokens[i]], owners);
      i := i + 1;
    }
    assert tokens[..i] == tokens;
  }

  method AddLegs(
      probes: seq<BalanceProbe>, clears: seq<AllowanceProbe>, legs: seq<Leg>, sender: Address, executor: Address,
      router: Address)
    returns (r: seq<BalanceProbe>, cs: seq<AllowanceProbe>)
    requires Distinct(probes)
    ensures Distinct(r) && probes <= r
    ensures Members(r) == Members(probes) + LegPairs(legs, [sender, executor, router])
    ensures cs == clears + LegClears(legs, executor, router)
  {
    hide Distinct, Members, Pairs;
    var owners := [sender, executor, router];
    r, cs := probes, clears;
    var i := 0;
    while i < |legs|
      invariant i <= |legs| && Distinct(r) && probes <= r
      invariant Members(r) == Members(probes) + LegPairs(legs[..i], owners)
      invariant cs == clears + LegClears(legs[..i], executor, router)
    {
      var leg := legs[i];
      assert legs[..i + 1][..i] == legs[..i];
      cs := cs + [AllowanceProbe(leg.tokenIn, executor, router)];
      r := AddPairs(r, [leg.tokenIn, leg.tokenOut], owners);
      i := i + 1;
    }
    assert legs[..i] == legs;
  }

  // Every balance a plan touches apart from the caller's own input and output, each listed once,
  // and the allowance of every hop.
  method ExecutorChecks(
      sender: Address, executor: Address, allocations: seq<QuotedAllocation>, routers: map<string, Address>)
    returns (checks: SimulationChecks)
    requires allocations != [] && LegsOf(allocations[0]) != []
    requires LegsOf(allocations[0])[0].tokenIn != LegsOf(allocations[0])[|LegsOf(allocations[0])| - 1].tokenOut
    ensures var first := LegsOf(allocations[0]);
            && checks.input == BalanceProbe(first[0].tokenIn, sender)
            && checks.output == BalanceProbe(first[|first| - 1].tokenOut, sender)
    ensures Distinct([checks.input, checks.output] + checks.preserve)
    ensures Members(checks.preserve) ==
            PlanPairs(allocations, sender, executor, routers) - {checks.input, checks.output}
    ensures checks.clearAllowances == PlanClears(allocations, executor, routers)
  {
    hide LegPairs, LegClears, RouterOf;
    var first := LegsOf(allocations[0]);
    var input, output := BalanceProbe(first[0].tokenIn, sender), BalanceProbe(first[|first| - 1].tokenOut, sender);
    var probes := [input, output];
    var clears: seq<AllowanceProbe> := [];
    var i := 0;
    while i < |allocations|
      invariant i <= |allocations| && Distinct(probes) && [input, output] <= probes
      invariant Members(probes) == {input, output} + PlanPairs(allocations[..i], sender, executor, routers)
      invariant clears == PlanClears(allocations[..i], executor, routers)
    {
      var a := allocations[i];
      assert allocations[..i + 1][..i] == allocations[..i];
      probes, clears := AddLegs(probes, clears, LegsOf(a), sender, executor, RouterOf(routers, a));
      i := i + 1;
    }
    assert allocations[..i] == allocations;
    assert probes == [input, output] + probes[2..];
    RestMembers(probes);
    return SimulationChecks(input, output, probes[2..], clears);
  }

  lemma RestMembers(probes: seq<BalanceProbe>)
    requires |probes| >= 2 && Distinct(probes)
    ensures Members(probes[2..]) == Members(probes) - {probes[0], probes[1]}
  {
    assert probes == [probes[0], probes[1]] + probes[2..];
    forall p | p in Members(probes[2..]) ensures p in Members(probes) && p != probes[0] && p != probes[1] {
      var i :| 0 <= i < |probes[2..]| && probes[2..][i] == p;
      assert probes[i + 2] == p;
    }
  }

  // Every hop's allowance from the executor to its router is listed for clearing.
  lemma {:induction false} EveryHopIsCleared(
      allocations: seq<QuotedAllocation>, executor: Address, routers: map<string, Address>, a: QuotedAllocation, leg: Leg)
    requires a in allocations && leg in LegsOf(a)
    ensures AllowanceProbe(leg.tokenIn, executor, RouterOf(routers, a)) in PlanClears(allocations, executor, routers)
  {
    var init, last := allocations[..|allocations| - 1], allocations[|allocations| - 1];
    if a == last {
      LegIsCleared(LegsOf(a), executor, RouterOf(routers, a), leg);
    } else {
      assert a in init;
      EveryHopIsCleared(init, executor, routers, a, leg);
    }
  }

  lemma {:induction false} LegIsCleared(legs: seq<Leg>, executor: Address, router: Address, leg: Leg)
    requires leg in legs
    ensures AllowanceProbe(leg.tokenIn, executor, router) in LegClears(legs, executor, router)
  {
    if leg != legs[|legs| - 1] { LegIsCleared(legs[..|legs| - 1], executor, router, leg); }
  }

  // ---------- the packed call ----------

  function HopsOf(legs: seq<Leg>): (hs: seq<Hop>)
    ensures |hs| == |legs| && forall i :: 0 <= i < |hs| ==> hs[i] == Hop(legs[i].tokenOut, FeeOf(legs[i]))
  {
    seq(|legs|, i requires 0 <= i < |legs| => Hop(legs[i].tokenOut, FeeOf(legs[i])))
  }

  ghost predicate AllVenues(chain: Chain, allocations: seq<QuotedAllocation>) {
    forall i :: 0 <= i < |allocations| ==>
      allocations[i].route.Some? && VenueOf(chain, allocations[i].route.value).Some?
  }

  ghost predicate PackedAllocations(
      chain: Chain, allocations: seq<QuotedAllocation>, packed: seq<ExecutorAllocation>)
  {
    && |packed| == |allocations|
    && forall i :: 0 <= i < |packed| ==>
         && allocations[i].route.Some? && VenueOf(chain, allocations[i].route.value) == Some(packed[i].venue)
         && packed[i].amountIn == AmountOf(allocations[i].amountIn)
         && packed[i].hops == HopsOf(allocations[i].route.value.legs)
  }

  method ExecutorData(chain: Chain, terms: Terms, deadline: nat) returns (r: Result<Calldata>)
    ensures r.Ok? <==> AllVenues(chain, terms.allocations)
    ensures r.Ok? ==>
              && r.value.Execute? && PackedAllocations(chain, terms.allocations, r.value.allocations)
              && r.value == Execute(terms.tokenIn, terms.tokenOut, AmountOf(terms.amountIn), AmountOf(terms.minimum),
                                    deadline, r.value.allocations)
  {
    hide VenueOf, AmountOf;
    var packed: seq<ExecutorAllocation> := [];
    var i := 0;
    while i < |terms.allocations|
      invariant i <= |terms.allocations|
      invariant PackedAllocations(chain, terms.allocations[..i], packed)
    {
      var a := terms.allocations[i];
      if a.route.None? { return Err("unsupported"); }
      var venue := VenueOf(chain, a.route.value);
      if venue.None? { return Err("unsupported"); }
      var hops: seq<Hop> := [];
      var legs := a.route.value.legs;
      var j := 0;
      while j < |legs|
        invariant j <= |legs| && hops == HopsOf(legs)[..j]
      {
        hops := hops + [Hop(legs[j].tokenOut, FeeOf(legs[j]))];
        j := j + 1;
      }
      assert hops == HopsOf(legs);
      packed := packed + [ExecutorAllocation(venue.value, AmountOf(a.amountIn), hops)];
      i := i + 1;
    }
    assert terms.allocations[..i] == terms.allocations;
    return Ok(Execute(terms.tokenIn, terms.tokenOut, AmountOf(terms.amountIn), AmountOf(terms.minimum), deadline, packed));
  }
}
