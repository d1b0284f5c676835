// The engine's builders: a transaction, its spender and its checks for a direct route or for an
// executor plan, from the frozen terms of a preparation.
module Routers {
  import opened Messages
  import opened Sorting
  import opened PathQuotes
  import opened Paths
  import opened Executor

  datatype Encoder = UniswapRouter02 | PancakeV3Router | SlipstreamRouter

  // One router version's builder for one deployment.
  datatype DirectPreparer = DirectPreparer(
    id: string, kind: string, target: Address, chainId: string, encoder: Encoder)

  predicate Routable(encoder: Encoder, legs: seq<Leg>) {
    if encoder.SlipstreamRouter? then SpacingRoute(legs) else FeeRoute(legs)
  }

  function PathBytes(encoder: Encoder, legs: seq<Leg>): seq<byte>
    requires Routable(encoder, legs)
  {
    if encoder.SlipstreamRouter? then Packed(Tokens(legs), MaskedAll(SpacingsOf(legs)))
    else Packed(Tokens(legs), FeesOf(legs))
  }

  function RouterCall(
      encoder: Encoder, path: seq<byte>, recipient: Address, amount: nat, minimum: nat, deadline: nat): Calldata
  {
    match encoder
    case UniswapRouter02 => Multicall(deadline, ExactInput(path, recipient, amount, minimum))
    case PancakeV3Router => ExactInputWithDeadline(path, recipient, deadline, amount, minimum)
    case SlipstreamRouter => ExactInputWithDeadline(path, recipient, deadline, amount, minimum)
  }

  method Encode(encoder: Encoder, legs: seq<Leg>, recipient: Address, amount: nat, minimum: nat, deadline: nat)
    returns (r: Result<Calldata>)
    ensures r.Ok? <==> Routable(encoder, legs)
    ensures r.Ok? ==> r.value == RouterCall(encoder, PathBytes(encoder, legs), recipient, amount, minimum, deadline)
  {
    var path: Result<seq<byte>>;
    if encoder.SlipstreamRouter? { path := SlipstreamPath(legs); } else { path := V3Path(legs); }
    if path.Err? { return Err(path.reason); }
    return Ok(RouterCall(encoder, path.value, recipient, amount, minimum, deadline));
  }

  // The caller's input and output, and what the router must not keep of a middle token.
  function DirectChecks(legs: seq<Leg>, sender: Address, target: Address): SimulationChecks
    requires legs != []
  {
    SimulationChecks(
      BalanceProbe(legs[0].tokenIn, sender), BalanceProbe(legs[|legs| - 1].tokenOut, sender),
      if |legs| == 2 then [BalanceProbe(legs[0].tokenOut, target)] else [], [])
  }

  // The plan a direct builder freezes, for terms whose minimum is positive and whose route it can pack.
  function DirectPlan(d: DirectPreparer, terms: Terms): Plan
    requires terms.route.Some? && Routable(d.encoder, terms.route.value.legs)
  {
    var legs := terms.route.value.legs;
    Plan(
      Transaction(
        d.chainId, terms.recipient, d.target,
        RouterCall(d.encoder, PathBytes(d.encoder, legs), terms.recipient, AmountOf(terms.amountIn),
                   AmountOf(terms.minimum), AmountOf(terms.deadline)),
        "0", "1500000"),
      d.target, None, DirectChecks(legs, terms.recipient, d.target))
  }

  method BuildDirect(d: DirectPreparer, terms: Terms) returns (r: Result<Plan>)
    requires terms.route.Some?
    ensures r.Ok? <==> AmountOf(terms.minimum) > 0 && Routable(d.encoder, terms.route.value.legs)
    ensures r.Ok? ==> r.value == DirectPlan(d, terms)
  {
    hide AmountOf, PathBytes, RouterCall;
    if AmountOf(terms.minimum) == 0 { return Err("minimum output must be positive"); }
    var data := Encode(d.encoder, terms.route.value.legs, terms.recipient, AmountOf(terms.amountIn),
                       AmountOf(terms.minimum), AmountOf(terms.deadline));
    if data.Err? { return Err("unsupported route"); }
    var tx := Transaction(d.chainId, terms.recipient, d.target, data.value, "0", "1500000");
    return Ok(Plan(tx, d.target, None, DirectChecks(terms.route.value.legs, terms.recipient, d.target)));
  }

  function RouterMap(chain: Chain, allocations: seq<QuotedAllocation>): map<string, Address> {
    map id | id in IdsOf(allocations) && id in chain.deployments :: chain.deployments[id].router
  }

  function IdsOf(allocations: seq<QuotedAllocation>): set<string> {
    set i | 0 <= i < |allocations| && allocations[i].route.Some? :: allocations[i].route.value.deploymentId
  }

  // What an executor builder freezes: one call to the executor, and every touched balance protected.
  ghost predicate ExecutorPlanFor(chain: Chain, terms: Terms, plan: Plan) {
    && chain.executor.Some? && terms.allocations != []
    && var address := chain.executor.value.address;
       var routers := RouterMap(chain, terms.allocations);
       && plan.spender == address && plan.permission.None?
       && plan.transaction.data.Execute?
       && PackedAllocations(chain, terms.allocations, plan.transaction.data.allocations)
       && plan.transaction ==
            Transaction(chain.chainId, terms.recipient, address,
                        Execute(terms.tokenIn, terms.tokenOut, AmountOf(terms.amountIn), AmountOf(terms.minimum),
                                AmountOf(terms.deadline), plan.transaction.data.allocations),
                        "0", "3000000")
       && Distinct([plan.checks.input, plan.checks.output] + plan.checks.preserve)
       && Members(plan.checks.preserve) ==
            PlanPairs(terms.allocations, terms.recipient, address, routers) - {plan.checks.input, plan.checks.output}
       && plan.checks.clearAllowances == PlanClears(terms.allocations, address, routers)
       && LegsOf(terms.allocations[0]) != []
       && plan.checks.input == BalanceProbe(LegsOf(terms.allocations[0])[0].tokenIn, terms.recipient)
       && plan.checks.output ==
            BalanceProbe(LegsOf(terms.allocations[0])[|LegsOf(terms.allocations[0])| - 1].tokenOut, terms.recipient)
  }

  method BuildExecutor(chain: Chain, terms: Terms) returns (r: Result<Plan>)
    requires chain.executor.Some? && terms.allocations != [] && LegsOf(terms.allocations[0]) != []
    requires LegsOf(terms.allocations[0])[0].tokenIn !=
             LegsOf(terms.allocations[0])[|LegsOf(terms.allocations[0])| - 1].tokenOut
    ensures r.Ok? <==> terms.minimum != "0" && AllVenues(chain, terms.allocations)
    ensures r.Ok? ==> ExecutorPlanFor(chain, terms, r.value)
  {
    hide AmountOf, PlanPairs, PlanClears, PackedAllocations, AllVenues, Distinct, Members;
    if terms.minimum == "0" { return Err("invalid aggregate output"); }
    var data := ExecutorData(chain, terms, AmountOf(terms.deadline));
    if data.Err? { return Err("executor plan could not be encoded"); }
    var address := chain.executor.value.address;
    var tx := Transaction(chain.chainId, terms.recipient, address, data.value, "0", "3000000");
    var checks := ExecutorChecks(tx.from, tx.to, terms.allocations, RouterMap(chain, terms.allocations));
    return Ok(Plan(tx, address, None, checks));
  }
}
