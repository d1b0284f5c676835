// The terminal's local policy: it rebuilds every term of a preparation from its own configuration and
// accepts the engine's response only if the two agree. Texts the engine sends may be anything.
module Policy {
  import opened Messages
  import opened Numerals
  import opened PathQuotes
  import opened Paths

  const MAX_UINT48: nat := 0x1_0000_0000_0000
  const PERMISSION_LIFETIME: nat := 1800

  // uint256Decimal: digits only, and no more than a word.
  function Uint256(s: string): Option<nat> {
    if IsDecimal(s) && Value(s) < UINT256_LIMIT then Some(Value(s)) else None
  }

  // ---------- configuration ----------

  datatype V3Deployment = V3Deployment(kind: string, router: Address, fees: seq<nat>)

  datatype SpacingDeployment = SpacingDeployment(router: Address, spacings: seq<int>)

  // An executor names two venues under different identifiers.
  datatype ExecutorTrust = ExecutorTrust(address: Address, venues: map<string, V3Deployment>)

  datatype PermissionTerms = PermissionTerms(target: Address, spender: Address)

  datatype SwapTerms = SwapTerms(
    target: Address, spender: Address, data: Calldata, quotedOutput: string, intermediate: seq<BalanceProbe>,
    touched: seq<BalanceProbe>, permission: Option<PermissionTerms>)

  // Other: the protocols whose planning is not modelled here, as any function of the response.
  datatype Implementation =
    | Uniswap(deployment: V3Deployment)
    | Pancake(deployment: V3Deployment)
    | Slipstream(pools: SpacingDeployment)
    | Other(plan: Response -> Result<SwapTerms>)

  datatype Trusted = Trusted(
    tokens: seq<Address>, deployments: map<string, Implementation>, executor: Option<ExecutorTrust>)

  // ---------- direct routes ----------

  predicate AdmitV3Leg(leg: Leg, fees: seq<nat>, tokens: seq<Address>) {
    && leg.selector.FeePips? && !leg.hasV4PoolKey && leg.selector.fee < FEE_LIMIT && leg.selector.fee in fees
    && leg.tokenIn in tokens && leg.tokenOut in tokens
  }

  predicate Spans(legs: seq<Leg>, tokenIn: Address, tokenOut: Address) {
    && 1 <= |legs| <= 2 && legs[0].tokenIn == tokenIn && legs[|legs| - 1].tokenOut == tokenOut
    && (|legs| == 2 ==> legs[0].tokenOut == legs[1].tokenIn)
  }

  predicate AdmitV3Route(route: Route, p: Terms, d: V3Deployment, tokens: seq<Address>) {
    && Spans(route.legs, p.tokenIn, p.tokenOut)
    && route.provider == d.kind
    && forall i :: 0 <= i < |route.legs| ==> AdmitV3Leg(route.legs[i], d.fees, tokens)
  }

  predicate AdmitSpacingLeg(leg: Leg, spacings: seq<int>, tokens: seq<Address>) {
    && leg.selector.TickSpacing? && !leg.hasV4PoolKey && leg.selector.spacing in spacings
    && leg.tokenIn in tokens && leg.tokenOut in tokens
  }

  predicate AdmitSpacingRoute(route: Route, p: Terms, d: SpacingDeployment, tokens: seq<Address>) {
    && Spans(route.legs, p.tokenIn, p.tokenOut)
    && route.provider == "aerodrome-slipstream"
    && forall i :: 0 <= i < |route.legs| ==> AdmitSpacingLeg(route.legs[i], d.spacings, tokens)
  }

  // The three amounts every router call packs.
  function Amounts(p: Terms): Option<(nat, nat, nat)> {
    var amount, minimum, deadline := Uint256(p.amountIn), Uint256(p.minimum), Uint256(p.deadline);
    if amount.None? || minimum.None? || deadline.None? then None
    else Some((amount.value, minimum.value, deadline.value))
  }

  function UniswapData(p: Terms): Result<Calldata> {
    if p.route.None? || LocalV3Path(p.route.value.legs).Err? || Amounts(p).None? then Err("terms")
    else
      var (amount, minimum, deadline) := Amounts(p).value;
      Ok(Multicall(deadline, ExactInput(LocalV3Path(p.route.value.legs).value, p.recipient, amount, minimum)))
  }

  function PancakeData(p: Terms): Result<Calldata> {
    if p.route.None? || LocalV3Path(p.route.value.legs).Err? || Amounts(p).None? then Err("terms")
    else
      var (amount, minimum, deadline) := Amounts(p).value;
      Ok(ExactInputWithDeadline(LocalV3Path(p.route.value.legs).value, p.recipient, deadline, amount, minimum))
  }

  function SlipstreamData(p: Terms): Result<Calldata> {
    if p.route.None? || LocalSlipstreamPath(p.route.value.legs).Err? || Amounts(p).None? then Err("terms")
    else
      var (amount, minimum, deadline) := Amounts(p).value;
      Ok(ExactInputWithDeadline(LocalSlipstreamPath(p.route.value.legs).value, p.recipient, deadline, amount, minimum))
  }

  // The tokens a route passes through, held by the router in between.
  function Intermediate(legs: seq<Leg>, owner: Address): (ps: seq<BalanceProbe>)
    requires legs != []
    ensures |ps| == |legs| - 1
    ensures forall i :: 0 <= i < |ps| ==> ps[i] == BalanceProbe(legs[i].tokenOut, owner)
  {
    seq(|legs| - 1, i requires 0 <= i < |legs| - 1 => BalanceProbe(legs[i].tokenOut, owner))
  }

  function DirectTerms(p: Terms, router: Address, data: Result<Calldata>): Result<SwapTerms>
    requires p.route.Some? && p.route.value.legs != []
  {
    var output := Uint256(p.route.value.amountOut);
    if data.Err? || output.None? || output.value == 0 then Err("terms")
    else Ok(SwapTerms(router, router, data.value, p.route.value.amountOut,
                      Intermediate(p.route.value.legs, router), [], None))
  }

  function PlanDirect(impl: Implementation, r: Response, tokens: seq<Address>): Result<SwapTerms>
  {
    var p := r.terms;
    match impl
    case Uniswap(d) =>
      if p.route.None? || !AdmitV3Route(p.route.value, p, d, tokens) then Err("route")
      else DirectTerms(p, d.router, UniswapData(p))
    case Pancake(d) =>
      if p.route.None? || !AdmitV3Route(p.route.value, p, d, tokens) then Err("route")
      else DirectTerms(p, d.router, PancakeData(p))
    case Slipstream(d) =>
      if p.route.None? || !AdmitSpacingRoute(p.route.value, p, d, tokens) then Err("route")
      else DirectTerms(p, d.router, SlipstreamData(p))
    case Other(plan) => plan(r)
  }

  // ---------- executor plans ----------

  function VenueNumber(provider: string): nat { if provider == "uniswap-v3" then 0 else 1 }

  function LocalHops(legs: seq<Leg>): (hs: seq<Hop>)
    ensures |hs| == |legs| && forall i :: 0 <= i < |hs| ==> hs[i] == Hop(legs[i].tokenOut, FeeOf(legs[i]))
  {
    seq(|legs|, i requires 0 <= i < |legs| => Hop(legs[i].tokenOut, FeeOf(legs[i])))
  }

  predicate Encodable(a: QuotedAllocation) {
    && a.route.Some? && (a.route.value.provider == "uniswap-v3" || a.route.value.provider == "pancake-v3")
    && Uint256(a.amountIn).Some? && forall i :: 0 <= i < |a.route.value.legs| ==> a.route.value.legs[i].selector.FeePips?
  }

  function LocalAllocation(a: QuotedAllocation): ExecutorAllocation
    requires Encodable(a)
  {
    ExecutorAllocation(VenueNumber(a.route.value.provider), Uint256(a.amountIn).value, LocalHops(a.route.value.legs))
  }

  predicate AllEncodable(allocations: seq<QuotedAllocation>) {
    forall i :: 0 <= i < |allocations| ==> Encodable(allocations[i])
  }

  function LocalAllocations(allocations: seq<QuotedAllocation>): (r: seq<ExecutorAllocation>)
    requires AllEncodable(allocations)
    ensures |r| == |allocations| && forall i :: 0 <= i < |r| ==> r[i] == LocalAllocation(allocations[i])
  {
    seq(|allocations|, i requires 0 <= i < |allocations| => LocalAllocation(allocations[i]))
  }

  function ExpectedExecutorData(p: Terms): Result<Calldata> {
    if !AllEncodable(p.allocations) || Amounts(p).None? then Err("terms")
    else
      var (amount, minimum, deadline) := Amounts(p).value;
      Ok(Execute(p.tokenIn, p.tokenOut, amount, minimum, deadline, LocalAllocations(p.allocations)))
  }

  // The tokens along a route, first to last.
  function PathTokens(legs: seq<Leg>): seq<Address>
    requires legs != []
  {
    Tokens(legs)
  }

  predicate NoCycle(tokens: seq<Address>) {
    forall i, j :: 0 <= i < j < |tokens| ==> tokens[i] != tokens[j]
  }

  predicate BlockOk(block: Option<Block>, first: Option<Block>) {
    && block.Some? && first.Some? && IsHash(first.value.hash) && IsDecimal(first.value.number)
    && block.value == first.value
  }

  // One allocation on its own.
  predicate AllocationOk(e: ExecutorTrust, p: Terms, tokens: seq<Address>, a: QuotedAllocation) {
    && a.route.Some? && a.route.value.deploymentId in e.venues
    && AdmitV3Route(a.route.value, p, e.venues[a.route.value.deploymentId], tokens)
    && NoCycle(PathTokens(a.route.value.legs))
    && Uint256(a.amountIn).Some? && Uint256(a.amountIn).value > 0
    && Uint256(a.route.value.amountOut).Some? && Uint256(a.route.value.amountOut).value > 0
  }

  function BlockOf(a: QuotedAllocation): Option<Block> { if a.route.Some? then a.route.value.block else None }

  predicate PlanOk(e: ExecutorTrust, p: Terms, tokens: seq<Address>) {
    && p.route.None? && 1 <= |p.allocations| <= 2
    && (forall i :: 0 <= i < |p.allocations| ==>
          AllocationOk(e, p, tokens, p.allocations[i]) && BlockOk(BlockOf(p.allocations[i]), BlockOf(p.allocations[0])))
    && (forall i, j :: 0 <= i < j < |p.allocations| ==> DeploymentOf(p.allocations[i]) != DeploymentOf(p.allocations[j]))
  }

  function DeploymentOf(a: QuotedAllocation): string { if a.route.Some? then a.route.value.deploymentId else "" }

  function Input(a: QuotedAllocation): nat { if Uint256(a.amountIn).Some? then Uint256(a.amountIn).value else 0 }

  function Output(a: QuotedAllocation): nat {
    if a.route.Some? && Uint256(a.route.value.amountOut).Some? then Uint256(a.route.value.amountOut).value else 0
  }

  function TotalInput(allocations: seq<QuotedAllocation>): nat {
    if allocations == [] then 0
    else TotalInput(allocations[..|allocations| - 1]) + Input(allocations[|allocations| - 1])
  }

  function TotalOutput(allocations: seq<QuotedAllocation>): nat {
    if allocations == [] then 0
    else TotalOutput(allocations[..|allocations| - 1]) + Output(allocations[|allocations| - 1])
  }

  // The pairs a plan touches: every path token held by the executor, the venue's router or the
  // recipient, except the recipient's own input and output.
  function TokenTouches(p: Terms, token: Address, executor: Address, router: Address): seq<BalanceProbe> {
    Kept(p, token, executor) + Kept(p, token, router) + Kept(p, token, p.recipient)
  }

  predicate CallersOwn(p: Terms, token: Address, owner: Address) {
    owner == p.recipient && (token == p.tokenIn || token == p.tokenOut)
  }

  function Kept(p: Terms, token: Address, owner: Address): seq<BalanceProbe> {
    if CallersOwn(p, token, owner) then [] else [BalanceProbe(token, owner)]
  }

  function PathTouches(p: Terms, tokens: seq<Address>, executor: Address, router: Address): seq<BalanceProbe> {
    if tokens == [] then []
    else PathTouches(p, tokens[..|tokens| - 1], executor, router) +
         TokenTouches(p, tokens[|tokens| - 1], executor, router)
  }

  function RouterFor(e: ExecutorTrust, a: QuotedAllocation): Address {
    if DeploymentOf(a) in e.venues then e.venues[DeploymentOf(a)].router else 0
  }

  function AllocationTouches(e: ExecutorTrust, p: Terms, a: QuotedAllocation): seq<BalanceProbe> {
    if a.route.None? || a.route.value.legs == [] then []
    else PathTouches(p, PathTokens(a.route.value.legs), e.address, RouterFor(e, a))
  }

  function PlanTouches(e: ExecutorTrust, p: Terms, allocations: seq<QuotedAllocation>): seq<BalanceProbe> {
    if allocations == [] then []
    else PlanTouches(e, p, allocations[..|allocations| - 1]) + AllocationTouches(e, p, allocations[|allocations| - 1])
  }

  // Intermediate tokens, each once.
  function AddIntermediates(seen: seq<Address>, legs: seq<Leg>): seq<Address>
    decreases |legs|
  {
    if |legs| <= 1 then seen
    else AddIntermediates(if legs[0].tokenOut in seen then seen else seen + [legs[0].tokenOut], legs[1..])
  }

  function PlanIntermediates(allocations: seq<QuotedAllocation>): seq<Address> {
    if allocations == [] then []
    else
      var last := allocations[|allocations| - 1];
      AddIntermediates(PlanIntermediates(allocations[..|allocations| - 1]),
                       if last.route.Some? then last.route.value.legs else [])
  }

  function HeldBy(tokens: seq<Address>, owner: Address): (r: seq<BalanceProbe>)
    ensures |r| == |tokens| && forall i :: 0 <= i < |r| ==> r[i] == BalanceProbe(tokens[i], owner)
  {
    seq(|tokens|, i requires 0 <= i < |tokens| => BalanceProbe(tokens[i], owner))
  }

  function PlanExecutor(e: ExecutorTrust, p: Terms, tokens: seq<Address>): Result<SwapTerms> {
    if !PlanOk(e, p, tokens) || Uint256(p.amountIn) != Some(TotalInput(p.allocations)) then Err("plan")
    else if ExpectedExecutorData(p).Err? then Err("data")
    else Ok(SwapTerms(e.address, e.address, ExpectedExecutorData(p).value, Print(TotalOutput(p.allocations)),
                      HeldBy(PlanIntermediates(p.allocations), e.address), PlanTouches(e, p, p.allocations), None))
  }

  // One allocation of a configured venue: admitted, free of cycles, quoted at the plan's block, and
  // positive on both sides.
  method CheckAllocation(e: ExecutorTrust, p: Terms, tokens: seq<Address>, a: QuotedAllocation, block: Option<Block>)
    returns (amounts: Option<(nat, nat)>)
    requires a.route.Some? && a.route.value.deploymentId in e.venues
    ensures amounts.Some? <==> AllocationOk(e, p, tokens, a) && BlockOk(BlockOf(a), block)
    ensures amounts.Some? ==> amounts.value == (Input(a), Output(a))
  {
    hide AdmitV3Route, NoCycle, BlockOk, Uint256, PathTokens;
    var route := a.route.value;
    var deployment := e.venues[route.deploymentId];
    if !AdmitV3Route(route, p, deployment, tokens) { return None; }
    RouteHasLegs(route, p, deployment, tokens);
    if !NoCycle(PathTokens(route.legs)) { return None; }
    if !BlockOk(route.block, block) { return None; }
    var amount := Uint256(a.amountIn);
    if amount.None? || amount.value == 0 { return None; }
    var output := Uint256(route.amountOut);
    if output.None? || output.value == 0 { return None; }
    return Some((amount.value, output.value));
  }

  // The loop over allocations: totals, venues taken, touched pairs and intermediate tokens together.
  method FixedExecutorPlan(e: ExecutorTrust, p: Terms, tokens: seq<Address>) returns (r: Result<SwapTerms>)
    ensures r.Ok? <==> PlanExecutor(e, p, tokens).Ok?
    ensures r.Ok? ==> r == PlanExecutor(e, p, tokens)
  {
    hide AllocationOk, BlockOk, Uint256, Print, ExpectedExecutorData, AllocationTouches, AddIntermediates, Input, Output;
    if |p.allocations| < 1 || |p.allocations| > 2 || p.route.Some? { return Err("plan"); }
    var used: set<string> := {};
    var touched: seq<BalanceProbe> := [];
    var intermediates: seq<Address> := [];
    var total, quoted := 0, 0;
    var i := 0;
    while i < |p.allocations|
      invariant i <= |p.allocations|
      invariant forall j :: 0 <= j < i ==>
                  && AllocationOk(e, p, tokens, p.allocations[j])
                  && BlockOk(BlockOf(p.allocations[j]), BlockOf(p.allocations[0]))
                  && DeploymentOf(p.allocations[j]) in used
      invariant forall j, k :: 0 <= j < k < i ==> DeploymentOf(p.allocations[j]) != DeploymentOf(p.allocations[k])
      invariant forall d :: d in used ==> exists j :: 0 <= j < i && DeploymentOf(p.allocations[j]) == d
      invariant total == TotalInput(p.allocations[..i]) && quoted == TotalOutput(p.allocations[..i])
      invariant touched == PlanTouches(e, p, p.allocations[..i])
      invariant intermediates == PlanIntermediates(p.allocations[..i])
    {
      var a := p.allocations[i];
      assert p.allocations[..i + 1][..i] == p.allocations[..i];
      OkHasVenue(e, p, tokens, a);
      if a.route.None? { return Err("plan"); }
      var route := a.route.value;
      if route.deploymentId !in e.venues || route.deploymentId in used { return Err("plan"); }
      var amounts := CheckAllocation(e, p, tokens, a, BlockOf(p.allocations[0]));
      if amounts.None? { return Err("plan"); }
      used := used + {route.deploymentId};
      total := total + amounts.value.0;
      quoted := quoted + amounts.value.1;
      intermediates := AddIntermediates(intermediates, route.legs);
      touched := touched + AllocationTouches(e, p, a);
      i := i + 1;
    }
    assert p.allocations[..i] == p.allocations;
    if Uint256(p.amountIn) != Some(total) { return Err("total"); }
    var data := ExpectedExecutorData(p);
    if data.Err? { return Err("data"); }
    return Ok(SwapTerms(e.address, e.address, data.value, Print(quoted), HeldBy(intermediates, e.address), touched, None));
  }

  lemma OkHasVenue(e: ExecutorTrust, p: Terms, tokens: seq<Address>, a: QuotedAllocation)
    ensures AllocationOk(e, p, tokens, a) ==> a.route.Some? && a.route.value.deploymentId in e.venues
  {}

  lemma RouteHasLegs(route: Route, p: Terms, d: V3Deployment, tokens: seq<Address>)
    requires AdmitV3Route(route, p, d, tokens)
    ensures route.legs != []
  {}

  // ---------- accepting a response ----------

  datatype Obligations = Obligations(
    tokenIn: Address, tokenOut: Address, recipient: Address, amountIn: string, minimum: string,
    intermediate: seq<BalanceProbe>, touched: seq<BalanceProbe>)

  datatype ExecutionPlan =
    | ApprovalPlan(transaction: Transaction, spender: Address)
    | SwapPlan(transaction: Transaction, spender: Address, obligations: Obligations)

  predicate Executable(status: Status) { status == Ready || status == ApprovalRequired }

  // now is in whole Unix seconds.
  predicate Current(r: Response, now: nat) {
    && Executable(r.status)
    && Uint256(r.terms.deadline).Some? && Uint256(r.terms.deadline).value > now
    && IsDecimal(r.terms.expiresAt) && Value(r.terms.expiresAt) > now
  }

  function Chosen(r: Response): Option<Transaction> {
    if r.status != ApprovalRequired then r.transaction
    else if r.permission.Some? && r.permission.value.transaction.Some? then r.permission.value.transaction
    else r.approvalTransaction
  }

  predicate TransactionOk(r: Response, tx: Transaction, signer: Address, chainId: string) {
    && r.terms.preparationId != "" && r.terms.recipient == signer && tx.from == signer
    && tx.chainId == chainId && tx.data != OtherBytes([]) && tx.value == "0" && IsPositiveInteger(tx.gasLimit)
  }

  predicate TermsOk(p: Terms, tokens: seq<Address>) {
    && Uint256(p.amountIn).Some? && Uint256(p.minimum).Some?
    && p.tokenIn != p.tokenOut && IsPositiveInteger(p.amountIn) && IsPositiveInteger(p.minimum)
    && p.tokenIn in tokens && p.tokenOut in tokens
    && (p.allocations == []) != p.route.None? && |p.allocations| <= 2
  }

  function LocalTerms(r: Response, trusted: Trusted): Result<SwapTerms> {
    if r.terms.route.Some? then
      if r.terms.route.value.deploymentId in trusted.deployments then
        PlanDirect(trusted.deployments[r.terms.route.value.deploymentId], r, trusted.tokens)
      else Err("deployment")
    else if trusted.executor.Some? then PlanExecutor(trusted.executor.value, r.terms, trusted.tokens)
    else Err("executor")
  }

  // The minimum is the locally quoted output less the slippage, rounded down once.
  predicate MinimumOk(p: Terms, terms: SwapTerms, slippageBps: nat)
    requires slippageBps <= 9999 && Uint256(p.minimum).Some?
  {
    var quoted := Uint256(terms.quotedOutput);
    quoted.Some? && quoted.value > 0 && Uint256(p.minimum).value == quoted.value * (10000 - slippageBps) / 10000
  }

  predicate PermissionOk(r: Response, tx: Transaction, terms: SwapTerms, grant: OnChainPermission) {
    var amount, deadline, expiration := Uint256(r.terms.amountIn), Uint256(r.terms.deadline), Uint256(grant.expiration);
    && amount.Some? && deadline.Some? && expiration.Some?
    && r.approvalTransaction.None? && r.approvalSpender.None? && terms.permission.Some?
    && terms.permission.value == PermissionTerms(terms.spender, terms.target)
    && grant.target == terms.permission.value.target && grant.token == r.terms.tokenIn
    && grant.spender == terms.permission.value.spender && grant.amount == r.terms.amountIn
    && expiration.value == deadline.value + PERMISSION_LIFETIME && expiration.value < MAX_UINT48
    && tx.to == grant.target
    && tx.data == PermitApprove(r.terms.tokenIn, terms.target, amount.value, expiration.value)
    && r.transaction.None?
  }

  predicate ApprovalOk(r: Response, tx: Transaction, terms: SwapTerms) {
    && Uint256(r.terms.amountIn).Some? && r.permission.None?
    && r.approvalSpender == Some(terms.spender) && tx.to == r.terms.tokenIn
    && tx.data == Approve(terms.spender, Uint256(r.terms.amountIn).value)
    && r.transaction.None?
  }

  function ValidatePreparation(
      r: Response, signer: Address, chainId: string, slippageBps: nat, trusted: Trusted, now: nat)
    : Result<ExecutionPlan>
  {
    if slippageBps > 9999 then Err("slippage")
    else if !Current(r, now) then Err("expired")
    else if Chosen(r).None? || !TransactionOk(r, Chosen(r).value, signer, chainId) then Err("transaction")
    else if !TermsOk(r.terms, trusted.tokens) then Err("terms")
    else
      var tx := Chosen(r).value;
      match LocalTerms(r, trusted)
      case Err(reason) => Err(reason)
      case Ok(terms) =>
        if r.status == Ready && !NoApproval(r) then Err("approval fields")
        else if !MinimumOk(r.terms, terms, slippageBps) then Err("minimum")
        else if r.status == ApprovalRequired then
          if r.permission.Some? then
            if PermissionOk(r, tx, terms, r.permission.value) then Ok(ApprovalPlan(tx, r.permission.value.target))
            else Err("permission")
          else if ApprovalOk(r, tx, terms) then Ok(ApprovalPlan(tx, terms.spender))
          else Err("approval")
        else if tx.to != terms.target || tx.data != terms.data then Err("data")
        else Ok(SwapPlan(tx, terms.spender,
                         Obligations(r.terms.tokenIn, r.terms.tokenOut, r.terms.recipient, r.terms.amountIn,
                                     r.terms.minimum, terms.intermediate, terms.touched)))
  }
}
