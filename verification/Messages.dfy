// The wire messages shared by the engine and the terminal, as values. Addresses and block hashes
// are normalised; decimal amounts and Unix times stay text, as they are on the wire.
module Messages {

  datatype Option<+T> = None | Some(value: T)

  datatype Result<+T> = Ok(value: T) | Err(reason: string)

  const ADDRESS_LIMIT: nat := 0x1_0000000000_0000000000_0000000000_0000000000
  const UINT256_LIMIT: nat :=
    0x1_00000000_00000000_00000000_00000000_00000000_00000000_00000000_00000000
  const UINT64_LIMIT: nat := 0x1_00000000_00000000
  const FEE_LIMIT: nat := 1000000

  type Address = a: nat | a < ADDRESS_LIMIT

  type byte = b: nat | b < 256

  predicate IsHexDigit(c: char) { '0' <= c <= '9' || 'a' <= c <= 'f' || 'A' <= c <= 'F' }

  // A 32-byte hash in prefixed hex text.
  predicate IsHash(s: string) {
    |s| == 66 && s[..2] == "0x" && forall i :: 2 <= i < 66 ==> IsHexDigit(s[i])
  }

  // ---------- quotes ----------

  datatype Selector = FeePips(fee: nat) | TickSpacing(spacing: int) | NoSelector

  datatype Leg = Leg(pool: Address, tokenIn: Address, tokenOut: Address, selector: Selector, hasV4PoolKey: bool)

  datatype Block = Block(number: string, hash: string)

  datatype Route = Route(
    routeId: string, provider: string, deploymentId: string, legs: seq<Leg>, amountOut: string, block: Option<Block>)

  datatype ProviderError = ProviderError(provider: string, routeId: Option<string>, message: string)

  datatype QuoteRequest = QuoteRequest(chain: string, tokenIn: Address, tokenOut: Address, amountIn: string)

  datatype QuoteFinal = QuoteFinal(
    quoteId: string, block: Block, routes: seq<Route>, errors: seq<ProviderError>, bestRouteId: Option<string>,
    searchComplete: bool)

  // The first route carrying an identifier, as both programs look one up.
  function FindRoute(routes: seq<Route>, id: string): (r: Option<Route>)
    ensures r.Some? ==> r.value in routes && r.value.routeId == id
    ensures r.None? ==> forall route :: route in routes ==> route.routeId != id
  {
    if routes == [] then None
    else if routes[0].routeId == id then Some(routes[0])
    else FindRoute(routes[1..], id)
  }

  // It is the first of them: no route before it has the identifier.
  lemma {:induction false} FoundFirst(routes: seq<Route>, id: string) returns (k: nat)
    requires FindRoute(routes, id).Some?
    ensures k < |routes| && routes[k] == FindRoute(routes, id).value && routes[k].routeId == id
    ensures forall j :: 0 <= j < k ==> routes[j].routeId != id
  {
    if routes[0].routeId == id {
      k := 0;
    } else {
      k := FoundFirst(routes[1..], id);
      k := k + 1;
    }
  }

  lemma {:induction false} FirstIsFound(routes: seq<Route>, k: nat)
    requires k < |routes| && forall j :: 0 <= j < k ==> routes[j].routeId != routes[k].routeId
    ensures FindRoute(routes, routes[k].routeId) == Some(routes[k])
  {
    if k > 0 { FirstIsFound(routes[1..], k - 1); }
  }

  // ---------- preparations ----------

  datatype RouteAllocation = RouteAllocation(routeId: string, amountIn: string)

  datatype QuotedAllocation = QuotedAllocation(amountIn: string, route: Option<Route>)

  datatype PrepareRequest = PrepareRequest(
    quoteId: string, routeId: string, sender: Option<Address>, slippageBps: nat, preparationId: string,
    allocations: seq<RouteAllocation>)

  datatype Hop = Hop(tokenOut: Address, fee: nat)

  datatype ExecutorAllocation = ExecutorAllocation(venue: nat, amountIn: nat, hops: seq<Hop>)

  // ABI packing is injective library code, so calldata is the term it packs.
  datatype Calldata =
    | Approve(spender: Address, amount: nat)
    | PermitApprove(token: Address, spender: Address, amount: nat, expiration: nat)
    | ExactInput(path: seq<byte>, recipient: Address, amount: nat, minimum: nat)
    | Multicall(deadline: nat, inner: Calldata)
    | ExactInputWithDeadline(path: seq<byte>, recipient: Address, deadline: nat, amount: nat, minimum: nat)
    | Execute(tokenIn: Address, tokenOut: Address, amount: nat, minimum: nat, deadline: nat,
              allocations: seq<ExecutorAllocation>)
    | OtherBytes(bytes: seq<byte>)

  datatype Transaction = Transaction(
    chainId: string, from: Address, to: Address, data: Calldata, value: string, gasLimit: string)

  datatype Status = Unspecified | Ready | ApprovalRequired | RequoteRequired | Rejected

  datatype OnChainPermission = OnChainPermission(
    target: Address, token: Address, spender: Address, amount: string, expiration: string,
    transaction: Option<Transaction>)

  // The economic terms of a preparation: identity, expiry, amounts, recipient, deadline, selection.
  datatype Terms = Terms(
    preparationId: string, expiresAt: string, minimum: string, amountIn: string, tokenIn: Address, tokenOut: Address,
    recipient: Address, deadline: string, route: Option<Route>, allocations: seq<QuotedAllocation>)

  // What a selection hands over to the prepared response: the strategy's own route and allocations,
  // which the response holds without a copy until it is saved.
  datatype Handover = Handover(route: Option<Route>, allocations: seq<QuotedAllocation>)

  function WithHandover(terms: Terms, handover: Handover): Terms {
    terms.(route := handover.route, allocations := handover.allocations)
  }

  function HandoverOf(terms: Terms): Handover { Handover(terms.route, terms.allocations) }

  // The same identity, amounts, tokens, recipient, deadline and expiry; the selection may differ.
  predicate SameButSelection(a: Terms, b: Terms) { WithHandover(a, HandoverOf(b)) == b }

  datatype Response = Response(
    status: Status, message: string, terms: Terms, transaction: Option<Transaction>, approvalSpender: Option<Address>,
    approvalTransaction: Option<Transaction>, permission: Option<OnChainPermission>,
    simulationBlock: Option<Block>, simulatedOutput: string)

  predicate NoApproval(r: Response) {
    r.approvalSpender.None? && r.approvalTransaction.None? && r.permission.None?
  }

  // ---------- the plan a builder freezes ----------

  datatype BalanceProbe = BalanceProbe(token: Address, owner: Address)

  datatype AllowanceProbe = AllowanceProbe(token: Address, owner: Address, spender: Address)

  datatype SimulationChecks = SimulationChecks(
    input: BalanceProbe, output: BalanceProbe, preserve: seq<BalanceProbe>, clearAllowances: seq<AllowanceProbe>)

  datatype PermissionPlan = PermissionPlan(
    target: Address, token: Address, spender: Address, amount: nat, expiration: nat)

  datatype Plan = Plan(
    transaction: Transaction, spender: Address, permission: Option<PermissionPlan>, checks: SimulationChecks)
}
