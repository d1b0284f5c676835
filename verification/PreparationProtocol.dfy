// The engine's preparation protocol. Requests run concurrently: each is a program counter with its
// own copies of the stored terms, every store operation is one atomic step, and the network, the
// builders, the simulator and every clock reading are chosen freely by the environment through the
// parameters of the steps. No two clock readings are assumed to be ordered.
module PreparationProtocol {
  import opened Messages
  import opened Numerals
  import opened Retention

  type Chains = map<string, string>

  // A pinned block as the RPC client reports it.
  datatype Snapshot = Snapshot(chainId: string, block: Block, timestamp: nat)

  // What a strategy selects: a direct route or executor allocations, and the quoted output.
  datatype Selection = Selection(route: Option<Route>, allocations: seq<QuotedAllocation>, output: nat)

  // The local variables of one PrepareExecution call once its terms are known.
  datatype Work = Work(
    recheck: bool, quoteId: string, quoteExpires: nat, p: Preparation, expires: nat, response: Response,
    snapshot: Snapshot, short: bool)
  {
    function Id(): string { p.response.terms.preparationId }
  }

  datatype Progress =
    | Arrived(request: PrepareRequest)
    | Looked(request: PrepareRequest, now: nat, quote: Option<Entry<QuoteRecord>>, prep: Option<Entry<Preparation>>)
    | AllowanceRead(work: Work)
    | AllowanceMarked(work: Work, known: bool)
    | AllowanceSettled(work: Work)
    | PermissionRead(work: Work, required: bool)
    | PermissionMarked(work: Work, required: bool, known: bool)
    | PermissionSettled(work: Work, required: bool)
    | ApprovalBuilt(work: Work)
    | Cleared(work: Work)
    | Checked(work: Work, answer: Response, checkedAt: nat)
    | Stopped(status: Status)
    | Answered(answer: Response)

  // ---------- history ----------

  // What a build fixes for the whole life of its preparation ID.
  datatype Frozen = Frozen(quoteId: string, chain: string, plan: Plan, terms: Terms, expires: nat)

  datatype Kind = SwapKind | Erc20Kind | PermissionKind

  // One call of markApproval, in lock order.
  datatype Mark = Mark(rid: nat, preparationId: string, quoteId: string, key: Key, required: bool, known: bool)

  // One executable answer, with the reading of its final clock check and whether its call found the
  // ERC-20 allowance short.
  datatype Issued = Issued(rid: nat, response: Response, checkedAt: nat, short: bool)

  // started: when each quote's search began. frozen: what each build fixed. born: the preparation
  // each first call built. kinds: how each preparation was first answered. kept: the terms of its saved
  // form. tainted: preparations whose call was told that its quote had needed an approval before.
  datatype History = History(
    started: map<string, nat>,
    frozen: map<string, Frozen>,
    born: map<nat, string>,
    kinds: map<string, Kind>,
    kept: map<string, Terms>,
    tainted: set<string>)

  datatype State = State(
    store: StoreState, requests: map<nat, Progress>, history: History, marks: seq<Mark>, answers: seq<Issued>)

  const EMPTY: State :=
    State(StoreState(map[], map[]), map[], History(map[], map[], map[], map[], map[], {}), [], [])

  // ---------- the pure parts of a call ----------

  predicate ValidRequest(r: PrepareRequest) {
    if r.preparationId != "" then
      r.quoteId == "" && r.routeId == "" && r.sender.None? && r.slippageBps == 0 && r.allocations == []
    else
      && r.quoteId != ""
      && (r.routeId == "") != (r.allocations == [])
      && |r.allocations| <= 2
      && r.sender.Some? && r.sender.value != 0
      && r.slippageBps < 10000
  }

  function SlippageMinimum(output: nat, slippageBps: nat): nat
    requires slippageBps < 10000
  {
    output * (10000 - slippageBps) / 10000
  }

  // Block timestamps are 64-bit, and so is their sum with the execution window.
  function Deadline(timestamp: nat): nat {
    (timestamp + 120) % UINT64_LIMIT
  }

  function UnixSeconds(t: nat): string { Print(t / SECOND) }

  // The response a build starts from: every economic term, no status and no transaction.
  function FreshResponse(
    id: string, request: QuoteRequest, sender: Address, slippageBps: nat, selection: Selection, now: nat, timestamp: nat)
    : Response
    requires slippageBps < 10000
  {
    Response(
      Unspecified, "",
      Terms(id, UnixSeconds(now + RETENTION), Print(SlippageMinimum(selection.output, slippageBps)), request.amountIn,
            request.tokenIn, request.tokenOut, sender, Print(Deadline(timestamp)), selection.route,
            selection.allocations),
      None, None, None, None, None, "")
  }

  function AmountIn(p: Preparation): nat {
    if IsDecimal(p.response.terms.amountIn) then Value(p.response.terms.amountIn) else 0
  }

  function DeadlineOf(r: Response): nat {
    if IsDecimal(r.terms.deadline) then Value(r.terms.deadline) else 0
  }

  function ApprovalTransaction(chains: Chains, p: Preparation): Transaction {
    Transaction(
      if p.chain in chains then chains[p.chain] else "", p.response.terms.recipient, p.response.terms.tokenIn,
      Approve(p.plan.spender, AmountIn(p)), "0", "100000")
  }

  function Permission(chains: Chains, p: Preparation, grant: PermissionPlan): OnChainPermission {
    OnChainPermission(
      grant.target, grant.token, grant.spender, Print(grant.amount), Print(grant.expiration),
      Some(Transaction(
        if p.chain in chains then chains[p.chain] else "", p.response.terms.recipient, grant.target,
        PermitApprove(grant.token, grant.spender, grant.amount, grant.expiration), "0", "100000")))
  }

  function Erc20Answer(chains: Chains, w: Work): Response {
    w.response.(
      status := ApprovalRequired, message := "Approve the required amount, then request a fresh quote.",
      approvalSpender := Some(w.p.plan.spender),
      approvalTransaction := Some(ApprovalTransaction(chains, w.p)))
  }

  function PermissionAnswer(chains: Chains, w: Work, grant: PermissionPlan): Response {
    w.response.(
      status := ApprovalRequired,
      message := "Grant the required Permit2 permission, then request a fresh quote.",
      permission := Some(Permission(chains, w.p, grant)))
  }

  function ReadyAnswer(w: Work, output: string): Response {
    w.response.(
      status := Ready, transaction := Some(w.p.plan.transaction),
      simulationBlock := Some(w.snapshot.block), simulatedOutput := output)
  }

  function AllowanceKey(p: Preparation): Key { [p.response.terms.recipient, p.plan.spender] }

  function PermissionKey(p: Preparation, grant: PermissionPlan): Key {
    [p.response.terms.recipient, grant.target, grant.spender]
  }

  // ---------- local steps of one call ----------

  // What a strategy and the network supply to the build of a first preparation. The strategy is shown the
  // looked-up quote: request is what it leaves of the quote's request, selection what it hands over, read
  // when the prepared response is copied.
  datatype BuildInput = BuildInput(
    canonical: bool, request: QuoteRequest, selection: Option<Selection>, preparationId: string, plan: Option<Plan>)

  // Network readings common to first calls and rechecks.
  datatype Reading = Reading(snapshot: Option<Snapshot>, verified: bool, allowanceShort: Option<bool>)

  function Lookup(request: PrepareRequest, now: nat, store: StoreState): Progress {
    var quote := if request.quoteId in store.quotes then Some(store.quotes[request.quoteId]) else None;
    var prep := if request.preparationId in store.preparations
                then Some(store.preparations[request.preparationId]) else None;
    if (if request.preparationId != "" then prep.None? else quote.None?) then Stopped(RequoteRequired)
    else Looked(request, now, quote, prep)
  }

  // The chain a looked-up call runs on.
  function ChainOf(l: Progress): Option<string>
    requires l.Looked?
  {
    if l.prep.Some? then Some(l.prep.value.value.chain)
    else if l.quote.Some? then Some(l.quote.value.value.request.chain)
    else None
  }

  function Built(l: Progress, input: BuildInput, snapshot: Snapshot): Result<Preparation>
    requires l.Looked? && l.prep.None? && l.quote.Some? && l.request.slippageBps < 10000 && l.request.sender.Some?
  {
    var saved := l.quote.value.value;
    if !input.canonical then Err("requote")
    else if l.request.routeId != "" && FindRoute(saved.final.routes, l.request.routeId).None? then Err("invalid")
    else if input.selection.None? then Err("rejected")
    else
      var response := FreshResponse(
        input.preparationId, input.request, l.request.sender.value, l.request.slippageBps, input.selection.value,
        l.now, snapshot.timestamp);
      if input.plan.None? then Err("rejected")
      else Ok(Preparation(input.plan.value, response, saved.request.chain, false))
  }

  // After the terms are known: linkage verification, expiry and the allowance read.
  function Admit(
    recheck: bool, quoteId: string, quoteExpires: nat, p: Preparation, expires: nat, snapshot: Snapshot,
    reading: Reading, now: nat): Progress
  {
    if !reading.verified then Stopped(Rejected)
    else if now >= expires || snapshot.timestamp >= DeadlineOf(p.response) then
      Stopped(RequoteRequired)
    else if reading.allowanceShort.None? then Stopped(Rejected)
    else
      var w := Work(recheck, quoteId, quoteExpires, p, expires, p.response, snapshot, reading.allowanceShort.value);
      if recheck then AllowanceSettled(w) else AllowanceRead(w)
  }

  function SettleMark(pc: Progress, now: nat): Progress
    requires pc.AllowanceMarked? || pc.PermissionMarked?
  {
    if !pc.known || now >= pc.work.quoteExpires then Stopped(RequoteRequired)
    else match pc
      case AllowanceMarked(w, _) => AllowanceSettled(w)
      case PermissionMarked(w, required, _) => PermissionSettled(w, required)
  }

  // The allowance branch. A sufficient allowance leads to the permission read or straight on.
  function BranchAllowance(chains: Chains, w: Work, permissionRequired: Option<bool>): Progress {
    if w.short then
      if w.recheck && !w.p.approval then Stopped(RequoteRequired)
      else ApprovalBuilt(w.(response := Erc20Answer(chains, w)))
    else if w.p.plan.permission.None? then Cleared(w)
    else if permissionRequired.None? then Stopped(Rejected)
    else if w.recheck then PermissionSettled(w, permissionRequired.value)
    else PermissionRead(w, permissionRequired.value)
  }

  function BranchPermission(chains: Chains, w: Work, required: bool): Progress {
    if !required || w.p.plan.permission.None? then Cleared(w)
    else if !w.recheck && w.p.approval then Stopped(RequoteRequired)
    else if w.recheck && w.p.response.approvalTransaction.Some? && w.p.response.permission.None? then
      Stopped(RequoteRequired)
    else if w.recheck && !w.p.approval then Stopped(RequoteRequired)
    else ApprovalBuilt(w.(response := PermissionAnswer(chains, w, w.p.plan.permission.value)))
  }

  // The canonical check and the final clock check of an approval answer.
  function ConfirmApproval(w: Work, canonical: bool, now: nat): Progress {
    if !canonical || now >= w.expires then Stopped(RequoteRequired)
    else
      var answer := w.response.(simulationBlock := Some(w.snapshot.block));
      Checked(w.(p := w.p.(approval := true, response := answer)), answer, now)
  }

  // Simulation, the canonical check and the final clock check of a ready answer.
  function ConfirmReady(w: Work, output: Option<string>, canonical: bool, now: nat): Progress {
    if w.p.approval then Stopped(RequoteRequired)
    else if output.None? then Stopped(Rejected)
    else if !canonical || now >= w.expires then Stopped(RequoteRequired)
    else Checked(w, ReadyAnswer(w, output.value), now)
  }

  // What savePreparation copies. The prepared response of a first call that is ready still holds the
  // strategy's objects, as they are at the save; any other form is the call's own.
  function SavedForm(w: Work, answer: Response, handover: Handover): Preparation {
    if w.recheck || answer.status != Ready then w.p
    else w.p.(response := w.p.response.(terms := WithHandover(w.p.response.terms, handover)))
  }

  function KindOf(answer: Response): Kind {
    if answer.status == Ready then SwapKind
    else if answer.permission.Some? then PermissionKind
    else Erc20Kind
  }

  // ---------- the transition system ----------

  datatype Step =
    | SaveQuote(search: QuoteRequest, final: QuoteFinal, searchStart: nat, now: nat, victim: Option<string>)
    | Receive(rid: nat, request: PrepareRequest)
    | DoLookup(rid: nat, now: nat)
    | DoBuild(rid: nat, input: BuildInput, reading: Reading, now: nat)
    | DoRead(rid: nat, reading: Reading, now: nat)
    | DoMark(rid: nat, now: nat)
    | DoSettle(rid: nat, now: nat)
    | DoAllowance(rid: nat, permissionRequired: Option<bool>)
    | DoPermission(rid: nat)
    | DoConfirmApproval(rid: nat, canonical: bool, now: nat)
    | DoConfirmReady(rid: nat, output: Option<string>, canonical: bool, now: nat)
    | DoSave(rid: nat, now: nat, victim: Option<string>, handover: Handover)

  function At(s: State, rid: nat): Progress {
    if rid in s.requests then s.requests[rid] else Stopped(Unspecified)
  }

  function Set(s: State, rid: nat, pc: Progress): State {
    s.(requests := s.requests[rid := pc])
  }

  // One step. A step that is not enabled changes nothing, so every sequence of steps is a run.
  function Apply(chains: Chains, s: State, step: Step): State {
    match step
    case SaveQuote(search, final, searchStart, now, victim) =>
      ApplySaveQuote(s, search, final, searchStart, now, victim)
    case Receive(rid, request) =>
      if rid in s.requests then s
      else Set(s, rid, if ValidRequest(request) then Arrived(request) else Stopped(Unspecified))
    case DoLookup(rid, now) =>
      if !At(s, rid).Arrived? then s
      else
        var store := Pruned(s.store, now);
        Set(s.(store := store), rid, Lookup(At(s, rid).request, now, store))
    case DoBuild(rid, input, reading, now) => ApplyBuild(chains, s, rid, input, reading, now)
    case DoRead(rid, reading, now) => ApplyRead(chains, s, rid, reading, now)
    case DoMark(rid, now) => ApplyMark(s, rid, now)
    case DoSettle(rid, now) =>
      if At(s, rid).AllowanceMarked? || At(s, rid).PermissionMarked? then Set(s, rid, SettleMark(At(s, rid), now)) else s
    case DoAllowance(rid, permissionRequired) =>
      if At(s, rid).AllowanceSettled? then Set(s, rid, BranchAllowance(chains, At(s, rid).work, permissionRequired)) else s
    case DoPermission(rid) =>
      if At(s, rid).PermissionSettled? then
        Set(s, rid, BranchPermission(chains, At(s, rid).work, At(s, rid).required))
      else s
    case DoConfirmApproval(rid, canonical, now) =>
      if At(s, rid).ApprovalBuilt? then Set(s, rid, ConfirmApproval(At(s, rid).work, canonical, now)) else s
    case DoConfirmReady(rid, output, canonical, now) =>
      if At(s, rid).Cleared? then Set(s, rid, ConfirmReady(At(s, rid).work, output, canonical, now)) else s
    case DoSave(rid, now, victim, handover) => ApplySave(s, rid, now, victim, handover)
  }

  // Quote IDs are fresh random text: never empty, never issued twice.
  function ApplySaveQuote(
    s: State, search: QuoteRequest, final: QuoteFinal, searchStart: nat, now: nat, victim: Option<string>): State
  {
    var live := Pruned(s.store, now);
    if final.quoteId == "" || final.quoteId in s.history.started || !Evictable(live.quotes, victim) then s
    else
      var entry := Entry(QuoteRecord(search, final, {}), searchStart + RETENTION);
      s.(store := live.(quotes := Inserted(live.quotes, final.quoteId, entry, victim)),
         history := s.history.(started := s.history.started[final.quoteId := searchStart]))
  }

  predicate UsableSnapshot(chains: Chains, l: Progress, reading: Reading)
    requires l.Looked?
  {
    && reading.snapshot.Some?
    && reading.snapshot.value.timestamp != 0
    && ChainOf(l).Some? && ChainOf(l).value in chains
    && reading.snapshot.value.chainId == chains[ChainOf(l).value]
  }

  // The first-call path up to the allowance read. Preparation IDs are fresh random text.
  function ApplyBuild(chains: Chains, s: State, rid: nat, input: BuildInput, reading: Reading, now: nat): State {
    var l := At(s, rid);
    if !l.Looked? || l.prep.Some? || l.quote.None? || l.request.slippageBps >= 10000 || l.request.sender.None?
       || input.preparationId == "" || input.preparationId in s.history.frozen then s
    else if !UsableSnapshot(chains, l, reading) then Set(s, rid, Stopped(Rejected))
    else
      match Built(l, input, reading.snapshot.value)
      case Err(reason) => Set(s, rid, Stopped(if reason == "requote" then RequoteRequired else Rejected))
      case Ok(p) =>
        var frozen := Frozen(l.request.quoteId, p.chain, p.plan, p.response.terms, l.now + RETENTION);
        var history := s.history.(
          frozen := s.history.frozen[input.preparationId := frozen], born := s.history.born[rid := input.preparationId]);
        Set(s.(history := history), rid,
            Admit(false, l.request.quoteId, l.quote.value.expires, p, l.now + RETENTION, reading.snapshot.value, reading, now))
  }

  function ApplyRead(chains: Chains, s: State, rid: nat, reading: Reading, now: nat): State {
    var l := At(s, rid);
    if !l.Looked? || l.prep.None? then s
    else if !UsableSnapshot(chains, l, reading) then Set(s, rid, Stopped(Rejected))
    else Set(s, rid, Admit(true, "", 0, l.prep.value.value, l.prep.value.expires, reading.snapshot.value, reading, now))
  }

  // markApproval for a first call: allowance first, permission later.
  function ApplyMark(s: State, rid: nat, now: nat): State {
    match At(s, rid)
    case AllowanceRead(w) =>
      var r := Marked(s, rid, w, AllowanceKey(w.p), w.short, now);
      Set(r.0, rid, AllowanceMarked(w.(p := w.p.(approval := r.1)), r.2))
    case PermissionRead(w, required) =>
      if w.p.plan.permission.None? then s
      else
        var r := Marked(s, rid, w, PermissionKey(w.p, w.p.plan.permission.value), required, now);
        Set(r.0, rid,
            PermissionMarked(w.(p := w.p.(approval := w.p.approval || r.1)), required, r.2))
    case _ => s
  }

  // Observe and record under one lock: the new state, the previous mark and whether the quote is known.
  function Marked(s: State, rid: nat, w: Work, key: Key, required: bool, now: nat): (State, bool, bool) {
    var live := Pruned(s.store, now);
    var known := w.quoteId in live.quotes;
    var previous := known && key in live.quotes[w.quoteId].value.approvals;
    (s.(store := if known && required then Latched(live, w.quoteId, key) else live,
        marks := s.marks + [Mark(rid, w.Id(), w.quoteId, key, required, known)],
        history := if previous then s.history.(tainted := s.history.tainted + {w.Id()}) else s.history),
     previous, known)
  }

  // savePreparation, then the answer.
  function ApplySave(s: State, rid: nat, now: nat, victim: Option<string>, handover: Handover): State {
    var pc := At(s, rid);
    var live := Pruned(s.store, now);
    if !pc.Checked? || !Evictable(live.preparations, victim) then s
    else
      var id := pc.work.Id();
      var form := SavedForm(pc.work, pc.answer, handover);
      Set(s.(store := live.(preparations := Inserted(live.preparations, id, Entry(form, pc.work.expires), victim)),
             history := if id in s.history.kinds then s.history
                        else s.history.(kinds := s.history.kinds[id := KindOf(pc.answer)],
                                        kept := s.history.kept[id := form.response.terms]),
             answers := s.answers + [Issued(rid, pc.answer, pc.checkedAt, pc.work.short)]),
          rid, Answered(pc.answer))
  }

  function Run(chains: Chains, steps: seq<Step>): State {
    if steps == [] then EMPTY else Apply(chains, Run(chains, steps[..|steps| - 1]), steps[|steps| - 1])
  }
}
