// PrepareExecution as the engine runs it, on the heap: the store with its own copies, one call's local
// objects, updated in place between store operations, and every other object of the program. While the
// call waits for the network, other calls and searches work on the same store and every object outside
// the store and the call may be overwritten. Each of the call's actions is a step of the protocol over
// the contents of its objects, so whatever it answers is an answer of a protocol run.
module Preparer {
  import opened Messages
  import opened Numerals
  import opened Retention
  import opened PreparationProtocol
  import opened PreparationSafety
  import opened PreparationRecord
  import opened PreparationTheorems
  import opened CallReadings
  import opened QuoteStore

  datatype Reply = Invalid | Refusal(status: Status) | Answer(response: Message<Response>)

  // What a builder hands over: its own objects.
  datatype PlanCell = PlanCell(
    transaction: Message<Transaction>, spender: Address, permission: Message?<PermissionPlan>,
    checks: Message<SimulationChecks>)

  // The local variables of a call once its terms are known: the prepared form and the response under way.
  datatype Draft = Draft(
    recheck: bool, quoteId: string, quoteExpires: nat, p: PreparationCell, expires: nat, response: Message<Response>,
    snapshot: Snapshot, short: bool)

  // The objects of a prepared form without the selection, which stays the strategy's.
  ghost function FormObjects(p: PreparationCell): set<object> {
    PreparationObjects(p.(selection := null))
  }

  ghost function DraftObjects(d: Draft): set<object> {
    FormObjects(d.p) + {d.response as object}
  }

  // The prepared form as it was when its response was copied.
  ghost function CopiedForm(p: PreparationCell, copied: Terms): Preparation
    reads p.transaction, p.checks, p.response, p.permission
  {
    PreparationValue(p.(selection := null)).(response := p.response.value.(terms := copied))
  }

  ghost function WorkOf(d: Draft): Work
    reads d.p.transaction, d.p.checks, d.p.response, d.p.permission, d.response
  {
    Work(d.recheck, d.quoteId, d.quoteExpires, CopiedForm(d.p, d.response.value.terms), d.expires, d.response.value,
         d.snapshot, d.short)
  }

  // The response under way is another object than the prepared one, with the same terms up to the
  // selection; only a first call holds a strategy's selection.
  ghost predicate Copied(d: Draft)
    reads d.p.response, d.response
  {
    && d.response as object !in FormObjects(d.p) && (d.p.selection == null <==> d.recheck)
    && SameButSelection(d.p.response.value.terms, d.response.value.terms)
    && (d.recheck ==> d.response.value.terms == d.p.response.value.terms)
  }

  // The response is still the copy of the prepared one.
  ghost predicate Untouched(d: Draft)
    reads d.p.response, d.response
  {
    Copied(d) && d.response.value == d.p.response.value.(terms := d.response.value.terms)
  }

  // What the selection holds now.
  function HandedOver(p: PreparationCell): Handover
    reads p.selection
  {
    if p.selection == null then Handover(None, []) else p.selection.value
  }

  // A ready draft: what a save would copy now.
  lemma ReadyIsSaved(d: Draft, w: Work)
    requires Copied(d) && d.response.value.status == Ready && w.recheck == d.recheck
    requires w.p == CopiedForm(d.p, d.response.value.terms)
    ensures PreparationValue(d.p) == SavedForm(w, d.response.value, HandedOver(d.p))
  {}

  ghost function FoundObjects(q: Entry<FoundQuote>): set<object> {
    {q.value.request as object, q.value.final as object}
  }

  // A looked-up call, in terms of the copies the lookup returned.
  ghost predicate HasFound(l: Progress, r: PrepareRequest, now: nat, q: Option<Entry<FoundQuote>>,
                           p: Option<Entry<PreparationCell>>)
    reads if q.Some? then FoundObjects(q.value) else {}
    reads if p.Some? then PreparationObjects(p.value.value) else {}
  {
    && l.Looked? && l.request == r && l.now == now && (q.Some? <==> l.quote.Some?) && (p.Some? <==> l.prep.Some?)
    && (q.Some? ==>
          && l.quote.value.expires == q.value.expires && l.quote.value.value.request == q.value.value.request.value
          && l.quote.value.value.final == q.value.value.final.value)
    && (p.Some? ==> p.value.value.selection == null && l.prep.value == Entry(PreparationValue(p.value.value), p.value.expires))
  }

  ghost function PlanValue(p: PlanCell): Plan
    reads p.transaction, p.checks, p.permission
  {
    Plan(p.transaction.value, p.spender, if p.permission == null then None else Some(p.permission.value), p.checks.value)
  }

  ghost function PlanObjects(p: PlanCell): set<object> {
    {p.transaction as object, p.checks as object} + if p.permission == null then {} else {p.permission as object}
  }

  // The plan's objects are copied: the prepared form shares none with the builder. The selection in the
  // response stays the strategy's.
  method TakeOver(plan: PlanCell, response: Message<Response>, selection: Message<Handover>, chain: string)
    returns (p: PreparationCell)
    ensures p.response == response && p.selection == selection && fresh(FormObjects(p) - {response})
    ensures p.chain == chain && !p.approval
    ensures PreparationValue(p.(selection := null)) == Preparation(PlanValue(plan), response.value, chain, false)
  {
    var transaction := CloneOf(plan.transaction);
    var permission: Message?<PermissionPlan> := null;
    if plan.permission != null { permission := CloneOf(plan.permission); }
    var checks := CloneOf(plan.checks);
    p := PreparationCell(transaction, plan.spender, permission, checks, response, selection, chain, false);
  }

  // The objects of a builder's plan.
  method PlanOf(p: Plan) returns (c: PlanCell)
    ensures fresh(PlanObjects(c)) && PlanValue(c) == p
  {
    var transaction := new Message(p.transaction);
    var permission: Message?<PermissionPlan> := null;
    if p.permission.Some? { permission := new Message(p.permission.value); }
    var checks := new Message(p.checks);
    c := PlanCell(transaction, p.spender, permission, checks);
  }

  // The response the economic terms of a first call are frozen in.
  method FreshTerms(
      id: string, request: QuoteRequest, sender: Address, slippageBps: nat, selection: Selection, now: nat, timestamp: nat)
    returns (response: Message<Response>)
    requires slippageBps < 10000
    ensures fresh(response)
    ensures response.value == FreshResponse(id, request, sender, slippageBps, selection, now, timestamp)
  {
    hide UnixSeconds, Print, SlippageMinimum, Deadline;
    var minimum := SlippageMinimum(selection.output, slippageBps);
    var deadline := Deadline(timestamp);
    response := new Message(Response(
      Unspecified, "",
      Terms(id, UnixSeconds(now + RETENTION), Print(minimum), request.amountIn, request.tokenIn, request.tokenOut, sender,
            Print(deadline), selection.route, selection.allocations),
      None, None, None, None, None, ""));
  }

  // The execution block was read and is about the configured chain.
  predicate Usable(chains: Chains, key: string, snapshot: Snapshot) {
    snapshot.timestamp != 0 && key in chains && snapshot.chainId == chains[key]
  }

  // Where the readings of a recheck leave its call.
  function ReadResult(chains: Chains, l: Progress, reading: Reading, now: nat): Progress
    requires l.Looked? && l.prep.Some?
  {
    if !UsableSnapshot(chains, l, reading) then Stopped(Rejected)
    else Admit(true, "", 0, l.prep.value.value, l.prep.value.expires, reading.snapshot.value, reading, now)
  }

  lemma ReadMoves(chains: Chains, s: State, rid: nat, reading: Reading, now: nat)
    requires rid in s.requests && At(s, rid).Looked? && At(s, rid).prep.Some?
    ensures
      var s' := Apply(chains, s, DoRead(rid, reading, now));
      rid in s'.requests && s'.requests[rid] == ReadResult(chains, At(s, rid), reading, now)
  {
    hide Admit;
  }

  // A mark of the allowance, of the store and of the call.
  lemma AllowanceIsMarked(chains: Chains, s: State, rid: nat, now: nat)
    requires rid in s.requests && At(s, rid).AllowanceRead?
    ensures
      var w, s' := At(s, rid).work, Apply(chains, s, DoMark(rid, now));
      var live := Pruned(s.store, now);
      var known := w.quoteId in live.quotes;
      var previous := known && AllowanceKey(w.p) in live.quotes[w.quoteId].value.approvals;
      && s'.store == (if known && w.short then Latched(live, w.quoteId, AllowanceKey(w.p)) else live)
      && rid in s'.requests
      && s'.requests[rid] == AllowanceMarked(w.(p := w.p.(approval := previous)), known)
  {
    hide Live, Latched, AllowanceKey;
  }

  lemma PermissionIsMarked(chains: Chains, s: State, rid: nat, now: nat)
    requires rid in s.requests && At(s, rid).PermissionRead? && At(s, rid).work.p.plan.permission.Some?
    ensures
      var w, s' := At(s, rid).work, Apply(chains, s, DoMark(rid, now));
      var key := PermissionKey(w.p, w.p.plan.permission.value);
      var live := Pruned(s.store, now);
      var known := w.quoteId in live.quotes;
      var previous := known && key in live.quotes[w.quoteId].value.approvals;
      && s'.store == (if known && At(s, rid).required then Latched(live, w.quoteId, key) else live)
      && rid in s'.requests
      && s'.requests[rid]
         == PermissionMarked(w.(p := w.p.(approval := w.p.approval || previous)), At(s, rid).required, known)
  {
    hide Live, Latched, PermissionKey;
  }

  // The steps a call takes by itself between its readings, and where they lead.
  predicate MovesTo(chains: Chains, s: State, step: Step, pc: Progress) {
    match step
    case DoSettle(rid, now) =>
      && rid in s.requests && (s.requests[rid].AllowanceMarked? || s.requests[rid].PermissionMarked?)
      && pc == SettleMark(s.requests[rid], now)
    case DoAllowance(rid, required) =>
      rid in s.requests && s.requests[rid].AllowanceSettled? && pc == BranchAllowance(chains, s.requests[rid].work, required)
    case DoPermission(rid) =>
      && rid in s.requests && s.requests[rid].PermissionSettled?
      && pc == BranchPermission(chains, s.requests[rid].work, s.requests[rid].required)
    case DoConfirmApproval(rid, canonical, now) =>
      rid in s.requests && s.requests[rid].ApprovalBuilt? && pc == ConfirmApproval(s.requests[rid].work, canonical, now)
    case DoConfirmReady(rid, output, canonical, now) =>
      rid in s.requests && s.requests[rid].Cleared? && pc == ConfirmReady(s.requests[rid].work, output, canonical, now)
    case _ => false
  }

  lemma CallMoves(chains: Chains, s: State, step: Step, pc: Progress)
    requires MovesTo(chains, s, step, pc)
    ensures Apply(chains, s, step) == Set(s, step.rid, pc)
  {
    hide SettleMark, BranchAllowance, BranchPermission, ConfirmApproval, ConfirmReady;
  }

  lemma PreparedUnderItsId(p: PreparationCell, w: Work, answer: Response, handover: Handover)
    requires PreparationValue(p) == SavedForm(w, answer, handover)
    ensures p.response.value.terms.preparationId == w.Id()
  {}

  // The approval fields a response gains.
  ghost predicate Erc20Written(before: Response, after: Response, chainId: string, spender: Address) {
    after == before.(
      status := ApprovalRequired, message := "Approve the required amount, then request a fresh quote.",
      approvalSpender := Some(spender),
      approvalTransaction := Some(Transaction(
        chainId, before.terms.recipient, before.terms.tokenIn,
        Approve(spender, if IsDecimal(before.terms.amountIn) then Value(before.terms.amountIn) else 0), "0", "100000")))
  }

  method WriteErc20(response: Message<Response>, chainId: string, spender: Address)
    modifies response
    ensures Erc20Written(old(response.value), response.value, chainId, spender)
    ensures response.value.terms == old(response.value.terms) && response.value.status == ApprovalRequired
  {
    hide Value;
    var amount := if IsDecimal(response.value.terms.amountIn) then Value(response.value.terms.amountIn) else 0;
    response.value := response.value.(status := ApprovalRequired);
    response.value := response.value.(message := "Approve the required amount, then request a fresh quote.");
    response.value := response.value.(approvalSpender := Some(spender));
    response.value := response.value.(approvalTransaction := Some(Transaction(
      chainId, response.value.terms.recipient, response.value.terms.tokenIn, Approve(spender, amount), "0", "100000")));
  }

  lemma WrittenIsErc20(chains: Chains, w: Work, after: Response)
    requires w.response.terms == w.p.response.terms
    requires Erc20Written(w.response, after, if w.p.chain in chains then chains[w.p.chain] else "", w.p.plan.spender)
    ensures after == Erc20Answer(chains, w)
  {}

  // The permission fields a response gains.
  ghost predicate PermissionWritten(before: Response, after: Response, chainId: string, grant: PermissionPlan) {
    after == before.(
      status := ApprovalRequired, message := "Grant the required Permit2 permission, then request a fresh quote.",
      permission := Some(OnChainPermission(
        grant.target, grant.token, grant.spender, Print(grant.amount), Print(grant.expiration),
        Some(Transaction(
          chainId, before.terms.recipient, grant.target,
          PermitApprove(grant.token, grant.spender, grant.amount, grant.expiration), "0", "100000")))))
  }

  method WritePermission(response: Message<Response>, chainId: string, grant: PermissionPlan)
    modifies response
    ensures PermissionWritten(old(response.value), response.value, chainId, grant)
    ensures response.value.terms == old(response.value.terms) && response.value.status == ApprovalRequired
  {
    hide Print;
    response.value := response.value.(status := ApprovalRequired);
    response.value := response.value.(message := "Grant the required Permit2 permission, then request a fresh quote.");
    response.value := response.value.(permission := Some(OnChainPermission(
      grant.target, grant.token, grant.spender, Print(grant.amount), Print(grant.expiration),
      Some(Transaction(
        chainId, response.value.terms.recipient, grant.target,
        PermitApprove(grant.token, grant.spender, grant.amount, grant.expiration), "0", "100000")))));
  }

  lemma WrittenIsPermission(chains: Chains, w: Work, grant: PermissionPlan, after: Response)
    requires w.response.terms == w.p.response.terms
    requires PermissionWritten(w.response, after, if w.p.chain in chains then chains[w.p.chain] else "", grant)
    ensures after == PermissionAnswer(chains, w, grant)
  {
    hide Print;
  }

  lemma Received(chains: Chains, s: State, rid: nat, r: PrepareRequest)
    requires rid !in s.requests
    ensures
      Apply(chains, s, Receive(rid, r)) == Set(s, rid, if ValidRequest(r) then Arrived(r) else Stopped(Unspecified))
  {
    hide ValidRequest;
  }

  predicate Buildable(l: Progress) {
    && l.Looked? && l.prep.None? && l.quote.Some? && l.request.slippageBps < 10000 && l.request.sender.Some?
  }

  // Where a build leaves its call.
  function BuildResult(chains: Chains, l: Progress, input: BuildInput, reading: Reading, now: nat): Progress
    requires Buildable(l)
  {
    if !UsableSnapshot(chains, l, reading) then Stopped(Rejected)
    else match Built(l, input, reading.snapshot.value)
      case Err(reason) => Stopped(if reason == "requote" then RequoteRequired else Rejected)
      case Ok(p) =>
        Admit(false, l.request.quoteId, l.quote.value.expires, p, l.now + RETENTION, reading.snapshot.value, reading, now)
  }

  // The end of a build whose builder delivered: linkage, expiry and the allowance, in that order.
  lemma BuiltIsAdmitted(chains: Chains, l: Progress, input: BuildInput, p: Preparation, reading: Reading, now: nat)
    requires Buildable(l) && reading.snapshot.Some? && Usable(chains, l.quote.value.value.request.chain, reading.snapshot.value)
    requires Built(l, input, reading.snapshot.value) == Ok(p)
    ensures BuildResult(chains, l, input, reading, now)
         == Admit(false, l.request.quoteId, l.quote.value.expires, p, l.now + RETENTION, reading.snapshot.value, reading, now)
  {
    hide Built, Admit;
  }

  lemma BuiltAmount(l: Progress, input: BuildInput, snapshot: Snapshot, p: Preparation)
    requires Buildable(l) && Built(l, input, snapshot) == Ok(p)
    ensures p.response.terms.amountIn == input.request.amountIn
  {}

  predicate RouteKnown(l: Progress)
    requires l.Looked? && l.quote.Some?
  {
    l.request.routeId != "" ==> FindRoute(l.quote.value.value.final.routes, l.request.routeId).Some?
  }

  // A copy of the response taken while the selection is another one has the terms of that selection.
  lemma CopyFreezes(id: string, left: QuoteRequest, r: PrepareRequest, composed: Selection, copied: Selection, now: nat,
                    timestamp: nat)
    requires r.slippageBps < 10000 && r.sender.Some? && copied.output == composed.output
    ensures
      var before := FreshResponse(id, left, r.sender.value, r.slippageBps, composed, now, timestamp);
      FreshResponse(id, left, r.sender.value, r.slippageBps, copied, now, timestamp)
      == before.(terms := WithHandover(before.terms, Handover(copied.route, copied.allocations)))
  {
    hide UnixSeconds, Print, SlippageMinimum, Deadline;
  }

  // A build whose route is known, with a selection and a plan.
  lemma BuildSucceeds(chains: Chains, l: Progress, input: BuildInput, snapshot: Snapshot)
    requires Buildable(l) && RouteKnown(l) && input.canonical && input.selection.Some? && input.plan.Some?
    ensures
      var saved := l.quote.value.value;
      Built(l, input, snapshot) == Ok(Preparation(
        input.plan.value,
        FreshResponse(input.preparationId, input.request, l.request.sender.value, l.request.slippageBps,
                      input.selection.value, l.now, snapshot.timestamp),
        saved.request.chain, false))
  {
    hide FindRoute, FreshResponse;
  }

  // All a call is told, with the request it has.
  function InputOf(world: World, request: QuoteRequest, id: string): BuildInput {
    BuildInput(world.canonical, request, world.selection, id, world.plan)
  }

  // A build that fails before its terms are checked.
  lemma BuildFails(chains: Chains, l: Progress, input: BuildInput, world: World)
    requires Buildable(l) && Heard(input, world)
    ensures
      var result := BuildResult(chains, l, input, ReadingOf(world, input.request.amountIn), world.admittedAt);
      var usable := world.snapshot.Some? && Usable(chains, l.quote.value.value.request.chain, world.snapshot.value);
      && (!usable ==> result == Stopped(Rejected))
      && (usable && !world.canonical ==> result == Stopped(RequoteRequired))
      && (usable && world.canonical && (!RouteKnown(l) || world.selection.None? || world.plan.None?) ==>
            result == Stopped(Rejected))
  {
    hide FindRoute, Admit;
  }

  lemma BuildMoves(chains: Chains, s: State, rid: nat, input: BuildInput, reading: Reading, now: nat)
    requires rid in s.requests && Buildable(At(s, rid))
    requires input.preparationId != "" && input.preparationId !in s.history.frozen
    ensures
      var s' := Apply(chains, s, DoBuild(rid, input, reading, now));
      rid in s'.requests && s'.requests[rid] == BuildResult(chains, At(s, rid), input, reading, now)
  {
    hide Built, Admit;
  }

  lemma NoPermissionNeeded(chains: Chains, w: Work)
    ensures BranchPermission(chains, w, false) == Cleared(w)
  {}

  lemma StepsAreRecorded(chains: Chains, steps: seq<Step>, step: Step)
    ensures Run(chains, steps + [step]) == Apply(chains, Run(chains, steps), step)
  {
    assert (steps + [step])[..|steps|] == steps;
  }

  // A call about to save has an identifier.
  lemma CheckedHasId(chains: Chains, steps: seq<Step>, rid: nat)
    requires At(Run(chains, steps), rid).Checked?
    ensures At(Run(chains, steps), rid).work.Id() != ""
  {
    hide Run, ProgressOk, PreparationsOk, LatchOk, QuotesOk, MarksOk, TaintOk, AnswersOk, RequestsOk, BornOk;
    RunInv(chains, steps);
    CheckedFirst(chains, Run(chains, steps), rid);
  }

  lemma RoomAfterPruning(chains: Chains, steps: seq<Step>, now: nat)
    ensures var live := Pruned(Run(chains, steps).store, now);
            |live.quotes| <= STORE_LIMIT && |live.preparations| <= STORE_LIMIT
  {
    hide Run;
    BoundedStore(chains, steps);
    LiveSize(Run(chains, steps).store.quotes, now);
    LiveSize(Run(chains, steps).store.preparations, now);
  }

  lemma NoEmptyText(chains: Chains, steps: seq<Step>)
    ensures "" !in Run(chains, steps).store.quotes && "" !in Run(chains, steps).store.preparations
  {
    BoundedStore(chains, steps);
  }

  lemma SavedQuote(chains: Chains, s: State, search: QuoteRequest, final: QuoteFinal, searchStart: nat, now: nat,
                   victim: Option<string>)
    requires final.quoteId != "" && final.quoteId !in s.history.started && Evictable(Pruned(s.store, now).quotes, victim)
    ensures
      var s' := Apply(chains, s, SaveQuote(search, final, searchStart, now, victim));
      var live := Pruned(s.store, now);
      var entry := Entry(QuoteRecord(search, final, {}), searchStart + RETENTION);
      && s'.store == live.(quotes := Inserted(live.quotes, final.quoteId, entry, victim))
      && s'.requests == s.requests && s'.history.frozen == s.history.frozen
  {
    hide Live, Inserted, Evictable;
  }

  lemma SavedPreparation(chains: Chains, s: State, rid: nat, now: nat, victim: Option<string>, handover: Handover)
    requires At(s, rid).Checked? && Evictable(Pruned(s.store, now).preparations, victim)
    ensures
      var s' := Apply(chains, s, DoSave(rid, now, victim, handover));
      var w := At(s, rid).work;
      var form := SavedForm(w, At(s, rid).answer, handover);
      var live := Pruned(s.store, now);
      && s'.store == live.(preparations := Inserted(live.preparations, w.Id(), Entry(form, w.expires), victim))
      && s'.requests == s.requests[rid := Answered(At(s, rid).answer)] && s'.history.frozen == s.history.frozen
      && s'.answers == s.answers + [Issued(rid, At(s, rid).answer, At(s, rid).checkedAt, w.short)]
  {
    hide Live, Inserted, Evictable, KindOf, SavedForm;
  }

  lemma LocalStepsLeaveTheStore(chains: Chains, s: State, step: Step)
    requires !step.SaveQuote? && !step.DoLookup? && !step.DoMark? && !step.DoSave?
    ensures Apply(chains, s, step).store == s.store
  {
    hide Lookup, Admit, Built, SettleMark, BranchAllowance, BranchPermission, ConfirmApproval, ConfirmReady, UsableSnapshot;
  }

  // A step moves its own call and freezes at most the text its build was given, whichever entry a
  // save of it evicts.
  lemma StepEffects(chains: Chains, s: State, step: Step)
    ensures forall rid :: rid in s.requests && Caller(step) != Some(rid) ==>
              rid in Apply(chains, s, step).requests && Apply(chains, s, step).requests[rid] == s.requests[rid]
    ensures forall id :: id in Apply(chains, s, step).history.frozen && id !in s.history.frozen ==>
              step.DoBuild? && step.input.preparationId == id
  {
    hide Lookup, Admit, Built, SettleMark, BranchAllowance, BranchPermission, ConfirmApproval, ConfirmReady, Evictable,
      UsableSnapshot, Inserted, Live, Latched;
  }

  // Text no set of texts contains.
  method Unused(taken: set<string>) returns (id: string)
    ensures id != "" && id !in taken
  {
    var left := taken;
    var longest := 0;
    while left != {}
      invariant left <= taken && 0 <= longest
      invariant forall known :: known in taken && known !in left ==> |known| <= longest
      decreases |left|
    {
      var known :| known in left;
      if |known| > longest { longest := |known|; }
      left := left - {known};
    }
    id := seq(longest + 1, _ => 'A');
  }

  class Engine {
    const chains: Chains
    const store: Store
    // What each call is told by the clock, the network, its strategy and builder, and the simulator.
    const world: nat -> World
    // Where every call stands and what has been answered. A call decides nothing by it: it reads its own
    // objects and the store; only the freshness of random text is read off here.
    var state: State
    ghost var steps: seq<Step>
    // Every object that is neither the store's nor the running call's own.
    ghost var outside: set<object>

    // The state of all calls, the contents of the store included, is that of a run of the protocol; and
    // nothing outside is an object of the store.
    ghost predicate Valid()
      reads this, store, store.Repr()
    {
      && store.Valid() && this !in store.Repr()
      && state == Run(chains, steps) && state.store == store.Contents
      && outside !! store.Repr() && store !in outside && this !in outside
    }

    constructor (chains: Chains, world: nat -> World)
      ensures Valid() && fresh(store) && fresh(store.Repr()) && this.chains == chains && this.world == world
      ensures state == EMPTY && steps == [] && outside == {}
    {
      this.chains := chains;
      this.world := world;
      store := new Store();
      state, steps, outside := EMPTY, [], {};
    }

    // Objects that are the call's own.
    ghost predicate Own(own: set<object>)
      reads this, store
    {
      own !! outside && own !! store.Repr() && this !in own && store !in own
    }

    // What an operation that may hand out the given objects leaves behind.
    twostate predicate Grown(given: set<object>)
      reads this, store
    {
      && old(steps) <= steps && fresh(store.Repr() - old(store.Repr()))
      && old(outside) <= outside && fresh(outside - old(outside) - given)
    }

    // The call is where the protocol says it is, by steps that carry what it was told.
    ghost predicate Stands(rid: nat, pc: Progress)
      reads this, store, store.Repr()
    {
      Valid() && rid in state.requests && state.requests[rid] == pc && Told(chains, steps, rid, world(rid))
    }

    // Nobody but the actor has been told anything more.
    twostate predicate OthersUntold(actor: Option<nat>)
      reads this
    {
      forall rid: nat ::
        Some(rid) != actor && Told(chains, old(steps), rid, world(rid)) ==> Told(chains, steps, rid, world(rid))
    }

    // The call was answered, the answer is on the protocol's record, and the caller has the object.
    ghost predicate Replied(rid: nat, response: Message<Response>)
      reads this, store, store.Repr(), response
    {
      Stands(rid, Answered(response.value)) && response in outside && OnRecord(state.answers, rid, response.value)
    }

    // The call's draft is its own but for the strategy's selection, and its response still the copy of the
    // prepared one.
    ghost predicate Drafted(d: Draft)
      reads this, store, d.p.response, d.response
    {
      Own(DraftObjects(d)) && Untouched(d) && (d.p.selection != null ==> d.p.selection in outside)
    }

    // The call stopped, for the reason the reply gives.
    ghost predicate Refused(rid: nat, reply: Reply)
      reads this, store, store.Repr()
    {
      && !reply.Answer? && (reply.Refusal? ==> reply.status != Unspecified)
      && Stands(rid, Stopped(if reply.Refusal? then reply.status else Rejected))
    }

    // The call is over: answered, or stopped for the reason the reply gives.
    ghost predicate Done(rid: nat, reply: Reply)
      reads this, store, store.Repr(), if reply.Answer? then {reply.response} else {}
    {
      if reply.Answer? then Replied(rid, reply.response) else Refused(rid, reply)
    }

    // The protocol's view of what has just happened.
    method Take(step: Step)
      requires state == Run(chains, steps)
      modifies `state, `steps
      ensures state == Run(chains, steps) && state == Apply(chains, old(state), step) && steps == old(steps) + [step]
      ensures OthersUntold(Caller(step))
      ensures forall rid: nat ::
                Caller(step) == Some(rid) && Told(chains, old(steps), rid, world(rid)) && Tells(old(state), step, world(rid))
                ==> Told(chains, steps, rid, world(rid))
    {
      hide Run, Apply, Told, Tells;
      StepsAreRecorded(chains, steps, step);
      forall rid: nat | Told(chains, steps, rid, world(rid))
                   && (Caller(step) == Some(rid) ==> Tells(state, step, world(rid)))
        ensures Told(chains, steps + [step], rid, world(rid)) {
        ToldStep(chains, steps, step, rid, world(rid));
      }
      state := Apply(chains, state, step);
      steps := steps + [step];
    }

    // The store has just been through a step of this call that is not on the record yet.
    ghost predicate Behind(step: Step)
      reads this, store, store.Repr()
    {
      && store.Valid() && this !in store.Repr()
      && state == Run(chains, steps) && Apply(chains, state, step).store == store.Contents
      && outside !! store.Repr() && store !in outside && this !in outside
    }

    method Record(rid: nat, step: Step, ghost pc: Progress)
      requires Behind(step) && Caller(step) == Some(rid) && Told(chains, steps, rid, world(rid))
      requires Tells(state, step, world(rid))
      requires rid in Apply(chains, state, step).requests && Apply(chains, state, step).requests[rid] == pc
      modifies `state, `steps
      ensures Stands(rid, pc) && state == Apply(chains, old(state), step) && steps == old(steps) + [step]
    {
      hide Store.Valid, Run, Apply, Told, Tells;
      Take(step);
    }

    // ---------- other calls and searches ----------

    // A search ends: its quote is saved under fresh random text.
    method OtherSaveQuote(search: QuoteRequest, final: QuoteFinal, searchStart: nat, now: nat)
      requires Valid()
      modifies `state, `steps, `outside, store
      ensures Valid() && Grown({}) && OthersUntold(None)
      ensures state.requests == old(state.requests) && state.history.frozen == old(state.history.frozen)
    {
      hide Store.Valid, Run, Inserted, Evictable, Apply, Pruned, Told;
      if final.quoteId == "" || final.quoteId in state.history.started { return; }
      RoomAfterPruning(chains, steps, now);
      var r := new Message(search);
      var f := new Message(final);
      var victim := store.SaveQuote(r, f, searchStart, now);
      SavedQuote(chains, state, search, final, searchStart, now, victim);
      Take(SaveQuote(search, final, searchStart, now, victim));
      outside := outside + {r, f};
    }

    method OtherLookup(rid: nat, now: nat)
      requires Valid() && At(state, rid).Arrived?
      modifies `state, `steps, `outside, store
      ensures Valid() && Grown({}) && OthersUntold(Some(rid)) && state == Apply(chains, old(state), DoLookup(rid, now))
    {
      hide Store.Valid, PreparationObjects, PreparationValue, Told, Tells, Run, Live, Lookup, ApplySaveQuote, ApplyBuild,
           ApplyRead, ApplyMark, ApplySave;
      var request := At(state, rid).request;
      var q, p := store.Lookup(request.quoteId, request.preparationId, now);
      Take(DoLookup(rid, now));
      if q.Some? { outside := outside + FoundObjects(q.value); }
      if p.Some? { outside := outside + PreparationObjects(p.value.value); }
    }

    // markApproval on the store: only the approvals of one quote can change.
    method MarkStored(quoteId: string, key: Key, required: bool, now: nat) returns (previous: bool, found: bool)
      requires store.Valid()
      modifies store, store.Repr()
      ensures store.Valid() && store.Repr() == old(store.Repr())
      ensures
        var live := Pruned(old(store.Contents), now);
        && found == (quoteId in live.quotes)
        && previous == (found && key in live.quotes[quoteId].value.approvals)
        && store.Contents == if found && required then Latched(live, quoteId, key) else live
    {
      hide HoldsQuotes, HoldsPreparations, Live, Latched;
      QuotesHeld(store.quotes, store.Contents.quotes, store.QuoteRepr);
      previous, found := store.MarkApproval(quoteId, key, required, now);
    }

    method OtherMark(rid: nat, now: nat)
      requires Valid()
      modifies `state, `steps, store, store.Repr()
      ensures Valid() && Grown({}) && OthersUntold(Some(rid)) && state == Apply(chains, old(state), DoMark(rid, now))
    {
      hide Told, Tells, HoldsQuotes, HoldsPreparations, Run, Live, Latched, AllowanceKey, PermissionKey;
      var pc := At(state, rid);
      if pc.AllowanceRead? {
        var _, _ := MarkStored(pc.work.quoteId, AllowanceKey(pc.work.p), pc.work.short, now);
      } else if pc.PermissionRead? && pc.work.p.plan.permission.Some? {
        var grant := pc.work.p.plan.permission.value;
        var _, _ := MarkStored(pc.work.quoteId, PermissionKey(pc.work.p, grant), pc.required, now);
      }
      Take(DoMark(rid, now));
    }

    // savePreparation: the store keeps copies, of the selection as the strategy has left it.
    method StoreForm(rid: nat, p: PreparationCell, expires: nat, now: nat, handover: Handover) returns (step: Step)
      requires Valid() && At(state, rid).Checked? && At(state, rid).work.expires == expires
      requires PreparationValue(p) == SavedForm(At(state, rid).work, At(state, rid).answer, handover)
      modifies store
      ensures Behind(step) && fresh(store.Repr() - old(store.Repr())) && step.DoSave?
      ensures step == DoSave(rid, now, step.victim, handover)
      ensures
        var pc, after := At(state, rid), Apply(chains, state, step);
        && after.requests == state.requests[rid := Answered(pc.answer)] && after.history.frozen == state.history.frozen
        && after.answers == state.answers + [Issued(rid, pc.answer, pc.checkedAt, pc.work.short)]
    {
      hide Store.Valid, Run, Pruned, Inserted, Evictable, PreparationValue, Apply, SavedForm;
      ghost var pc := At(state, rid);
      CheckedHasId(chains, steps, rid);
      PreparedUnderItsId(p, pc.work, pc.answer, handover);
      RoomAfterPruning(chains, steps, now);
      var victim := store.SavePreparation(p, expires, now);
      SavedPreparation(chains, state, rid, now, victim, handover);
      step := DoSave(rid, now, victim, handover);
    }

    method OtherSave(rid: nat, now: nat, handover: Handover)
      requires Valid() && At(state, rid).Checked?
      modifies `state, `steps, `outside, store
      ensures Valid() && Grown({}) && OthersUntold(Some(rid)) && state.history.frozen == old(state.history.frozen)
      ensures forall other :: other in old(state.requests) && other != rid ==>
                other in state.requests && state.requests[other] == old(state.requests[other])
    {
      hide Store.Valid, Run, PreparationValue, SavedForm, Apply, Told, Tells;
      var w := At(state, rid).work;
      var cell := CellOf(SavedForm(w, At(state, rid).answer, handover));
      var step := StoreForm(rid, cell, w.expires, now, handover);
      Take(step);
      outside := outside + PreparationObjects(cell);
    }

    // One step of another call or search, on the heap where it touches the store.
    method OtherStep(step: Step)
      requires Valid()
      modifies `state, `steps, `outside, store, store.Repr()
      ensures Valid() && Grown({}) && OthersUntold(Caller(step))
      ensures forall rid :: rid in old(state.requests) && Caller(step) != Some(rid) ==>
                rid in state.requests && state.requests[rid] == old(state.requests[rid])
      ensures forall id :: id in state.history.frozen && id !in old(state.history.frozen) ==>
                step.DoBuild? && step.input.preparationId == id
    {
      hide Store.Valid, Run, Apply, Told, Tells;
      StepEffects(chains, state, step);
      match step {
        case SaveQuote(search, final, searchStart, now, _) => OtherSaveQuote(search, final, searchStart, now);
        case DoLookup(rid, now) => if At(state, rid).Arrived? { OtherLookup(rid, now); }
        case DoMark(rid, now) => OtherMark(rid, now);
        case DoSave(rid, now, _, handover) => if At(state, rid).Checked? { OtherSave(rid, now, handover); }
        case _ =>
          LocalStepsLeaveTheStore(chains, state, step);
          Take(step);
      }
    }

    // Anything other calls, searches, builders and callers do meanwhile: any number of steps, and every
    // object outside overwritten at will. The call's own objects are left alone, and no other call is
    // given the text the call has drawn for its preparation.
    method Others(rid: nat, ghost pc: Progress, ghost own: set<object>, drawn: string)
      requires Stands(rid, pc) && Own(own)
      modifies `state, `steps, `outside, store, store.Repr(), outside
      ensures Stands(rid, pc) && Own(own) && Grown({})
      ensures drawn !in old(state.history.frozen) ==> drawn !in state.history.frozen
    {
      hide Store.Valid, Run, Apply, Told;
      var count: nat := *;
      while count > 0
        invariant Stands(rid, pc) && Own(own) && Grown({})
        invariant drawn !in old(state.history.frozen) ==> drawn !in state.history.frozen
      {
        var step: Step := *;
        if Caller(step) != Some(rid) && !(step.DoBuild? && step.input.preparationId == drawn) { OtherStep(step); }
        modify outside;
        count := count - 1;
      }
    }

    // The same, for a call that holds what the store returned for its quote.
    method OthersBesideFound(rid: nat, ghost l: Progress, r: PrepareRequest, now: nat, q: Entry<FoundQuote>)
      requires Stands(rid, l) && HasFound(l, r, now, Some(q), None) && Own(FoundObjects(q))
      modifies `state, `steps, `outside, store, store.Repr(), outside
      ensures Stands(rid, l) && HasFound(l, r, now, Some(q), None) && Own(FoundObjects(q)) && Grown({})
    {
      hide Store.Valid, Valid, Stands, Run;
      Others(rid, l, FoundObjects(q), "");
    }

    // While a draft is under way nobody else can change its contents.
    method Meanwhile(rid: nat, ghost pc: Progress, d: Draft, drawn: string)
      requires Stands(rid, pc) && Own(DraftObjects(d))
      modifies `state, `steps, `outside, store, store.Repr(), outside
      ensures Stands(rid, pc) && Own(DraftObjects(d)) && Grown({})
      ensures WorkOf(d) == old(WorkOf(d)) && (old(Copied(d)) ==> Copied(d)) && (old(Untouched(d)) ==> Untouched(d))
      ensures drawn !in old(state.history.frozen) ==> drawn !in state.history.frozen
    {
      hide Store.Valid, Valid, Stands, Run;
      Others(rid, pc, DraftObjects(d), drawn);
    }

    // rand.Text: nonempty text no preparation has been given before.
    method FreshId() returns (id: string)
      ensures id != "" && id !in state.history.frozen
    {
      id := Unused(state.history.frozen.Keys);
    }

    // ---------- lookup ----------

    // One locked lookup: copies of what the store holds for the request at the reading of the clock.
    method LookUp(rid: nat, r: PrepareRequest, now: nat)
      returns (found: bool, q: Option<Entry<FoundQuote>>, p: Option<Entry<PreparationCell>>, ghost l: Progress)
      requires Stands(rid, Arrived(r)) && now == world(rid).lookupAt
      modifies `state, `steps, store
      ensures Stands(rid, l) && Grown({})
      ensures !found ==> l == Stopped(RequoteRequired)
      ensures found ==> HasFound(l, r, now, q, p) && if r.preparationId != "" then p.Some? else p.None? && q.Some?
      ensures q.Some? ==> fresh(FoundObjects(q.value)) && Own(FoundObjects(q.value))
      ensures p.Some? ==> fresh(PreparationObjects(p.value.value)) && Own(PreparationObjects(p.value.value))
    {
      hide Store.Valid, Run, Live, PreparationValue, Told, ApplySaveQuote, ApplyBuild, ApplyRead, ApplyMark, ApplySave;
      q, p := store.Lookup(r.quoteId, r.preparationId, now);
      Take(DoLookup(rid, now));
      NoEmptyText(chains, steps);
      l := state.requests[rid];
      found := if r.preparationId != "" then p.Some? else q.Some?;
    }

    // ---------- the execution block ----------

    method ReadBlock(rid: nat, ghost pc: Progress, ghost own: set<object>, key: string) returns (snapshot: Option<Snapshot>)
      requires Stands(rid, pc) && Own(own)
      modifies `state, `steps, `outside, store, store.Repr(), outside
      ensures Stands(rid, pc) && Own(own) && Grown({})
      ensures snapshot.Some? ==> Usable(chains, key, snapshot.value) && snapshot == world(rid).snapshot
      ensures snapshot.None? ==> world(rid).snapshot.None? || !Usable(chains, key, world(rid).snapshot.value)
    {
      hide Store.Valid, Run;
      if key !in chains { return None; }
      Others(rid, pc, own, "");
      snapshot := world(rid).snapshot;
      if snapshot.Some? && (snapshot.value.timestamp == 0 || snapshot.value.chainId != chains[key]) { return None; }
    }

    // ---------- the terms of a first call ----------

    // The step carries everything the call is told, also what it need not have asked for.
    method TakeBuild(rid: nat, ghost l: Progress, input: BuildInput)
      requires Stands(rid, l) && Buildable(l) && input.preparationId != "" && input.preparationId !in state.history.frozen
      requires Heard(input, world(rid))
      modifies `state, `steps
      ensures Stands(rid, BuildResult(chains, l, input, ReadingOf(world(rid), input.request.amountIn), world(rid).admittedAt))
      ensures Grown({})
    {
      hide Store.Valid, Run, Apply, BuildResult, Told;
      var reading, now := ReadingOf(world(rid), input.request.amountIn), world(rid).admittedAt;
      BuildMoves(chains, state, rid, input, reading, now);
      LocalStepsLeaveTheStore(chains, state, DoBuild(rid, input, reading, now));
      Take(DoBuild(rid, input, reading, now));
    }

    // The strategy is shown what the lookup returned, and everything it was shown or has handed over stays
    // with it. What it hands over is its own object.
    method Select(rid: nat, ghost l: Progress, saved: Entry<FoundQuote>)
      returns (handed: Option<Message<Handover>>, output: nat)
      requires Stands(rid, l) && Own(FoundObjects(saved))
      modifies `state, `steps, `outside, store, store.Repr(), outside, FoundObjects(saved)
      ensures Stands(rid, l) && Grown(FoundObjects(saved)) && (handed.Some? ==> handed.value in outside)
      ensures handed.Some? <==> world(rid).selection.Some?
      ensures handed.Some? ==> output == world(rid).selection.value.output
    {
      hide Store.Valid, Run, Told;
      outside := outside + FoundObjects(saved);
      Others(rid, l, {}, "");
      var says := world(rid).selection;
      if says.None? { return None, 0; }
      var selection := new Message(Handover(says.value.route, says.value.allocations));
      outside := outside + {selection};
      handed, output := Some(selection), says.value.output;
    }

    // The selected builder works on a copy of the response and hands over objects it may keep.
    method Build(rid: nat, ghost pc: Progress, response: Message<Response>, handed: Message<Handover>)
      returns (plan: Option<PlanCell>)
      requires Stands(rid, pc) && Own({response})
      modifies `outside, outside
      ensures Stands(rid, pc) && Own({response}) && Grown({}) && state == old(state)
      ensures response.value == old(response.value)
      ensures plan.Some? <==> world(rid).plan.Some?
      ensures plan.Some? ==> fresh(PlanObjects(plan.value)) && PlanValue(plan.value) == world(rid).plan.value
    {
      hide Store.Valid, Run, Told;
      ShowBuilder(response, handed);
      var says := world(rid).plan;
      if says.None? { return None; }
      var p := PlanOf(says.value);
      outside := outside + PlanObjects(p);
      plan := Some(p);
    }

    // The builder's copy is out of the engine's hands, to be overwritten with everything else outside.
    method ShowBuilder(response: Message<Response>, handed: Message<Handover>)
      requires Valid() && response !in outside
      modifies `outside, outside
      ensures Valid() && Grown({}) && state == old(state)
      ensures store.Repr() == old(store.Repr())
    {
      hide Store.Valid, Run;
      var copy := CloneResponse(response, handed);
      outside := outside + {copy};
      modify outside;
    }

    // Selection, rounding, deadline and the builder; then linkage, expiry and the allowance reading.
    method FirstTerms(
        rid: nat, ghost l: Progress, r: PrepareRequest, now: nat, saved: Entry<FoundQuote>, snapshot: Snapshot)
      returns (stop: Option<Reply>, d: Option<Draft>)
      requires Stands(rid, l) && HasFound(l, r, now, Some(saved), None) && Buildable(l) && Own(FoundObjects(saved))
      requires world(rid).snapshot == Some(snapshot) && Usable(chains, saved.value.request.value.chain, snapshot)
      modifies `state, `steps, `outside, store, store.Repr(), outside, FoundObjects(saved)
      ensures Grown(FoundObjects(saved)) && (stop.None? <==> d.Some?) && (stop.Some? ==> Refused(rid, stop.value))
      ensures d.Some? ==> Stands(rid, AllowanceRead(WorkOf(d.value))) && Drafted(d.value)
      ensures d.Some? ==> !d.value.recheck && fresh(d.value.response)
    {
      hide Store.Valid, Valid, Stands, Own, Run, Apply, FindRoute, BuildResult, WorkOf, Untouched, DraftObjects,
           FoundObjects;
      OthersBesideFound(rid, l, r, now, saved);
      ghost var before := outside;
      if !world(rid).canonical {
        var id := FreshId();
        var input := InputOf(world(rid), saved.value.request.value, id);
        BuildFails(chains, l, input, world(rid));
        TakeBuild(rid, l, input);
        return Some(Refusal(RequoteRequired)), None;
      }
      if r.routeId != "" && FindRoute(saved.value.final.value.routes, r.routeId).None? {
        var id := FreshId();
        var input := InputOf(world(rid), saved.value.request.value, id);
        BuildFails(chains, l, input, world(rid));
        TakeBuild(rid, l, input);
        return Some(Invalid), None;
      }
      stop, d := SelectTerms(rid, l, r, now, saved, saved.value.request.value.chain, snapshot);
      assert outside - old(outside) - FoundObjects(saved)
          <= (outside - before - FoundObjects(saved)) + (before - old(outside));
    }

    method SelectTerms(
        rid: nat, ghost l: Progress, r: PrepareRequest, now: nat, saved: Entry<FoundQuote>, chain: string,
        snapshot: Snapshot)
      returns (stop: Option<Reply>, d: Option<Draft>)
      requires Stands(rid, l) && Buildable(l) && RouteKnown(l) && Own(FoundObjects(saved)) && world(rid).canonical
      requires l.request == r && l.now == now && l.quote.value.value.request.chain == chain
      requires l.quote.value.expires == saved.expires && Usable(chains, chain, snapshot)
      requires world(rid).snapshot == Some(snapshot)
      modifies `state, `steps, `outside, store, store.Repr(), outside, FoundObjects(saved)
      ensures Grown(FoundObjects(saved)) && (stop.None? <==> d.Some?) && (stop.Some? ==> Refused(rid, stop.value))
      ensures d.Some? ==> Stands(rid, AllowanceRead(WorkOf(d.value))) && Drafted(d.value)
      ensures d.Some? ==> !d.value.recheck && fresh(d.value.response)
    {
      hide Store.Valid, Valid, Stands, Own, Run, Apply, FindRoute, BuildResult, WorkOf, Untouched, DraftObjects;
      var handed, output := Select(rid, l, saved);
      if handed.None? {
        var id := FreshId();
        var input := InputOf(world(rid), saved.value.request.value, id);
        BuildFails(chains, l, input, world(rid));
        TakeBuild(rid, l, input);
        return Some(Refusal(Rejected)), None;
      }
      stop, d := BuildTerms(
        rid, l, r, now, saved.value.request, chain, saved.expires, snapshot, handed.value, output);
    }

    // The response the terms are frozen in, composed of what the strategy has left of the request and handed
    // over, and the builder's plan.
    method BuildTerms(
        rid: nat, ghost l: Progress, r: PrepareRequest, now: nat, request: Message<QuoteRequest>, chain: string,
        quoteExpires: nat, snapshot: Snapshot, handed: Message<Handover>, output: nat)
      returns (stop: Option<Reply>, d: Option<Draft>)
      requires Stands(rid, l) && Buildable(l) && RouteKnown(l) && l.request == r && l.now == now && handed in outside
      requires l.quote.value.value.request.chain == chain && l.quote.value.expires == quoteExpires
      requires Usable(chains, chain, snapshot) && world(rid).snapshot == Some(snapshot) && world(rid).canonical
      requires world(rid).selection.Some? && world(rid).selection.value.output == output
      modifies `state, `steps, `outside, store, store.Repr(), outside
      ensures Grown({}) && (stop.None? <==> d.Some?) && (stop.Some? ==> Refused(rid, stop.value))
      ensures d.Some? ==> Stands(rid, AllowanceRead(WorkOf(d.value))) && Drafted(d.value)
      ensures d.Some? ==> !d.value.recheck && fresh(d.value.response)
    {
      hide Store.Valid, Valid, Stands, Run, Apply, BuildResult, Built, WorkOf, Drafted, Usable, FreshResponse, RouteKnown,
           PlanObjects, PreparationValue;
      var id := FreshId();
      var left := request.value;
      var selection := Selection(handed.value.route, handed.value.allocations, output);
      var response := FreshTerms(id, left, r.sender.value, r.slippageBps, selection, now, snapshot.timestamp);
      var plan := Build(rid, l, response, handed);
      if plan.None? {
        var input := InputOf(world(rid), left, id);
        BuildFails(chains, l, input, world(rid));
        TakeBuild(rid, l, input);
        return Some(Refusal(Rejected)), None;
      }
      stop, d := FreezePlan(rid, l, r, now, left, chain, response, handed, plan.value, id, selection, quoteExpires, snapshot);
    }

    // The prepared form: the response with the selection in it, and the engine's own copies of the plan. The
    // terms of the call are those of the response's copy.
    method FreezePlan(
        rid: nat, ghost l: Progress, r: PrepareRequest, now: nat, left: QuoteRequest, chain: string,
        response: Message<Response>, handed: Message<Handover>, plan: PlanCell, id: string, composed: Selection,
        quoteExpires: nat, snapshot: Snapshot)
      returns (stop: Option<Reply>, d: Option<Draft>)
      requires Stands(rid, l) && Buildable(l) && RouteKnown(l) && Own({response}) && l.request == r && l.now == now
      requires l.quote.value.value.request.chain == chain && l.quote.value.expires == quoteExpires
      requires Usable(chains, chain, snapshot) && id != "" && id !in state.history.frozen && handed in outside
      requires world(rid).snapshot == Some(snapshot) && world(rid).canonical
      requires world(rid).selection.Some? && world(rid).selection.value.output == composed.output
      requires world(rid).plan == Some(PlanValue(plan))
      requires response.value
            == FreshResponse(id, left, r.sender.value, r.slippageBps, composed, now, snapshot.timestamp)
      modifies `state, `steps, `outside, store, store.Repr(), outside
      ensures Grown({}) && (stop.None? <==> d.Some?) && (stop.Some? ==> Refused(rid, stop.value))
      ensures d.Some? ==> Stands(rid, AllowanceRead(WorkOf(d.value))) && Drafted(d.value)
      ensures d.Some? ==> !d.value.recheck && fresh(d.value.response)
    {
      hide Store.Valid, Valid, Stands, Run, Apply, BuildResult, Built, FreshResponse, RouteKnown, PreparationValue;
      var p := TakeOver(plan, response, handed, chain);
      var copy := CloneResponse(p.response, p.selection);
      var selection := Selection(copy.value.terms.route, copy.value.terms.allocations, composed.output);
      var input := BuildInput(true, left, Some(selection), id, world(rid).plan);
      CopyFreezes(id, left, r, composed, selection, now, snapshot.timestamp);
      BuildSucceeds(chains, l, input, snapshot);
      var draft := Draft(false, r.quoteId, quoteExpires, p, now + RETENTION, copy, snapshot, false);
      stop, d := AdmitTerms(rid, l, draft, input);
    }

    // A first call whose terms are known, with its input and its place.
    ghost predicate Admissible(rid: nat, l: Progress, draft: Draft, input: BuildInput)
      reads this, draft.p.transaction, draft.p.checks, draft.p.response, draft.p.permission, draft.response
    {
      && Buildable(l) && Usable(chains, l.quote.value.value.request.chain, draft.snapshot)
      && input.preparationId != "" && input.preparationId !in state.history.frozen && Heard(input, world(rid))
      && world(rid).snapshot == Some(draft.snapshot)
      && Built(l, input, draft.snapshot) == Ok(WorkOf(draft).p) && !draft.recheck
      && draft.quoteId == l.request.quoteId && draft.quoteExpires == l.quote.value.expires
      && draft.expires == l.now + RETENTION
    }

    // Where the readings of a first call leave it.
    ghost function Admitted(rid: nat, draft: Draft): Progress
      reads draft.p.transaction, draft.p.checks, draft.p.response, draft.p.permission, draft.response
    {
      Admit(false, draft.quoteId, draft.quoteExpires, WorkOf(draft).p, draft.expires, draft.snapshot,
            ReadingOf(world(rid), draft.response.value.terms.amountIn), world(rid).admittedAt)
    }

    method TakeAdmission(rid: nat, ghost l: Progress, draft: Draft, input: BuildInput)
      requires Stands(rid, l) && Admissible(rid, l, draft, input)
      modifies `state, `steps
      ensures Stands(rid, Admitted(rid, draft)) && Grown({})
    {
      hide Store.Valid, Valid, Stands, Run, Apply, Built, BuildResult, Admit, PreparationValue;
      var reading, now := ReadingOf(world(rid), input.request.amountIn), world(rid).admittedAt;
      BuiltAmount(l, input, draft.snapshot, WorkOf(draft).p);
      BuiltIsAdmitted(chains, l, input, WorkOf(draft).p, reading, now);
      TakeBuild(rid, l, input);
    }

    // Linkage, expiry and the allowance of a first call.
    method AdmitTerms(rid: nat, ghost l: Progress, draft: Draft, input: BuildInput)
      returns (stop: Option<Reply>, d: Option<Draft>)
      requires Stands(rid, l) && Drafted(draft) && Admissible(rid, l, draft, input)
      modifies `state, `steps, `outside, store, store.Repr(), outside
      ensures Grown({}) && (stop.None? <==> d.Some?) && (stop.Some? ==> Refused(rid, stop.value))
      ensures d.Some? ==> Stands(rid, AllowanceRead(WorkOf(d.value))) && Drafted(d.value)
      ensures d.Some? ==> !d.value.recheck && d.value.p == draft.p && d.value.response == draft.response
    {
      hide Store.Valid, Valid, Stands, Own, Run, Apply, Built, BuildResult, DraftObjects, WorkOf, Untouched;
      Meanwhile(rid, l, draft, input.preparationId);
      if !world(rid).verified {
        TakeAdmission(rid, l, draft, input);
        return Some(Refusal(Rejected)), None;
      }
      stop, d := ReadAllowance(rid, l, draft, input);
    }

    method ReadAllowance(rid: nat, ghost l: Progress, draft: Draft, input: BuildInput)
      returns (stop: Option<Reply>, d: Option<Draft>)
      requires Stands(rid, l) && Drafted(draft) && Admissible(rid, l, draft, input) && world(rid).verified
      modifies `state, `steps, `outside, store, store.Repr(), outside
      ensures Grown({}) && (stop.None? <==> d.Some?) && (stop.Some? ==> Refused(rid, stop.value))
      ensures d.Some? ==> Stands(rid, AllowanceRead(WorkOf(d.value))) && Drafted(d.value)
      ensures d.Some? ==> !d.value.recheck && d.value.p == draft.p && d.value.response == draft.response
    {
      hide Store.Valid, Valid, Stands, Run, Apply, Built, BuildResult, DeadlineOf, PreparationValue, FormObjects;
      if world(rid).admittedAt >= draft.expires || draft.snapshot.timestamp >= DeadlineOf(draft.response.value) {
        TakeAdmission(rid, l, draft, input);
        return Some(Refusal(RequoteRequired)), None;
      }
      Meanwhile(rid, l, draft, input.preparationId);
      TakeAdmission(rid, l, draft, input);
      var allowance := world(rid).allowance;
      if allowance.None? { return Some(Refusal(Rejected)), None; }
      return None, Some(draft.(short := TooSmall(allowance.value, draft.response.value.terms.amountIn)));
    }

    // ---------- the terms of a recheck ----------

    method TakeRead(rid: nat, ghost l: Progress, amountIn: string)
      requires Stands(rid, l) && l.Looked? && l.prep.Some? && l.prep.value.value.response.terms.amountIn == amountIn
      modifies `state, `steps
      ensures Stands(rid, ReadResult(chains, l, ReadingOf(world(rid), amountIn), world(rid).admittedAt)) && Grown({})
    {
      hide Store.Valid, Run, Apply, ReadResult, Told;
      var reading, now := ReadingOf(world(rid), amountIn), world(rid).admittedAt;
      ReadMoves(chains, state, rid, reading, now);
      LocalStepsLeaveTheStore(chains, state, DoRead(rid, reading, now));
      Take(DoRead(rid, reading, now));
    }

    // Linkage, expiry and the allowance of the stored terms.
    method StoredTerms(rid: nat, ghost l: Progress, draft: Draft)
      returns (stop: Option<Reply>, d: Option<Draft>)
      requires Stands(rid, l) && l.Looked? && Own(DraftObjects(draft)) && Untouched(draft)
      requires l.prep == Some(Entry(WorkOf(draft).p, draft.expires)) && draft.recheck
      requires draft.quoteId == "" && draft.quoteExpires == 0 && Usable(chains, draft.p.chain, draft.snapshot)
      requires world(rid).snapshot == Some(draft.snapshot)
      modifies `state, `steps, `outside, store, store.Repr(), outside
      ensures Grown({}) && (stop.None? <==> d.Some?) && (stop.Some? ==> Refused(rid, stop.value))
      ensures d.Some? ==> Stands(rid, AllowanceSettled(WorkOf(d.value))) && Drafted(d.value)
      ensures d.Some? ==> d.value.recheck && d.value.p == draft.p && d.value.response == draft.response
    {
      hide Store.Valid, Valid, Stands, Own, Run, Apply, DraftObjects, DeadlineOf;
      Meanwhile(rid, l, draft, "");
      if !world(rid).verified {
        TakeRead(rid, l, draft.response.value.terms.amountIn);
        return Some(Refusal(Rejected)), None;
      }
      stop, d := ReadStoredAllowance(rid, l, draft);
    }

    method ReadStoredAllowance(rid: nat, ghost l: Progress, draft: Draft)
      returns (stop: Option<Reply>, d: Option<Draft>)
      requires Stands(rid, l) && l.Looked? && Own(DraftObjects(draft)) && Untouched(draft)
      requires l.prep == Some(Entry(WorkOf(draft).p, draft.expires)) && draft.recheck
      requires draft.quoteId == "" && draft.quoteExpires == 0 && Usable(chains, draft.p.chain, draft.snapshot)
      requires world(rid).snapshot == Some(draft.snapshot) && world(rid).verified
      modifies `state, `steps, `outside, store, store.Repr(), outside
      ensures Grown({}) && (stop.None? <==> d.Some?) && (stop.Some? ==> Refused(rid, stop.value))
      ensures d.Some? ==> Stands(rid, AllowanceSettled(WorkOf(d.value))) && Drafted(d.value)
      ensures d.Some? ==> d.value.recheck && d.value.p == draft.p && d.value.response == draft.response
    {
      hide Store.Valid, Valid, Stands, Run, Apply, DeadlineOf;
      if world(rid).admittedAt >= draft.expires || draft.snapshot.timestamp >= DeadlineOf(draft.response.value) {
        TakeRead(rid, l, draft.response.value.terms.amountIn);
        return Some(Refusal(RequoteRequired)), None;
      }
      Meanwhile(rid, l, draft, "");
      TakeRead(rid, l, draft.response.value.terms.amountIn);
      var allowance := world(rid).allowance;
      if allowance.None? { return Some(Refusal(Rejected)), None; }
      return None, Some(draft.(short := TooSmall(allowance.value, draft.response.value.terms.amountIn)));
    }

    // ---------- marking ----------

    // A step of the call that touches only its own place.
    method TakeLocal(rid: nat, step: Step, ghost pc: Progress)
      requires Valid() && Caller(step) == Some(rid) && Apply(chains, state, step) == Set(state, rid, pc)
      requires Told(chains, steps, rid, world(rid)) && Tells(state, step, world(rid))
      modifies `state, `steps
      ensures Stands(rid, pc) && Grown({})
    {
      hide Store.Valid, Run, Apply, Told, Tells;
      Take(step);
    }

    method Settle(rid: nat, ghost pc: Progress, clock: nat)
      requires Stands(rid, pc) && (pc.AllowanceMarked? || pc.PermissionMarked?) && clock == SettledAt(pc, world(rid))
      modifies `state, `steps
      ensures Stands(rid, SettleMark(pc, clock)) && Grown({})
    {
      hide Store.Valid, Run, Apply, SettleMark, Told;
      CallMoves(chains, state, DoSettle(rid, clock), SettleMark(pc, clock));
      TakeLocal(rid, DoSettle(rid, clock), SettleMark(pc, clock));
    }

    // The clock check after a mark, some time later.
    method SettleMarked(rid: nat, ghost pc: Progress, d: Draft, clock: nat)
      requires Stands(rid, pc) && (pc.AllowanceMarked? || pc.PermissionMarked?) && Drafted(d)
      requires clock == SettledAt(pc, world(rid))
      modifies `state, `steps, `outside, store, store.Repr(), outside
      ensures Stands(rid, SettleMark(pc, clock)) && Drafted(d) && WorkOf(d) == old(WorkOf(d)) && Grown({})
    {
      hide Store.Valid, Valid, Stands, Run, Apply, SettleMark, PreparationValue, FormObjects;
      Meanwhile(rid, pc, d, "");
      Settle(rid, pc, clock);
    }

    // The allowance mark on the store: the approval bit is what the latch says.
    method StoreAllowanceMark(rid: nat, ghost w: Work, d: Draft, now: nat) returns (previous: bool, found: bool)
      requires Stands(rid, AllowanceRead(w)) && w == WorkOf(d) && now == world(rid).markedAt && Drafted(d)
      modifies store, store.Repr()
      ensures WorkOf(d) == w && Drafted(d) && Told(chains, steps, rid, world(rid))
      ensures state == old(state) && steps == old(steps) && outside == old(outside)
      ensures Behind(DoMark(rid, now)) && store.Repr() == old(store.Repr()) && Tells(state, DoMark(rid, now), world(rid))
      ensures
        var requests := Apply(chains, state, DoMark(rid, now)).requests;
        rid in requests && requests[rid] == AllowanceMarked(w.(p := w.p.(approval := previous)), found)
    {
      hide Store.Valid, Run, Apply, Live, Latched, Told;
      AllowanceIsMarked(chains, state, rid, now);
      previous, found := MarkStored(d.quoteId, [d.response.value.terms.recipient, d.p.spender], d.short, now);
    }

    method MarkAllowanceStored(rid: nat, d: Draft, now: nat) returns (after: Draft, found: bool)
      requires Stands(rid, AllowanceRead(WorkOf(d))) && Drafted(d) && now == world(rid).markedAt
      modifies `state, `steps, store, store.Repr()
      ensures Grown({}) && after == d.(p := d.p.(approval := after.p.approval)) && Drafted(after)
      ensures Stands(rid, AllowanceMarked(WorkOf(after), found)) && outside == old(outside)
    {
      hide Store.Valid, Valid, Run, Apply, Told, Tells, Behind;
      ghost var w := WorkOf(d);
      var previous;
      previous, found := StoreAllowanceMark(rid, w, d, now);
      after := d.(p := d.p.(approval := previous));
      Record(rid, DoMark(rid, now), AllowanceMarked(WorkOf(after), found));
    }

    // markApproval and the checks after it.
    method MarkAllowance(rid: nat, d: Draft) returns (stopped: bool, after: Draft)
      requires Stands(rid, AllowanceRead(WorkOf(d))) && Drafted(d)
      modifies `state, `steps, `outside, store, store.Repr(), outside
      ensures Grown({}) && after == d.(p := d.p.(approval := after.p.approval))
      ensures stopped ==> Stands(rid, Stopped(RequoteRequired))
      ensures !stopped ==> Stands(rid, AllowanceSettled(WorkOf(after))) && Drafted(after)
    {
      hide Store.Valid, Valid, Stands, Run, Apply, PreparationValue, FormObjects;
      var now := world(rid).markedAt;
      var found;
      after, found := MarkAllowanceStored(rid, d, now);
      var clock := world(rid).settledAt;
      SettleMarked(rid, AllowanceMarked(WorkOf(after), found), after, clock);
      stopped := !found || clock >= after.quoteExpires;
    }

    // The permission mark adds to what the call already knew.
    method StorePermissionMark(rid: nat, ghost w: Work, d: Draft, required: bool, now: nat)
      returns (previous: bool, found: bool)
      requires Stands(rid, PermissionRead(w, required)) && w == WorkOf(d) && now == world(rid).markedAgainAt
      requires d.p.permission != null && Drafted(d)
      modifies store, store.Repr()
      ensures WorkOf(d) == w && Drafted(d) && Told(chains, steps, rid, world(rid))
      ensures state == old(state) && steps == old(steps) && outside == old(outside)
      ensures Behind(DoMark(rid, now)) && store.Repr() == old(store.Repr()) && Tells(state, DoMark(rid, now), world(rid))
      ensures
        var requests := Apply(chains, state, DoMark(rid, now)).requests;
        && rid in requests
        && requests[rid] == PermissionMarked(w.(p := w.p.(approval := w.p.approval || previous)), required, found)
    {
      hide Store.Valid, Run, Apply, Live, Latched, Told;
      PermissionIsMarked(chains, state, rid, now);
      var grant := d.p.permission.value;
      previous, found :=
        MarkStored(d.quoteId, [d.response.value.terms.recipient, grant.target, grant.spender], required, now);
    }

    method MarkPermissionStored(rid: nat, d: Draft, required: bool, now: nat) returns (after: Draft, found: bool)
      requires Stands(rid, PermissionRead(WorkOf(d), required)) && Drafted(d) && d.p.permission != null
      requires now == world(rid).markedAgainAt
      modifies `state, `steps, store, store.Repr()
      ensures Grown({}) && after == d.(p := d.p.(approval := after.p.approval)) && Drafted(after)
      ensures Stands(rid, PermissionMarked(WorkOf(after), required, found)) && outside == old(outside)
    {
      hide Store.Valid, Valid, Run, Apply, Told, Tells, Behind;
      ghost var w := WorkOf(d);
      var previous;
      previous, found := StorePermissionMark(rid, w, d, required, now);
      after := d.(p := d.p.(approval := d.p.approval || previous));
      Record(rid, DoMark(rid, now), PermissionMarked(WorkOf(after), required, found));
    }

    method MarkPermission(rid: nat, d: Draft, required: bool) returns (stopped: bool, after: Draft)
      requires Stands(rid, PermissionRead(WorkOf(d), required)) && Drafted(d) && d.p.permission != null
      modifies `state, `steps, `outside, store, store.Repr(), outside
      ensures Grown({}) && after == d.(p := d.p.(approval := after.p.approval))
      ensures stopped ==> Stands(rid, Stopped(RequoteRequired))
      ensures !stopped ==> Stands(rid, PermissionSettled(WorkOf(after), required)) && Drafted(after)
    {
      hide Store.Valid, Valid, Stands, Run, Apply, PreparationValue, FormObjects;
      var now := world(rid).markedAgainAt;
      var found;
      after, found := MarkPermissionStored(rid, d, required, now);
      var clock := world(rid).settledAgainAt;
      SettleMarked(rid, PermissionMarked(WorkOf(after), required, found), after, clock);
      stopped := !found || clock >= after.quoteExpires;
    }

    // ---------- the branches, one step each ----------

    method TakeAllowance(rid: nat, ghost w: Work, required: Option<bool>)
      requires Stands(rid, AllowanceSettled(w)) && (!w.short ==> required == RequiredOf(w, world(rid)))
      modifies `state, `steps
      ensures Stands(rid, BranchAllowance(chains, w, required)) && Grown({})
    {
      hide Store.Valid, Run, Apply, BranchAllowance, Told, RequiredOf;
      CallMoves(chains, state, DoAllowance(rid, required), BranchAllowance(chains, w, required));
      TakeLocal(rid, DoAllowance(rid, required), BranchAllowance(chains, w, required));
    }

    method TakePermission(rid: nat, ghost w: Work, ghost required: bool)
      requires Stands(rid, PermissionSettled(w, required))
      modifies `state, `steps
      ensures Stands(rid, BranchPermission(chains, w, required)) && Grown({})
    {
      hide Store.Valid, Run, Apply, BranchPermission, Told;
      CallMoves(chains, state, DoPermission(rid), BranchPermission(chains, w, required));
      TakeLocal(rid, DoPermission(rid), BranchPermission(chains, w, required));
    }

    method TakeConfirmApproval(rid: nat, ghost w: Work, canonical: bool, clock: nat)
      requires Stands(rid, ApprovalBuilt(w)) && canonical == world(rid).stillCanonical && clock == world(rid).confirmedAt
      modifies `state, `steps
      ensures Stands(rid, ConfirmApproval(w, canonical, clock)) && Grown({})
    {
      hide Store.Valid, Run, Apply, ConfirmApproval, Told;
      CallMoves(chains, state, DoConfirmApproval(rid, canonical, clock), ConfirmApproval(w, canonical, clock));
      TakeLocal(rid, DoConfirmApproval(rid, canonical, clock), ConfirmApproval(w, canonical, clock));
    }

    method TakeConfirmReady(rid: nat, ghost w: Work)
      requires Stands(rid, Cleared(w))
      modifies `state, `steps
      ensures Stands(rid, ConfirmReady(w, world(rid).output, world(rid).stillCanonical, world(rid).confirmedAt))
      ensures Grown({})
    {
      hide Store.Valid, Run, Apply, ConfirmReady, Told;
      var output, canonical, clock := world(rid).output, world(rid).stillCanonical, world(rid).confirmedAt;
      CallMoves(chains, state, DoConfirmReady(rid, output, canonical, clock), ConfirmReady(w, output, canonical, clock));
      TakeLocal(rid, DoConfirmReady(rid, output, canonical, clock), ConfirmReady(w, output, canonical, clock));
    }

    // ---------- answering ----------

    // The save, and the call's place on the record.
    method SavePrepared(rid: nat, ghost w: Work, d: Draft, ghost checkedAt: nat)
      requires Stands(rid, Checked(w, d.response.value, checkedAt)) && Own(DraftObjects(d))
      requires PreparationValue(d.p) == SavedForm(w, d.response.value, HandedOver(d.p)) && w.expires == d.expires
      modifies `state, `steps, store
      ensures Stands(rid, Answered(d.response.value)) && OnRecord(state.answers, rid, d.response.value)
      ensures Own({d.response}) && Grown({}) && d.response.value == old(d.response.value)
    {
      hide Store.Valid, Run, Apply, Told, PreparationValue, SavedForm, FormObjects, Behind;
      assert Told(chains, steps, rid, world(rid));
      var step := StoreForm(rid, d.p, d.expires, world(rid).savedAt, HandedOver(d.p));
      Record(rid, step, Answered(d.response.value));
      assert Issued(rid, d.response.value, checkedAt, w.short) in state.answers;
    }

    // Then the answer: from here on the response is in the caller's hands.
    method SaveAndAnswer(rid: nat, ghost w: Work, d: Draft, ghost checkedAt: nat)
      requires Stands(rid, Checked(w, d.response.value, checkedAt)) && Own(DraftObjects(d))
      requires PreparationValue(d.p) == SavedForm(w, d.response.value, HandedOver(d.p)) && w.expires == d.expires
      modifies `state, `steps, `outside, store
      ensures Replied(rid, d.response) && Grown({d.response})
    {
      hide Store.Valid, Run, PreparationValue, PreparationObjects;
      SavePrepared(rid, w, d, checkedAt);
      outside := outside + {d.response};
    }

    // The canonical check and the last clock check of an approval answer. The answered response becomes
    // the saved form.
    method FinishApproval(rid: nat, d: Draft) returns (reply: Reply)
      requires Stands(rid, ApprovalBuilt(WorkOf(d))) && Own(DraftObjects(d)) && Copied(d)
      requires d.response.value.status == ApprovalRequired
      modifies `state, `steps, `outside, store, store.Repr(), outside, d.response
      ensures Done(rid, reply) && Grown({d.response}) && (reply.Answer? ==> reply.response == d.response)
    {
      hide Store.Valid, Valid, Stands, Replied, Run, Apply;
      ghost var w := WorkOf(d);
      Meanwhile(rid, ApprovalBuilt(w), d, "");
      var canonical, clock := world(rid).stillCanonical, world(rid).confirmedAt;
      TakeConfirmApproval(rid, w, canonical, clock);
      if !canonical || clock >= d.expires { return Refusal(RequoteRequired); }
      reply := SaveApproval(rid, w, d, clock);
    }

    method SaveApproval(rid: nat, ghost w: Work, d: Draft, clock: nat) returns (reply: Reply)
      requires Stands(rid, ConfirmApproval(w, true, clock)) && w == WorkOf(d) && clock < d.expires
      requires Own(DraftObjects(d)) && Copied(d) && d.response.value.status == ApprovalRequired
      modifies `state, `steps, `outside, store, store.Repr(), outside, d.response
      ensures Done(rid, reply) && Grown({d.response}) && (reply.Answer? ==> reply.response == d.response)
    {
      hide Store.Valid, Valid, Stands, Replied, Run, Apply, FormObjects;
      ghost var pc := ConfirmApproval(w, true, clock);
      var saved := StampApproval(rid, pc, d);
      Meanwhile(rid, pc, saved, "");
      SaveAndAnswer(rid, pc.work, saved, clock);
      reply := Answer(d.response);
    }

    // The response is complete, and the prepared form takes it over.
    method StampApproval(rid: nat, ghost pc: Progress, d: Draft) returns (saved: Draft)
      requires Stands(rid, pc) && Own(DraftObjects(d))
      modifies d.response
      ensures Stands(rid, pc) && Own(DraftObjects(saved))
      ensures saved == d.(p := d.p.(approval := true, response := d.response, selection := null))
      ensures
        var answer := old(d.response.value).(simulationBlock := Some(d.snapshot.block));
        d.response.value == answer && PreparationValue(saved.p) == old(WorkOf(d)).p.(approval := true, response := answer)
    {
      hide Store.Valid, Run, Told;
      d.response.value := d.response.value.(simulationBlock := Some(d.snapshot.block));
      saved := d.(p := d.p.(approval := true, response := d.response, selection := null));
    }

    // The approval fields, written into the call's copy of the response.
    method FillErc20(d: Draft)
      requires Untouched(d)
      modifies d.response
      ensures WorkOf(d) == old(WorkOf(d)).(response := Erc20Answer(chains, old(WorkOf(d))))
      ensures Copied(d) && d.response.value.status == ApprovalRequired
    {
      hide Erc20Answer, Erc20Written;
      ghost var w := WorkOf(d);
      WriteErc20(d.response, if d.p.chain in chains then chains[d.p.chain] else "", d.p.spender);
      WrittenIsErc20(chains, w, d.response.value);
    }

    // Allowance too low: an ERC-20 approval, if this preparation may still ask for one.
    method AnswerErc20(rid: nat, d: Draft) returns (reply: Reply)
      requires Stands(rid, AllowanceSettled(WorkOf(d))) && Drafted(d) && d.short
      modifies `state, `steps, `outside, store, store.Repr(), outside, d.response
      ensures Done(rid, reply) && Grown({d.response}) && (reply.Answer? ==> reply.response == d.response)
    {
      hide Store.Valid, Valid, Stands, Replied, Run, Apply, Erc20Answer;
      ghost var w := WorkOf(d);
      TakeAllowance(rid, w, None);
      if d.recheck && !d.p.approval { return Refusal(RequoteRequired); }
      FillErc20(d);
      reply := FinishApproval(rid, d);
    }

    // The permission fields, written into the call's copy of the response.
    method FillPermission(d: Draft)
      requires Untouched(d) && d.p.permission != null
      modifies d.response
      ensures WorkOf(d)
           == old(WorkOf(d)).(response := PermissionAnswer(chains, old(WorkOf(d)), old(d.p.permission.value)))
      ensures Copied(d) && d.response.value.status == ApprovalRequired
    {
      hide PermissionAnswer, PermissionWritten;
      ghost var w := WorkOf(d);
      var grant := d.p.permission.value;
      WritePermission(d.response, if d.p.chain in chains then chains[d.p.chain] else "", grant);
      WrittenIsPermission(chains, w, grant, d.response.value);
    }

    // Permit2 permission missing: asked for, unless this preparation may not ask.
    method AnswerPermission(rid: nat, d: Draft) returns (reply: Reply)
      requires Stands(rid, PermissionSettled(WorkOf(d), true)) && Drafted(d) && d.p.permission != null
      modifies `state, `steps, `outside, store, store.Repr(), outside, d.response
      ensures Done(rid, reply) && Grown({d.response}) && (reply.Answer? ==> reply.response == d.response)
    {
      hide Store.Valid, Valid, Stands, Replied, Run, Apply, PermissionAnswer;
      ghost var w := WorkOf(d);
      TakePermission(rid, w, true);
      if !d.recheck && d.p.approval { return Refusal(RequoteRequired); }
      var answered := d.p.response.value;
      if d.recheck && answered.approvalTransaction.Some? && answered.permission.None? { return Refusal(RequoteRequired); }
      if d.recheck && !d.p.approval { return Refusal(RequoteRequired); }
      FillPermission(d);
      reply := FinishApproval(rid, d);
    }

    // The simulator works on copies of the transaction and the checks, which are out of the engine's hands.
    method ShowSimulator(rid: nat, ghost pc: Progress, d: Draft)
      requires Stands(rid, pc) && Own(DraftObjects(d))
      modifies `outside
      ensures Stands(rid, pc) && Own(DraftObjects(d)) && Grown({})
    {
      hide Store.Valid, Run, Told;
      var transaction := CloneOf(d.p.transaction);
      var checks := CloneOf(d.p.checks);
      outside := outside + {transaction, checks};
    }

    method Simulate(rid: nat, ghost pc: Progress, d: Draft) returns (output: Option<string>)
      requires Stands(rid, pc) && Own(DraftObjects(d))
      modifies `state, `steps, `outside, store, store.Repr(), outside
      ensures Stands(rid, pc) && Own(DraftObjects(d)) && Grown({})
      ensures WorkOf(d) == old(WorkOf(d)) && (old(Untouched(d)) ==> Untouched(d)) && output == world(rid).output
    {
      hide Store.Valid, Valid, Stands, Run, Told, PreparationValue, FormObjects;
      ShowSimulator(rid, pc, d);
      Meanwhile(rid, pc, d, "");
      output := world(rid).output;
    }

    // Nothing left to approve: simulate, check the block and the clock once more, and answer.
    method AnswerReady(rid: nat, d: Draft) returns (reply: Reply)
      requires Stands(rid, Cleared(WorkOf(d))) && Drafted(d)
      modifies `state, `steps, `outside, store, store.Repr(), outside, d.response
      ensures Done(rid, reply) && Grown({d.response}) && (reply.Answer? ==> reply.response == d.response)
    {
      hide Store.Valid, Valid, Stands, Replied, Run, Apply, ReadyAnswer, DraftObjects;
      ghost var w := WorkOf(d);
      if d.p.approval {
        TakeConfirmReady(rid, w);
        return Refusal(RequoteRequired);
      }
      var output := Simulate(rid, Cleared(w), d);
      if output.None? {
        TakeConfirmReady(rid, w);
        return Refusal(Rejected);
      }
      reply := FinishReady(rid, d, output.value);
    }

    method FinishReady(rid: nat, d: Draft, output: string) returns (reply: Reply)
      requires Stands(rid, Cleared(WorkOf(d))) && Drafted(d) && !d.p.approval && world(rid).output == Some(output)
      modifies `state, `steps, `outside, store, store.Repr(), outside, d.response
      ensures Done(rid, reply) && Grown({d.response}) && (reply.Answer? ==> reply.response == d.response)
    {
      hide Store.Valid, Valid, Stands, Replied, Run, Apply, ReadyAnswer;
      ghost var w := WorkOf(d);
      Meanwhile(rid, Cleared(w), d, "");
      var canonical, clock := world(rid).stillCanonical, world(rid).confirmedAt;
      TakeConfirmReady(rid, w);
      if !canonical || clock >= d.expires { return Refusal(RequoteRequired); }
      reply := SaveReady(rid, w, d, output, clock);
    }

    // The ready fields, written into the call's copy of the response, with a copy of the transaction.
    method FillReady(d: Draft, output: string)
      requires Untouched(d)
      modifies d.response
      ensures d.response.value == ReadyAnswer(old(WorkOf(d)), output) && Copied(d)
      ensures WorkOf(d).p == old(WorkOf(d)).p && d.response.value.status == Ready
    {
      var transaction := CloneOf(d.p.transaction);
      var response := d.response;
      response.value := response.value.(status := Ready, transaction := Some(transaction.value));
      response.value := response.value.(simulationBlock := Some(d.snapshot.block), simulatedOutput := output);
    }

    // The answer is the ready response; the saved form is the prepared one, whose selection may have changed
    // since the copy.
    method SaveReady(rid: nat, ghost w: Work, d: Draft, output: string, clock: nat) returns (reply: Reply)
      requires Stands(rid, Checked(w, ReadyAnswer(w, output), clock)) && w == WorkOf(d) && Drafted(d)
      modifies `state, `steps, `outside, store, store.Repr(), outside, d.response
      ensures Done(rid, reply) && Grown({d.response}) && (reply.Answer? ==> reply.response == d.response)
    {
      hide Store.Valid, Valid, Stands, Replied, Run, Apply, ReadyAnswer;
      FillReady(d, output);
      Meanwhile(rid, Checked(w, d.response.value, clock), d, "");
      ReadyIsSaved(d, w);
      SaveAndAnswer(rid, w, d, clock);
      reply := Answer(d.response);
    }

    // The permission has been read: mark it on a first call, then ask for it or go on.
    method AnswerKnownPermission(rid: nat, d: Draft, required: bool) returns (reply: Reply)
      requires d.p.permission != null && Drafted(d)
      requires Stands(rid, if d.recheck then PermissionSettled(WorkOf(d), required) else PermissionRead(WorkOf(d), required))
      modifies `state, `steps, `outside, store, store.Repr(), outside, d.response
      ensures Done(rid, reply) && Grown({d.response}) && (reply.Answer? ==> reply.response == d.response)
    {
      hide Store.Valid, Valid, Stands, Replied, Own, Untouched, Run, Apply, WorkOf;
      var here := d;
      if !d.recheck {
        var stopped, after := MarkPermission(rid, d, required);
        if stopped { return Refusal(RequoteRequired); }
        here := after;
      }
      reply := AnswerSettledPermission(rid, here, required);
    }

    method AnswerSettledPermission(rid: nat, d: Draft, required: bool) returns (reply: Reply)
      requires d.p.permission != null && Drafted(d) && Stands(rid, PermissionSettled(WorkOf(d), required))
      modifies `state, `steps, `outside, store, store.Repr(), outside, d.response
      ensures Done(rid, reply) && Grown({d.response}) && (reply.Answer? ==> reply.response == d.response)
    {
      hide Store.Valid, Valid, Stands, Replied, Run, Apply, BranchPermission;
      if required {
        reply := AnswerPermission(rid, d);
        return;
      }
      TakePermission(rid, WorkOf(d), required);
      NoPermissionNeeded(chains, WorkOf(d));
      reply := AnswerReady(rid, d);
    }

    // The allowance suffices: is the plan's permission still good?
    method AnswerPastAllowance(rid: nat, d: Draft) returns (reply: Reply)
      requires Stands(rid, AllowanceSettled(WorkOf(d))) && Drafted(d) && !d.short
      modifies `state, `steps, `outside, store, store.Repr(), outside, d.response
      ensures Done(rid, reply) && Grown({d.response}) && (reply.Answer? ==> reply.response == d.response)
    {
      hide Store.Valid, Valid, Stands, Replied, Run, Apply, DeadlineOf, FormObjects;
      ghost var w := WorkOf(d);
      if d.p.permission == null {
        TakeAllowance(rid, w, None);
        reply := AnswerReady(rid, d);
        return;
      }
      Meanwhile(rid, AllowanceSettled(w), d, "");
      reply := AnswerGranted(rid, d);
    }

    method AnswerGranted(rid: nat, d: Draft) returns (reply: Reply)
      requires Stands(rid, AllowanceSettled(WorkOf(d))) && Drafted(d) && !d.short && d.p.permission != null
      modifies `state, `steps, `outside, store, store.Repr(), outside, d.response
      ensures Done(rid, reply) && Grown({d.response}) && (reply.Answer? ==> reply.response == d.response)
    {
      hide Store.Valid, Valid, Stands, Replied, Run, Apply, DeadlineOf, FormObjects;
      ghost var w := WorkOf(d);
      var granted := world(rid).granted;
      if granted.None? {
        TakeAllowance(rid, w, None);
        return Refusal(Rejected);
      }
      var grant := d.p.permission.value;
      var required := granted.value.0 < grant.amount || granted.value.1 < DeadlineOf(d.response.value);
      TakeAllowance(rid, w, Some(required));
      reply := AnswerKnownPermission(rid, d, required);
    }

    // ---------- the whole call ----------

    method AnswerTerms(rid: nat, d: Draft) returns (reply: Reply)
      requires Stands(rid, AllowanceSettled(WorkOf(d))) && Drafted(d)
      modifies `state, `steps, `outside, store, store.Repr(), outside, d.response
      ensures Done(rid, reply) && Grown({d.response}) && (reply.Answer? ==> reply.response == d.response)
    {
      hide Store.Valid, Valid, Stands, Replied, Run, Apply;
      if d.short { reply := AnswerErc20(rid, d); } else { reply := AnswerPastAllowance(rid, d); }
    }

    method Recheck(rid: nat, ghost l: Progress, r: PrepareRequest, now: nat, q: Option<Entry<FoundQuote>>,
                   p: Entry<PreparationCell>)
      returns (reply: Reply)
      requires Stands(rid, l) && HasFound(l, r, now, q, Some(p)) && Own(PreparationObjects(p.value))
      modifies `state, `steps, `outside, store, store.Repr(), outside
      ensures Done(rid, reply) && Grown({}) && (reply.Answer? ==> fresh(reply.response))
    {
      hide Store.Valid, Valid, Stands, Replied, Run, Apply;
      ghost var v := PreparationValue(p.value);
      var snapshot := ReadBlock(rid, l, PreparationObjects(p.value), p.value.chain);
      if snapshot.None? {
        TakeRead(rid, l, p.value.response.value.terms.amountIn);
        return Refusal(Rejected);
      }
      assert PreparationValue(p.value) == v;
      reply := AnswerStored(rid, l, p, snapshot.value);
    }

    // The response is a copy of the stored one.
    method AnswerStored(rid: nat, ghost l: Progress, p: Entry<PreparationCell>, snapshot: Snapshot)
      returns (reply: Reply)
      requires Stands(rid, l) && l.Looked? && Own(PreparationObjects(p.value)) && Usable(chains, p.value.chain, snapshot)
      requires l.prep == Some(Entry(PreparationValue(p.value), p.expires)) && p.value.selection == null
      requires world(rid).snapshot == Some(snapshot)
      modifies `state, `steps, `outside, store, store.Repr(), outside
      ensures Done(rid, reply) && Grown({}) && (reply.Answer? ==> fresh(reply.response))
    {
      hide Store.Valid, Valid, Stands, Replied, Run, Apply;
      var response := CloneResponse(p.value.response, p.value.selection);
      var draft := Draft(true, "", 0, p.value, p.expires, response, snapshot, false);
      var stop, d := StoredTerms(rid, l, draft);
      if stop.Some? { return stop.value; }
      reply := AnswerTerms(rid, d.value);
    }

    // A first call: its terms, the mark of its allowance, and the answer.
    method FirstCall(rid: nat, ghost l: Progress, r: PrepareRequest, now: nat, q: Entry<FoundQuote>)
      returns (reply: Reply)
      requires Stands(rid, l) && HasFound(l, r, now, Some(q), None) && Own(FoundObjects(q)) && Buildable(l)
      modifies `state, `steps, `outside, store, store.Repr(), outside, FoundObjects(q)
      ensures Done(rid, reply) && Grown(FoundObjects(q)) && (reply.Answer? ==> fresh(reply.response))
    {
      hide Store.Valid, Valid, Stands, Replied, Run, Apply, BuildResult, WorkOf, Untouched,
           PreparationObjects;
      var snapshot := ReadBlock(rid, l, FoundObjects(q), q.value.request.value.chain);
      if snapshot.None? {
        var id := FreshId();
        var input := InputOf(world(rid), q.value.request.value, id);
        BuildFails(chains, l, input, world(rid));
        TakeBuild(rid, l, input);
        return Refusal(Rejected);
      }
      var stop, d := FirstTerms(rid, l, r, now, q, snapshot.value);
      if stop.Some? { return stop.value; }
      reply := AnswerFirst(rid, d.value);
    }

    method AnswerFirst(rid: nat, d: Draft) returns (reply: Reply)
      requires Stands(rid, AllowanceRead(WorkOf(d))) && Drafted(d)
      modifies `state, `steps, `outside, store, store.Repr(), outside, d.response
      ensures Done(rid, reply) && Grown({d.response}) && (reply.Answer? ==> reply.response == d.response)
    {
      hide Store.Valid, Valid, Stands, Replied, Own, Untouched, Run, Apply, WorkOf;
      var stopped, after := MarkAllowance(rid, d);
      if stopped { return Refusal(RequoteRequired); }
      reply := AnswerTerms(rid, after);
    }

    // One call, start to end, among any others. Whatever it replies is what the protocol's run says of it, by
    // steps that carry what it was told; so everything proved of runs holds of its replies, an answer is backed
    // by the call's readings, and a refusal has its reason in them. The response it hands out is an object of
    // the caller's, equal to the recorded answer.
    method PrepareExecution(rid: nat, r: PrepareRequest) returns (reply: Reply)
      requires Valid() && rid !in state.requests
      modifies `state, `steps, `outside, store, store.Repr(), outside
      ensures Valid() && Grown({}) && rid in state.requests
      ensures reply.Answer? ==> Replied(rid, reply.response) && fresh(reply.response)
      ensures reply.Refusal? ==> state.requests[rid] == Stopped(reply.status)
      ensures reply.Invalid? ==> state.requests[rid].Stopped?
      ensures !ValidRequest(r) ==> reply.Invalid?
      ensures Told(chains, steps, rid, world(rid))
      ensures reply.Answer? ==> Backed(reply.response.value, world(rid))
      ensures reply.Refusal? ==>
                (reply.status == Rejected || reply.status == RequoteRequired)
                && HasReason(chains, steps, rid, world(rid), reply.status)
      ensures reply.Invalid? && ValidRequest(r) ==> HasReason(chains, steps, rid, world(rid), Rejected)
    {
      hide Store.Valid, Run, ValidRequest, Apply, Told;
      NothingTold(chains, steps, rid, world(rid));
      Received(chains, state, rid, r);
      Take(Receive(rid, r));
      if !ValidRequest(r) { return Invalid; }
      reply := Serve(rid, r);
      ReplyHasGrounds(rid, reply);
    }

    lemma ReplyHasGrounds(rid: nat, reply: Reply)
      requires Done(rid, reply)
      ensures reply.Answer? ==> Backed(reply.response.value, world(rid))
      ensures reply.Refusal? ==>
                (reply.status == Rejected || reply.status == RequoteRequired)
                && HasReason(chains, steps, rid, world(rid), reply.status)
      ensures reply.Invalid? ==> HasReason(chains, steps, rid, world(rid), Rejected)
    {
      hide Store.Valid, Run, Told, Backed, HasReason;
      if reply.Answer? {
        AnswersAreBacked(chains, steps, rid, world(rid));
      } else {
        StopsForAReason(chains, steps, rid, world(rid));
      }
    }

    method Serve(rid: nat, r: PrepareRequest) returns (reply: Reply)
      requires Stands(rid, Arrived(r)) && ValidRequest(r)
      modifies `state, `steps, `outside, store, store.Repr(), outside
      ensures Done(rid, reply) && Grown({}) && (reply.Answer? ==> fresh(reply.response))
    {
      hide Store.Valid, Valid, Stands, Replied, Run, Apply, PreparationObjects, FoundObjects;
      Others(rid, Arrived(r), {}, "");
      var now := world(rid).lookupAt;
      var found, q, p, l := LookUp(rid, r, now);
      if !found { return Refusal(RequoteRequired); }
      if r.preparationId != "" {
        reply := Recheck(rid, l, r, now, q, p.value);
      } else {
        reply := FirstCall(rid, l, r, now, q.value);
      }
    }
  }

  // ---------- any number of calls ----------

  // What two answers of one preparation have in common, whatever strategies do.
  predicate SameAnswer(a: Response, b: Response) {
    && SameButSelection(a.terms, b.terms)
    && a.status == b.status && a.transaction == b.transaction && a.permission == b.permission
    && (a.approvalTransaction.Some? && b.approvalTransaction.Some? ==> a.approvalTransaction == b.approvalTransaction)
  }

  predicate AllOnRecord(answers: seq<Issued>, rids: seq<nat>, replies: seq<Option<Response>>) {
    && |rids| == |replies|
    && forall i :: 0 <= i < |replies| && replies[i].Some? ==> OnRecord(answers, rids[i], replies[i].value)
  }

  method UnusedNumber(taken: set<nat>) returns (n: nat)
    ensures n !in taken
  {
    var left := taken;
    n := 0;
    while left != {}
      invariant left <= taken
      invariant forall known :: known in taken && known !in left ==> known < n
      decreases |left|
    {
      var known :| known in left;
      if known >= n { n := known + 1; }
      left := left - {known};
    }
  }

  lemma RecordStays(chains: Chains, early: seq<Step>, late: seq<Step>, rids: seq<nat>, replies: seq<Option<Response>>)
    requires early <= late && AllOnRecord(Run(chains, early).answers, rids, replies)
    ensures AllOnRecord(Run(chains, late).answers, rids, replies)
  {
    hide Run;
    assert late == early + late[|early|..];
    forall i | 0 <= i < |replies| && replies[i].Some?
      ensures OnRecord(Run(chains, late).answers, rids[i], replies[i].value) {
      var a :| a in Run(chains, early).answers && a.rid == rids[i] && a.response == replies[i].value;
      AnswersStay(chains, early, late[|early|..], a);
    }
  }

  // The terms of every reply are the frozen ones up to the selection, and replies of one preparation agree up
  // to the selection; on all their terms, unless a save of the run stored another selection than the copied one.
  ghost predicate Immutable(chains: Chains, steps: seq<Step>, replies: seq<Option<Response>>) {
    && (forall i :: 0 <= i < |replies| && replies[i].Some? ==> IsFrozen(chains, steps, replies[i].value))
    && forall i, j :: 0 <= i < |replies| && 0 <= j < |replies| && replies[i].Some? && replies[j].Some? ==>
         replies[i].value.terms.preparationId != replies[j].value.terms.preparationId
         || SameAnswer(replies[i].value, replies[j].value)
  }

  ghost predicate IsFrozen(chains: Chains, steps: seq<Step>, r: Response) {
    var h, id := Run(chains, steps).history, r.terms.preparationId;
    && id in h.frozen && SameButSelection(r.terms, h.frozen[id].terms)
    && (!Overwritten(chains, steps, id) ==> r.terms == h.frozen[id].terms)
  }

  lemma RecordIsFrozen(chains: Chains, steps: seq<Step>, rids: seq<nat>, replies: seq<Option<Response>>)
    requires AllOnRecord(Run(chains, steps).answers, rids, replies)
    ensures Immutable(chains, steps, replies)
  {
    hide Run, FieldsOk, AnswerShape, IsFrozen;
    forall i, j | 0 <= i < |replies| && 0 <= j < |replies| && replies[i].Some? && replies[j].Some?
      && replies[i].value.terms.preparationId == replies[j].value.terms.preparationId
      ensures SameAnswer(replies[i].value, replies[j].value) {
      var a :| a in Run(chains, steps).answers && a.rid == rids[i] && a.response == replies[i].value;
      var b :| b in Run(chains, steps).answers && b.rid == rids[j] && b.response == replies[j].value;
      TwoClasses(chains, steps, a, b);
      ImmutableTerms(chains, steps, a, b);
    }
    forall i | 0 <= i < |replies| && replies[i].Some? ensures IsFrozen(chains, steps, replies[i].value) {
      var a :| a in Run(chains, steps).answers && a.rid == rids[i] && a.response == replies[i].value;
      AnswerIsFrozen(chains, steps, a);
    }
  }

  lemma AnswerIsFrozen(chains: Chains, steps: seq<Step>, a: Issued)
    requires a in Run(chains, steps).answers
    ensures IsFrozen(chains, steps, a.response)
  {
    hide Run, Overwritten;
    AnsweredTerms(chains, steps, a);
    KeptExactly(chains, steps, IdOf(a));
  }

  // Calls one after another, each among any others, while everything outside is overwritten at will: the
  // objects callers, strategies, builders and simulators were given or gave. Only one of these reaches the
  // answers, the selection a strategy handed over, and only by its save.
  method ServeAll(engine: Engine, requests: seq<PrepareRequest>) returns (replies: seq<Option<Response>>)
    requires engine.Valid()
    modifies engine`state, engine`steps, engine`outside, engine.store, engine.store.Repr(), engine.outside
    ensures engine.Valid() && |replies| == |requests|
    ensures Immutable(engine.chains, engine.steps, replies)
  {
    hide Store.Valid, Run, SameAnswer, Immutable, IsFrozen;
    replies := [];
    ghost var rids := [];
    ghost var early := engine.steps;
    while |replies| < |requests|
      invariant engine.Valid() && |replies| <= |requests| && early <= engine.steps
      invariant fresh(engine.store.Repr() - old(engine.store.Repr())) && fresh(engine.outside - old(engine.outside))
      invariant AllOnRecord(engine.state.answers, rids, replies)
    {
      var rid := UnusedNumber(engine.state.requests.Keys);
      ghost var before := engine.steps;
      var reply := engine.PrepareExecution(rid, requests[|replies|]);
      RecordStays(engine.chains, before, engine.steps, rids, replies);
      rids := rids + [rid];
      replies := replies + [if reply.Answer? then Some(reply.response.value) else None];
      modify engine.outside;
    }
    RecordIsFrozen(engine.chains, engine.steps, rids, replies);
  }
}
