// One guarded execution in the terminal: validate, show, confirm, check again, send once, verify.
// The preparation and its transactions are objects that the awaited callbacks may hold and change.
module Execution {
  import opened Messages
  import opened Numerals
  import opened Policy
  import A = Accounting

  // ---------- objects ----------

  class TransactionObject {
    var value: Transaction

    constructor (v: Transaction)
      ensures value == v
    {
      value := v;
    }
  }

  function ValueOf(t: TransactionObject?): Option<Transaction>
    reads t
  {
    if t == null then None else Some(t.value)
  }

  // A response object: its own fields, and links to up to three transaction objects.
  class PreparationObject {
    var fields: Response
    var transaction: TransactionObject?
    var approval: TransactionObject?
    var grant: TransactionObject?

    constructor (r: Response)
      ensures Deep() == r
      ensures transaction != null ==> fresh(transaction)
      ensures approval != null ==> fresh(approval)
      ensures grant != null ==> fresh(grant)
    {
      fields := r;
      transaction, approval, grant := null, null, null;
      new;
      if r.transaction.Some? { transaction := new TransactionObject(r.transaction.value); }
      if r.approvalTransaction.Some? { approval := new TransactionObject(r.approvalTransaction.value); }
      if r.permission.Some? && r.permission.value.transaction.Some? {
        grant := new TransactionObject(r.permission.value.transaction.value);
      }
    }

    // Everything reachable, as serializing the object reads it.
    function Deep(): Response
      reads this, transaction, approval, grant
    {
      fields.(transaction := ValueOf(transaction), approvalTransaction := ValueOf(approval),
              permission := if fields.permission.Some?
                            then Some(fields.permission.value.(transaction := ValueOf(grant))) else None)
    }

    // The transaction object a plan for this preparation refers to.
    function ChosenObject(): TransactionObject?
      reads this
    {
      if fields.status != ApprovalRequired then transaction
      else if fields.permission.Some? && grant != null then grant
      else approval
    }

    lemma ChosenIsChosen()
      ensures Chosen(Deep()) == ValueOf(ChosenObject())
    {}
  }

  // ---------- one execution, step by step ----------

  datatype ApprovalPolicy = AnyApproval | PermissionOnly | NoApprovals

  datatype Mode = Mode(preview: bool, reportPreparation: bool, policy: ApprovalPolicy)

  datatype Kind = Approval(permission: bool) | Swap

  datatype Evidence = Passed | ReceiptSuccess | Failed | Unavailable

  datatype Event =
    | PreparationShown
    | CancelReported
    | Submitted(hash: string, kind: Kind)
    | Verified(hash: string, evidence: Evidence)
    | SendUnknown
    | ReceiptUnavailable(hash: string)

  // Confirm: the transaction shown with the question. Send: the value of the object that was sent.
  datatype Deed =
    | Report(event: Event)
    | Confirm(kind: Kind, shown: Transaction, confirmed: bool)
    | Send(kind: Kind, sent: Transaction)
    | AwaitReceipt(hash: string)

  datatype ExecutionResult =
    | Preview
    | Canceled
    | ApprovalConfirmed(hash: string)
    | SwapVerified(hash: string)
    | ExecutionFailed(hash: string)
    | Unknown(known: Option<string>)

  datatype Outcome = Returned(result: ExecutionResult) | Thrown

  // How far an execution got.
  datatype Course =
    | Refused
    | ShownOnly(previewed: bool)
    | ConfirmBroke
    | Declined(kind: Kind, shown: Transaction)
    | Stale(kind: Kind, shown: Transaction)
    | SendBroke(kind: Kind, shown: Transaction, sent: Transaction)
    | NoReceipt(kind: Kind, shown: Transaction, sent: Transaction, hash: string)
    | Settled(kind: Kind, shown: Transaction, sent: Transaction, hash: string, evidence: Evidence)

  function Shown(mode: Mode): seq<Deed> {
    if mode.preview || mode.reportPreparation then [Report(PreparationShown)] else []
  }

  // The grammar of one execution: at most one confirmation, at most one send and only after it, the
  // submitted hash reported before the receipt is awaited.
  function Word(mode: Mode, c: Course): seq<Deed> {
    match c
    case Refused => []
    case ShownOnly(_) => Shown(mode)
    case _ => Shown(mode) + Spoken(c)
  }

  // From the question on.
  function Spoken(c: Course): seq<Deed> {
    match c
    case Refused => []
    case ShownOnly(_) => []
    case ConfirmBroke => []
    case Declined(kind, shown) => [Confirm(kind, shown, false), Report(CancelReported)]
    case Stale(kind, shown) => [Confirm(kind, shown, true)]
    case _ => [Confirm(c.kind, c.shown, true)] + Tail(c)
  }

  predicate SentCourse(c: Course) { c.SendBroke? || c.NoReceipt? || c.Settled? }

  // From the send on.
  function Tail(c: Course): seq<Deed>
    requires SentCourse(c)
  {
    match c
    case SendBroke(kind, _, sent) => [Send(kind, sent), Report(SendUnknown)]
    case NoReceipt(kind, _, sent, hash) =>
      [Send(kind, sent), Report(Submitted(hash, kind)), AwaitReceipt(hash), Report(ReceiptUnavailable(hash))]
    case Settled(kind, _, sent, hash, evidence) =>
      [Send(kind, sent), Report(Submitted(hash, kind)), AwaitReceipt(hash), Report(Verified(hash, evidence))]
  }

  // verifiedResult.
  function VerifiedResult(kind: Kind, evidence: Evidence, hash: string): ExecutionResult {
    match evidence
    case Failed => ExecutionFailed(hash)
    case Unavailable => Unknown(Some(hash))
    case Passed => SwapVerified(hash)
    case ReceiptSuccess => ApprovalConfirmed(hash)
  }

  function OutcomeOf(c: Course): Outcome {
    match c
    case Refused => Thrown
    case ShownOnly(previewed) => if previewed then Returned(Preview) else Thrown
    case ConfirmBroke => Thrown
    case Declined(_, _) => Returned(Canceled)
    case Stale(_, _) => Thrown
    case SendBroke(_, _, _) => Returned(Unknown(None))
    case NoReceipt(_, _, _, hash) => Returned(Unknown(Some(hash)))
    case Settled(kind, _, _, hash, evidence) => Returned(VerifiedResult(kind, evidence, hash))
  }

  // Everything one execution is told, whether or not it gets to ask; None where a call throws.
  datatype Told = Told(
    network: Option<bool>, first: Option<Response>, validatedAt: nat, confirmed: Option<bool>, second: Option<Response>,
    checkedAt: nat, networkAgain: Option<bool>, sentAt: nat, hash: Option<string>, receipt: Option<A.Receipt>)

  // What the awaited callbacks do to the objects they hold: nothing, overwrite them in place, or hang other
  // transaction objects on the preparation as well.
  datatype Meddling = Still | InPlace | Anything

  predicate PolicyAllows(policy: ApprovalPolicy, kind: Kind) {
    match policy
    case AnyApproval => true
    case PermissionOnly => kind.Swap? || kind.permission
    case NoApprovals => kind.Swap?
  }

  function KindOf(plan: ExecutionPlan, r: Response): Kind {
    if plan.SwapPlan? then Swap else Approval(r.permission.Some?)
  }

  // ---------- asking the engine ----------

  // What a trade had selected before it asked for a preparation.
  datatype TradeTerms = TradeTerms(route: Route, amountIn: string, tokenIn: Address, tokenOut: Address)

  // The prepare callback of one command: a preparation fetched while parsing arguments is used once,
  // for the first question; every other question goes to the engine.
  class PrepareCommand {
    const byId: bool
    const routeId: string
    const allocations: seq<RouteAllocation>
    const trade: Option<TradeTerms>
    var initial: Option<Response>

    constructor (byId: bool, routeId: string, allocations: seq<RouteAllocation>, trade: Option<TradeTerms>,
                 initial: Option<Response>)
      ensures this.byId == byId && this.routeId == routeId && this.allocations == allocations && this.trade == trade
      ensures this.initial == initial
    {
      this.byId, this.routeId, this.allocations, this.trade, this.initial := byId, routeId, allocations, trade, initial;
    }

    predicate SameAllocations(r: Response) {
      && |r.terms.allocations| == |allocations|
      && forall i :: 0 <= i < |allocations| ==>
           && r.terms.allocations[i].route.Some? && r.terms.allocations[i].route.value.routeId == allocations[i].routeId
           && r.terms.allocations[i].amountIn == allocations[i].amountIn
    }

    // The response is about what was asked for.
    predicate Vetted(r: Response) {
      && (!byId ==> SameAllocations(r) && (r.terms.route.Some? ==> r.terms.route.value.routeId == routeId))
      && (trade.Some? ==>
            && r.terms.route == Some(trade.value.route) && r.terms.amountIn == trade.value.amountIn
            && r.terms.tokenIn == trade.value.tokenIn && r.terms.tokenOut == trade.value.tokenOut)
    }

    // engine: what the engine answers if it is asked, None if the call fails.
    method Ask(id: Option<string>, engine: Option<Response>) returns (r: Option<Response>)
      modifies this`initial
      ensures var source := if id.None? && old(initial).Some? then old(initial) else engine;
              && (source.Some? ==> initial.None?)
              && r == if source.Some? && Executable(source.value.status) && !Vetted(source.value) then None else source
    {
      var response: Response;
      if id.None? && initial.Some? {
        response := initial.value;
      } else {
        if engine.None? { return None; }
        response := engine.value;
      }
      initial := None;
      if !Executable(response.status) { return Some(response); }
      if !byId && response.terms.route.Some? && response.terms.route.value.routeId != routeId { return None; }
      if !byId && !SameAllocations(response) { return None; }
      if trade.Some? &&
         (response.terms.route != Some(trade.value.route) || response.terms.amountIn != trade.value.amountIn ||
          response.terms.tokenIn != trade.value.tokenIn || response.terms.tokenOut != trade.value.tokenOut) {
        return None;
      }
      return Some(response);
    }
  }

  // ---------- the awaited callbacks ----------

  method Meddle(p: PreparationObject, t: TransactionObject, meddling: Meddling)
    modifies p, t, p.transaction, p.approval, p.grant
    ensures !meddling.Anything? ==>
              p.transaction == old(p.transaction) && p.approval == old(p.approval) && p.grant == old(p.grant)
    ensures p.transaction == old(p.transaction) || (p.transaction != null && fresh(p.transaction))
    ensures p.approval == old(p.approval) || (p.approval != null && fresh(p.approval))
    ensures p.grant == old(p.grant) || (p.grant != null && fresh(p.grant))
    ensures meddling.Still? ==> p.Deep() == old(p.Deep()) && t.value == old(t.value) && p.fields == old(p.fields)
  {
    if meddling.Still? { return; }
    p.fields := *;
    t.value := *;
    if p.transaction != null { p.transaction.value := *; }
    if p.approval != null { p.approval.value := *; }
    if p.grant != null { p.grant.value := *; }
    if meddling.Anything? {
      var v: Transaction := *;
      var which: nat := *;
      var other := new TransactionObject(v);
      if which == 0 { p.transaction := other; } else if which == 1 { p.approval := other; } else { p.grant := other; }
    }
  }

  // The answer to the command's question, as a new object; null when there is none or it is refused.
  method Prepare(command: PrepareCommand, id: Option<string>, engine: Option<Response>) returns (p: PreparationObject?)
    modifies command`initial
    ensures
      var source := if id.None? && old(command.initial).Some? then old(command.initial) else engine;
      && (source.Some? ==> command.initial.None?)
      && (p == null <==> source.None? || (Executable(source.value.status) && !command.Vetted(source.value)))
      && (p != null ==> fresh(p) && p.Deep() == source.value)
    ensures p != null && p.transaction != null ==> fresh(p.transaction)
    ensures p != null && p.approval != null ==> fresh(p.approval)
    ensures p != null && p.grant != null ==> fresh(p.grant)
  {
    var r := command.Ask(id, engine);
    if r.None? { return null; }
    p := new PreparationObject(r.value);
  }

  // ---------- the checks between confirmation and sending ----------

  // Serialized text is faithful, so comparing texts compares what they were made from.
  function Immutable(r: Response): Response {
    r.(simulationBlock := None, simulatedOutput := "", message := "")
  }

  predicate Unchanged(prepared: Response, checked: Response, snapshot: Response) {
    Immutable(checked) == Immutable(prepared) && snapshot == prepared
  }

  // A plan acts on the transaction the response chose for its status.
  lemma PlanActsOnChosen(
      r: Response, signer: Address, chainId: string, slippageBps: nat, trusted: Trusted, now: nat)
    requires ValidatePreparation(r, signer, chainId, slippageBps, trusted, now).Ok?
    ensures Chosen(r) == Some(ValidatePreparation(r, signer, chainId, slippageBps, trusted, now).value.transaction)
    ensures Executable(r.status)
  {
    hide TransactionOk, TermsOk, LocalTerms, MinimumOk, PermissionOk, ApprovalOk;
  }

  // What the first question is answered with, before it is looked at.
  function First(initial: Option<Response>, told: Told): Option<Response> {
    if initial.Some? then initial else told.first
  }

  // The engine is asked, and its answer validated as it arrived, before anyone else can touch it.
  method Admit(command: PrepareCommand, told: Told, signer: Address, chainId: string, slippageBps: nat, trusted: Trusted)
    returns (p: PreparationObject?, plan: ExecutionPlan)
    modifies command`initial
    ensures
      var first := First(old(command.initial), told);
      && (p == null <==>
            || first.None? || (Executable(first.value.status) && !command.Vetted(first.value))
            || ValidatePreparation(first.value, signer, chainId, slippageBps, trusted, told.validatedAt).Err?)
      && (p != null ==>
            && p.Deep() == first.value && command.initial.None?
            && ValidatePreparation(first.value, signer, chainId, slippageBps, trusted, told.validatedAt) == Ok(plan))
    ensures p != null ==> fresh(p)
    ensures p != null && p.transaction != null ==> fresh(p.transaction)
    ensures p != null && p.approval != null ==> fresh(p.approval)
    ensures p != null && p.grant != null ==> fresh(p.grant)
    ensures p != null ==> p.ChosenObject() != null && fresh(p.ChosenObject())
    ensures p != null ==> Chosen(p.Deep()) == Some(plan.transaction) && p.ChosenObject().value == plan.transaction
    ensures p != null ==> Linked(p, p.ChosenObject(), p.Deep())
  {
    hide ValidatePreparation;
    plan := ApprovalPlan(Transaction("", 0, 0, OtherBytes([]), "", ""), 0);
    p := Prepare(command, None, told.first);
    if p != null {
      var verdict := ValidatePreparation(p.Deep(), signer, chainId, slippageBps, trusted, told.validatedAt);
      if verdict.Err? { return null, plan; }
      plan := verdict.value;
      PlanActsOnChosen(p.Deep(), signer, chainId, slippageBps, trusted, told.validatedAt);
      p.ChosenIsChosen();
    }
  }

  // No callback changed which object the preparation's own transaction is.
  ghost predicate Linked(p: PreparationObject, t: TransactionObject, snapshot: Response)
    reads p
  {
    t == if snapshot.status != ApprovalRequired then p.transaction
         else if snapshot.permission.Some? && p.grant != null then p.grant
         else p.approval
  }

  method AskConfirmation(
      p: PreparationObject, t: TransactionObject, ghost snapshot: Response, told: Told, meddling: Meddling)
    returns (confirmed: Option<bool>)
    modifies p, t, p.transaction, p.approval, p.grant
    ensures confirmed == told.confirmed
    ensures !meddling.Anything? && old(Linked(p, t, snapshot)) ==> Linked(p, t, snapshot)
    ensures p.transaction == old(p.transaction) || (p.transaction != null && fresh(p.transaction))
    ensures p.approval == old(p.approval) || (p.approval != null && fresh(p.approval))
    ensures p.grant == old(p.grant) || (p.grant != null && fresh(p.grant))
    ensures meddling.Still? ==> p.Deep() == old(p.Deep()) && t.value == old(t.value)
  {
    Meddle(p, t, meddling);
    confirmed := told.confirmed;
  }

  // An answer that allows the send at a moment: executable, unexpired, and the one that was confirmed but for
  // its block, its estimate and its message.
  predicate Repeats(second: Response, first: Response, now: nat) {
    && (second.status == Ready || second.status == ApprovalRequired)
    && UnexpiredAt(second.terms, now)
    && second.(simulationBlock := first.simulationBlock, simulatedOutput := first.simulatedOutput,
               message := first.message) == first
  }

  predicate UnexpiredAt(terms: Terms, now: nat) {
    && AllDigits(terms.deadline) && terms.deadline != "" && now < Value(terms.deadline) < UINT256_LIMIT
    && AllDigits(terms.expiresAt) && terms.expiresAt != "" && now < Value(terms.expiresAt)
  }

  // Everything that has to be true between a confirmation and its send.
  predicate MaySend(first: Response, told: Told) {
    && told.second.Some? && Repeats(told.second.value, first, told.checkedAt)
    && told.networkAgain == Some(true) && UnexpiredAt(first.terms, told.sentAt)
  }

  lemma RepeatingIsUnchanged(command: PrepareCommand, first: Response, second: Response, now: nat)
    ensures Current(second, now) && Unchanged(first, second, first) <==> Repeats(second, first, now)
    ensures Repeats(second, first, now) ==> (command.Vetted(second) <==> command.Vetted(first))
  {
    hide Value, AllDigits;
  }

  lemma CurrentIsUnexpired(r: Response, now: nat)
    requires Executable(r.status)
    ensures Current(r, now) <==> UnexpiredAt(r.terms, now)
  {
    hide Value, AllDigits;
  }

  lemma UnchangedIsSnapshot(prepared: Response, checked: Response, snapshot: Response)
    ensures Unchanged(prepared, checked, snapshot) ==> prepared == snapshot
  {}

  // Asked again after confirmation: the answer is current and says the same, and so does the
  // preparation, both before and after the network is asked once more. What is about to be sent is then what
  // was consented to exactly if the preparation's own object of its status holds the same.
  method Recheck(
      command: PrepareCommand, p: PreparationObject, t: TransactionObject, snapshot: Response, told: Told,
      meddling: Meddling)
    returns (ok: bool)
    requires command.initial.None? && command.Vetted(snapshot) && Executable(snapshot.status)
    modifies command`initial, p, t, p.transaction, p.approval, p.grant
    ensures ok ==> MaySend(snapshot, told)
    ensures meddling.Still? && old(p.Deep()) == snapshot ==> (ok <==> MaySend(snapshot, told))
    ensures meddling.Still? ==> t.value == old(t.value)
    ensures ok && !meddling.Anything? && old(Linked(p, t, snapshot)) ==> Some(t.value) == Chosen(snapshot)
    ensures ok ==> (Some(t.value) == Chosen(snapshot) <==>
                    p.ChosenObject() != null && p.ChosenObject().value == t.value)
  {
    hide Current, Unchanged, Repeats, UnexpiredAt, PrepareCommand.Vetted;
    CurrentIsUnexpired(snapshot, told.sentAt);
    if told.second.Some? { RepeatingIsUnchanged(command, snapshot, told.second.value, told.checkedAt); }
    var id := p.fields.terms.preparationId;
    Meddle(p, t, meddling);
    var checked := Prepare(command, if id == "" then None else Some(id), told.second);
    if checked == null { return false; }
    UnchangedIsSnapshot(p.Deep(), checked.Deep(), snapshot);
    if !Current(checked.Deep(), told.checkedAt) || !Unchanged(p.Deep(), checked.Deep(), snapshot) { return false; }
    Meddle(p, t, meddling);
    if told.networkAgain != Some(true) { return false; }
    p.ChosenIsChosen();
    UnchangedIsSnapshot(p.Deep(), checked.Deep(), snapshot);
    return Unchanged(p.Deep(), checked.Deep(), snapshot) && Current(p.Deep(), told.sentAt);
  }

  function SwapObligations(o: Obligations): A.Obligations {
    A.Obligations(
      o.tokenIn, o.tokenOut, o.recipient, if AllDigits(o.amountIn) then Value(o.amountIn) else 0,
      if AllDigits(o.minimum) then Value(o.minimum) else 0, o.intermediate, o.touched)
  }

  // What a passed verification establishes.
  ghost predicate Proven(receipt: A.Receipt, hash: string, o: Obligations) {
    A.ReceiptPasses(receipt, hash, SwapObligations(o))
  }

  // A receipt of this transaction whose transfers, if it succeeded, can all be read.
  ghost predicate Readable(receipt: A.Receipt, hash: string) {
    receipt.transactionHash == hash && (receipt.success ==> A.AllAdmitted(receipt.logs, hash))
  }

  // The receipt of a send, judged; None when it cannot be had or is not about this transaction.
  method Judge(plan: ExecutionPlan, receipt: Option<A.Receipt>, hash: string) returns (evidence: Option<Evidence>)
    ensures evidence.None? <==> receipt.None? || (plan.ApprovalPlan? && receipt.value.transactionHash != hash)
    ensures evidence == Some(Passed) <==> plan.SwapPlan? && receipt.Some? && Proven(receipt.value, hash, plan.obligations)
    ensures evidence == Some(ReceiptSuccess) <==>
              plan.ApprovalPlan? && receipt.Some? && receipt.value.transactionHash == hash && receipt.value.success
    ensures evidence == Some(Unavailable) <==> plan.SwapPlan? && receipt.Some? && !Readable(receipt.value, hash)
    ensures evidence == Some(Failed) <==>
              && receipt.Some? && receipt.value.transactionHash == hash
              && (!receipt.value.success
                  || (plan.SwapPlan? && Readable(receipt.value, hash) && !Proven(receipt.value, hash, plan.obligations)))
  {
    if receipt.None? { return None; }
    match plan {
      case SwapPlan(_, _, obligations) =>
        var verification := A.VerifyReceipt(receipt.value, hash, SwapObligations(obligations));
        match verification {
          case Unavailable => return Some(Unavailable);
          case Reverted => return Some(Failed);
          case Checked(passed, _, _, _, _) => return Some(if passed then Passed else Failed);
        }
      case ApprovalPlan(_, _) =>
        if receipt.value.transactionHash != hash { return None; }
        return Some(if receipt.value.success then ReceiptSuccess else Failed);
    }
  }

  // ---------- the whole execution ----------

  ghost predicate Honoured(policy: ApprovalPolicy, c: Course) {
    match c
    case Declined(kind, _) => PolicyAllows(policy, kind)
    case Stale(kind, _) => PolicyAllows(policy, kind)
    case SendBroke(kind, _, _) => PolicyAllows(policy, kind)
    case NoReceipt(kind, _, _, _) => PolicyAllows(policy, kind)
    case Settled(kind, _, _, hash, evidence) =>
      && PolicyAllows(policy, kind) && IsHash(hash)
      && (evidence == Passed ==> kind.Swap?) && (evidence == ReceiptSuccess ==> kind.Approval?)
    case _ => true
  }

  // What a receipt proves of a plan.
  ghost predicate EvidenceIs(plan: ExecutionPlan, receipt: A.Receipt, hash: string, evidence: Evidence) {
    match evidence
    case Passed => plan.SwapPlan? && Proven(receipt, hash, plan.obligations)
    case ReceiptSuccess => plan.ApprovalPlan? && receipt.transactionHash == hash && receipt.success
    case Unavailable => plan.SwapPlan? && !Readable(receipt, hash)
    case Failed =>
      && receipt.transactionHash == hash
      && (!receipt.success || (plan.SwapPlan? && Readable(receipt, hash) && !Proven(receipt, hash, plan.obligations)))
  }

  // How a send went, by what came back.
  ghost predicate Went(c: Course, plan: ExecutionPlan, told: Told)
    requires SentCourse(c)
  {
    var submitted := told.hash.Some? && IsHash(told.hash.value);
    && (c.SendBroke? <==> !submitted) && (submitted ==> c.hash == told.hash.value)
    && (c.NoReceipt? <==>
          submitted && (told.receipt.None? || (plan.ApprovalPlan? && told.receipt.value.transactionHash != c.hash)))
    && (c.Settled? ==> EvidenceIs(plan, told.receipt.value, c.hash, c.evidence))
  }

  // How far an execution of an accepted preparation gets, by what it is told: exactly, if the callbacks leave
  // the objects alone.
  ghost predicate Followed(
      c: Course, mode: Mode, told: Told, first: Response, plan: ExecutionPlan, meddling: Meddling)
  {
    var allowed := plan.SwapPlan? || mode.policy.AnyApproval? || (mode.policy.PermissionOnly? && first.permission.Some?);
    && (c == ShownOnly(false) <==> !allowed) && (c == ShownOnly(true) <==> allowed && mode.preview)
    && (!c.ShownOnly? ==> Asked(c, told, first, plan, meddling))
  }

  // The same from the question on.
  ghost predicate Asked(c: Course, told: Told, first: Response, plan: ExecutionPlan, meddling: Meddling) {
    && !c.Refused? && !c.ShownOnly?
    && (c.ConfirmBroke? <==> told.confirmed.None?) && (c.Declined? <==> told.confirmed == Some(false))
    && (c.Stale? || SentCourse(c) <==> told.confirmed == Some(true))
    && (c.Declined? || c.Stale? || SentCourse(c) ==>
          c.shown == plan.transaction && c.kind == if plan.SwapPlan? then Swap else Approval(first.permission.Some?))
    && (SentCourse(c) ==> MaySend(first, told) && Went(c, plan, told))
    && (c.Stale? && meddling.Still? ==> !MaySend(first, told))
    && (SentCourse(c) && !meddling.Anything? ==> c.sent == plan.transaction)
  }

  // The only send, of what the object holds now, and what follows it.
  method SendAndVerify(plan: ExecutionPlan, kind: Kind, t: TransactionObject, told: Told)
    returns (outcome: Outcome, tail: seq<Deed>, course: Course)
    requires plan.SwapPlan? <==> kind.Swap?
    ensures SentCourse(course) && course.kind == kind && course.shown == plan.transaction && course.sent == t.value
    ensures tail == Tail(course) && outcome == OutcomeOf(course) && Went(course, plan, told)
    ensures course.Settled? ==>
              IsHash(course.hash) && (course.evidence == Passed ==> kind.Swap?) &&
              (course.evidence == ReceiptSuccess ==> kind.Approval?)
  {
    hide Proven, Readable, IsHash;
    var shown, sent := plan.transaction, t.value;
    tail := [Send(kind, sent)];
    var hash := told.hash;
    if hash.None? || !IsHash(hash.value) {
      tail := tail + [Report(SendUnknown)];
      return Returned(Unknown(None)), tail, SendBroke(kind, shown, sent);
    }
    tail := tail + [Report(Submitted(hash.value, kind))];
    tail := tail + [AwaitReceipt(hash.value)];
    var evidence := Judge(plan, told.receipt, hash.value);
    if evidence.None? {
      tail := tail + [Report(ReceiptUnavailable(hash.value))];
      return Returned(Unknown(hash)), tail, NoReceipt(kind, shown, sent, hash.value);
    }
    tail := tail + [Report(Verified(hash.value, evidence.value))];
    return Returned(VerifiedResult(kind, evidence.value, hash.value)), tail,
           Settled(kind, shown, sent, hash.value, evidence.value);
  }

  // The question, the checks after it, and the send.
  method AskAndSend(
      command: PrepareCommand, p: PreparationObject, chosen: TransactionObject, first: Response, plan: ExecutionPlan,
      told: Told, meddling: Meddling)
    returns (outcome: Outcome, log: seq<Deed>, course: Course)
    requires p.Deep() == first && Linked(p, chosen, first) && chosen.value == plan.transaction
    requires Chosen(first) == Some(plan.transaction) && Executable(first.status)
    requires command.initial.None? && command.Vetted(first)
    modifies command`initial, p, chosen, p.transaction, p.approval, p.grant
    ensures log == Spoken(course) && outcome == OutcomeOf(course) && Asked(course, told, first, plan, meddling)
    ensures course.Settled? ==>
              IsHash(course.hash) && (course.evidence == Passed ==> course.kind.Swap?) &&
              (course.evidence == ReceiptSuccess ==> course.kind.Approval?)
  {
    hide Proven, Readable, IsHash, Chosen, Linked, Tail, VerifiedResult, MaySend, Went, PrepareCommand.Vetted;
    log := [];
    var kind, shown := KindOf(plan, first), chosen.value;
    var confirmed := AskConfirmation(p, chosen, first, told, meddling);
    if confirmed.None? { return Thrown, log, ConfirmBroke; }
    log := log + [Confirm(kind, shown, confirmed.value)];
    if !confirmed.value {
      log := log + [Report(CancelReported)];
      return Returned(Canceled), log, Declined(kind, shown);
    }
    var same := Recheck(command, p, chosen, first, told, meddling);
    if !same { return Thrown, log, Stale(kind, shown); }
    var rest: seq<Deed>;
    outcome, rest, course := SendAndVerify(plan, kind, chosen, told);
    log := log + rest;
  }

  // Whatever the engine, the wallet, the user and the chain say. It is refused exactly without the right network,
  // an answer to what was asked, or a validation of it.
  method ExecutePrepared(
      command: PrepareCommand, mode: Mode, signer: Address, chainId: string, slippageBps: nat, trusted: Trusted,
      told: Told, meddling: Meddling)
    returns (outcome: Outcome, log: seq<Deed>, course: Course)
    modifies command`initial
    ensures log == Word(mode, course) && outcome == OutcomeOf(course) && Honoured(mode.policy, course)
    ensures
      var first := First(old(command.initial), told);
      && (course.Refused? <==>
            || told.network != Some(true) || first.None?
            || (Executable(first.value.status) && !command.Vetted(first.value))
            || ValidatePreparation(first.value, signer, chainId, slippageBps, trusted, told.validatedAt).Err?)
      && (!course.Refused? ==>
            Followed(course, mode, told, first.value,
                     ValidatePreparation(first.value, signer, chainId, slippageBps, trusted, told.validatedAt).value,
                     meddling))
  {
    hide ValidatePreparation, IsHash, Chosen, Linked, Spoken, Asked, PrepareCommand.Vetted;
    log, course := [], Refused;
    if told.network != Some(true) { return Thrown, log, course; }
    var prepared, plan := Admit(command, told, signer, chainId, slippageBps, trusted);
    if prepared == null { return Thrown, log, course; }
    var first := prepared.Deep();
    PlanActsOnChosen(first, signer, chainId, slippageBps, trusted, told.validatedAt);
    var kind := KindOf(plan, first);
    if mode.preview || mode.reportPreparation { log := log + [Report(PreparationShown)]; }
    if !PolicyAllows(mode.policy, kind) { return Thrown, log, ShownOnly(false); }
    if mode.preview { return Returned(Preview), log, ShownOnly(true); }
    var rest: seq<Deed>;
    outcome, rest, course := AskAndSend(command, prepared, prepared.ChosenObject(), first, plan, told, meddling);
    log := log + rest;
    AskedIsAsked(course, told, first, plan, meddling);
    AllowedIsHonoured(mode.policy, course, told, first, plan, meddling);
  }

  lemma AskedIsAsked(c: Course, told: Told, first: Response, plan: ExecutionPlan, meddling: Meddling)
    requires Asked(c, told, first, plan, meddling)
    ensures !c.Refused? && !c.ShownOnly?
  {
    hide MaySend, Went;
  }

  lemma AllowedIsHonoured(
      policy: ApprovalPolicy, c: Course, told: Told, first: Response, plan: ExecutionPlan, meddling: Meddling)
    requires Asked(c, told, first, plan, meddling) && PolicyAllows(policy, KindOf(plan, first))
    requires c.Settled? ==>
               IsHash(c.hash) && (c.evidence == Passed ==> c.kind.Swap?) &&
               (c.evidence == ReceiptSuccess ==> c.kind.Approval?)
    ensures Honoured(policy, c)
  {
    hide MaySend, Went, IsHash;
  }

  // Why the callbacks must not re-point: with another object of the old value hung on the
  // preparation, every comparison passes while the object to be sent says something else.
  method RepointingDefeatsTheChecks(p: PreparationObject, chosen: TransactionObject, other: Transaction)
    requires p.fields.status == Ready && p.transaction == chosen && p.approval == null && p.grant == null
    requires other != chosen.value
    modifies p, chosen
    ensures p.Deep() == old(p.Deep()) && Unchanged(p.Deep(), old(p.Deep()), old(p.Deep()))
    ensures chosen.value == other && Chosen(p.Deep()) != Some(chosen.value)
  {
    p.transaction := new TransactionObject(chosen.value);
    chosen.value := other;
  }
}
