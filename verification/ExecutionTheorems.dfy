// What an execution must have been told before it sends, and before it calls a swap verified.
module ExecutionTheorems {
  import opened Messages
  import opened Numerals
  import opened Policy
  import opened Execution
  import A = Accounting

  // The command lets an executable answer through exactly if it is about the route or the allocations asked
  // for, unless it asked by preparation, and about the very terms of its trade, if it has one.
  lemma LetThroughExactly(command: PrepareCommand, r: Response)
    ensures command.Vetted(r) <==>
            && (command.byId
                || (&& (r.terms.route.None? || r.terms.route.value.routeId == command.routeId)
                    && |r.terms.allocations| == |command.allocations|
                    && forall i :: 0 <= i < |command.allocations| ==>
                         && r.terms.allocations[i].route.Some?
                         && r.terms.allocations[i].route.value.routeId == command.allocations[i].routeId
                         && r.terms.allocations[i].amountIn == command.allocations[i].amountIn))
            && (command.trade.None?
                || (&& r.terms.route.Some? && r.terms.route.value == command.trade.value.route
                    && r.terms.amountIn == command.trade.value.amountIn
                    && r.terms.tokenIn == command.trade.value.tokenIn
                    && r.terms.tokenOut == command.trade.value.tokenOut))
  {}

  // What the engine's second answer, the clock and the network must say between a confirmation and its send.
  predicate ClearedToSend(first: Response, told: Told) {
    && told.second.Some? && SaysTheSame(told.second.value, first)
    && IsDecimal(first.terms.deadline) && IsDecimal(first.terms.expiresAt)
    && told.checkedAt < Value(first.terms.deadline) && told.checkedAt < Value(first.terms.expiresAt)
    && told.networkAgain == Some(true)
    && told.sentAt < Value(first.terms.deadline) < UINT256_LIMIT && told.sentAt < Value(first.terms.expiresAt)
  }

  // Executable, and the same in every field but the message, the block and the estimate.
  predicate SaysTheSame(second: Response, first: Response) {
    && (second.status == Ready || second.status == ApprovalRequired) && second.status == first.status
    && second.terms == first.terms && second.transaction == first.transaction
    && second.approvalSpender == first.approvalSpender && second.approvalTransaction == first.approvalTransaction
    && second.permission == first.permission
  }

  lemma MaySendExactly(first: Response, told: Told)
    ensures MaySend(first, told) <==> ClearedToSend(first, told)
  {
    hide Value, AllDigits;
    if told.second.Some? {
      var second := told.second.value;
      assert second.(simulationBlock := first.simulationBlock, simulatedOutput := first.simulatedOutput,
                     message := first.message)
          == Response(second.status, first.message, second.terms, second.transaction, second.approvalSpender,
                      second.approvalTransaction, second.permission, first.simulationBlock, first.simulatedOutput);
    }
  }

  // However the callbacks meddle, nothing is sent but after a confirmation of the plan, an executable second
  // answer that says the same and is not over, and a second look at the network.
  lemma SentIsRechecked(c: Course, mode: Mode, told: Told, first: Response, plan: ExecutionPlan, meddling: Meddling)
    requires Followed(c, mode, told, first, plan, meddling) && (c.SendBroke? || c.NoReceipt? || c.Settled?)
    ensures !mode.preview && told.confirmed == Some(true) && ClearedToSend(first, told)
    ensures c.shown == plan.transaction && (meddling.Still? || meddling.InPlace? ==> c.sent == plan.transaction)
    ensures plan.ApprovalPlan? ==> mode.policy.AnyApproval? || (mode.policy.PermissionOnly? && first.permission.Some?)
  {
    hide MaySend, Went, ClearedToSend;
    MaySendExactly(first, told);
  }

  // And if they leave the objects alone, everything that may be sent is.
  lemma SendsExactly(c: Course, mode: Mode, told: Told, first: Response, plan: ExecutionPlan)
    requires Followed(c, mode, told, first, plan, Still)
    ensures (c.SendBroke? || c.NoReceipt? || c.Settled?) <==>
            && (plan.SwapPlan? || mode.policy.AnyApproval? || (mode.policy.PermissionOnly? && first.permission.Some?))
            && !mode.preview && told.confirmed == Some(true) && ClearedToSend(first, told)
  {
    hide MaySend, Went, ClearedToSend;
    MaySendExactly(first, told);
  }

  // The receipt of a swap bears out the plan: it is this transaction's and succeeded, its Transfer logs are all
  // standard and its own, exactly the input left the recipient, at least the minimum arrived, and none of
  // the other balances of the plan moved.
  ghost predicate BornOut(receipt: A.Receipt, hash: string, o: Obligations) {
    var logs := A.LogsOf(receipt.logs);
    && receipt.transactionHash == hash && receipt.success
    && (forall i :: 0 <= i < |receipt.logs| ==> OwnAndStandard(receipt.logs[i], hash))
    && (IsDecimal(o.amountIn) && IsDecimal(o.minimum) ==>
          && A.Delta(logs, o.tokenIn, o.recipient) + Value(o.amountIn) == 0
          && A.Delta(logs, o.tokenOut, o.recipient) >= Value(o.minimum))
    && (forall p :: p in o.intermediate || p in o.touched ==> A.Delta(logs, p.token, p.owner) == 0)
  }

  // A log of this transaction, not taken back by a reorganisation; a Transfer with two address words and one amount.
  predicate OwnAndStandard(item: A.ReceiptLog, hash: string) {
    && item.transactionHash == hash && !item.removed
    && (|item.log.topics| > 0
        && item.log.topics[0] == 0xddf252ad1be2c89b69c2b068fc378daa952ba7f163c4a11628f55a4df523b3ef ==>
          && |item.log.topics| == 3 && |item.log.data| == 32
          && item.log.topics[1] < ADDRESS_LIMIT && item.log.topics[2] < ADDRESS_LIMIT)
  }

  lemma ProvenExactly(receipt: A.Receipt, hash: string, o: Obligations)
    requires IsDecimal(o.amountIn) && IsDecimal(o.minimum)
    ensures Proven(receipt, hash, o) <==> BornOut(receipt, hash, o)
  {
    hide Value, AllDigits, A.Delta;
    A.ProtectedMembers(A.LogsOf(receipt.logs), o.intermediate);
    A.ProtectedMembers(A.LogsOf(receipt.logs), o.touched);
    assert forall i :: 0 <= i < |receipt.logs| ==>
             (A.Admitted(receipt.logs[i], hash) <==> OwnAndStandard(receipt.logs[i], hash));
  }

  lemma ProvenIsReadable(receipt: A.Receipt, hash: string, o: Obligations)
    ensures Proven(receipt, hash, o) ==> Readable(receipt, hash) && receipt.success
  {
    hide A.Delta;
  }

  // An execution calls a swap verified exactly when its plan is a swap that was not a preview, the user said
  // yes, it could still be sent, the wallet gave a hash, and the receipt of that hash bears out the plan.
  lemma VerifiedExactly(c: Course, mode: Mode, told: Told, first: Response, plan: ExecutionPlan, hash: string)
    requires Followed(c, mode, told, first, plan, Still)
    requires plan.SwapPlan? ==> IsDecimal(plan.obligations.amountIn) && IsDecimal(plan.obligations.minimum)
    ensures OutcomeOf(c) == Returned(SwapVerified(hash)) <==>
            && plan.SwapPlan? && !mode.preview && told.confirmed == Some(true) && ClearedToSend(first, told)
            && told.hash == Some(hash) && IsHash(hash) && told.receipt.Some?
            && BornOut(told.receipt.value, hash, plan.obligations)
  {
    hide Proven, Readable, ClearedToSend, MaySend, BornOut, IsHash;
    SendsExactly(c, mode, told, first, plan);
    if plan.SwapPlan? && told.receipt.Some? {
      ProvenExactly(told.receipt.value, hash, plan.obligations);
      ProvenIsReadable(told.receipt.value, hash, plan.obligations);
    }
  }

  // The other ends of a validated execution: a preview, a refusal of the user, a send of unknown fate, and a
  // transaction that failed or, as a swap, did not do what was planned.
  lemma OtherEnds(c: Course, mode: Mode, told: Told, first: Response, plan: ExecutionPlan, hash: string)
    requires Followed(c, mode, told, first, plan, Still)
    ensures
      var allowed := plan.SwapPlan? || mode.policy.AnyApproval? || (mode.policy.PermissionOnly? && first.permission.Some?);
      var sent := allowed && !mode.preview && told.confirmed == Some(true) && ClearedToSend(first, told);
      var hashed := sent && told.hash == Some(hash) && IsHash(hash);
      && (OutcomeOf(c) == Returned(Preview) <==> allowed && mode.preview)
      && (OutcomeOf(c) == Returned(Canceled) <==> allowed && !mode.preview && told.confirmed == Some(false))
      && (OutcomeOf(c) == Returned(Unknown(None)) <==> sent && (told.hash.None? || !IsHash(told.hash.value)))
      && (OutcomeOf(c) == Returned(Unknown(Some(hash))) <==>
            && hashed
            && (|| told.receipt.None?
                || (plan.ApprovalPlan? && told.receipt.value.transactionHash != hash)
                || (plan.SwapPlan? && !Readable(told.receipt.value, hash))))
      && (OutcomeOf(c) == Returned(ExecutionFailed(hash)) <==>
            && hashed && told.receipt.Some? && told.receipt.value.transactionHash == hash
            && (!told.receipt.value.success
                || (plan.SwapPlan? && Readable(told.receipt.value, hash)
                    && !Proven(told.receipt.value, hash, plan.obligations))))
  {
    hide Proven, Readable, ClearedToSend, MaySend, IsHash;
    SendsExactly(c, mode, told, first, plan);
    if plan.SwapPlan? && told.receipt.Some? {
      ProvenIsReadable(told.receipt.value, hash, plan.obligations);
      ReadableSays(told.receipt.value, hash);
    }
  }

  // A receipt can be read if it is this transaction's and, where that succeeded, all its logs are.
  lemma ReadableSays(receipt: A.Receipt, hash: string)
    ensures Readable(receipt, hash) <==>
            && receipt.transactionHash == hash
            && (receipt.success ==> forall i :: 0 <= i < |receipt.logs| ==> OwnAndStandard(receipt.logs[i], hash))
  {
    assert forall i :: 0 <= i < |receipt.logs| ==>
             (A.Admitted(receipt.logs[i], hash) <==> OwnAndStandard(receipt.logs[i], hash));
  }

  // A confirmed approval is the receipt of that hash, successful.
  lemma ApprovalConfirmedExactly(c: Course, mode: Mode, told: Told, first: Response, plan: ExecutionPlan, hash: string)
    requires Followed(c, mode, told, first, plan, Still)
    ensures OutcomeOf(c) == Returned(ApprovalConfirmed(hash)) <==>
            && plan.ApprovalPlan? && !mode.preview && told.confirmed == Some(true) && ClearedToSend(first, told)
            && (mode.policy.AnyApproval? || (mode.policy.PermissionOnly? && first.permission.Some?))
            && told.hash == Some(hash) && IsHash(hash) && told.receipt.Some?
            && told.receipt.value.transactionHash == hash && told.receipt.value.success
  {
    hide Proven, Readable, ClearedToSend, MaySend, IsHash;
    SendsExactly(c, mode, told, first, plan);
  }
}
