// One quote, one transaction? What the answers of a run authorise, exactly when that is more than one
// transaction for one preparation or one quote, and runs in which it is.
module Authorizations {
  import opened Messages
  import opened Numerals
  import opened Retention
  import opened PreparationProtocol
  import opened PreparationSafety
  import opened PreparationRecord
  import opened PreparationTheorems
  import opened LoneCalls

  // The transaction of a class that a response asks its caller to sign.
  function Authorized(r: Response, k: Kind): Option<Transaction> {
    match k
    case SwapKind => r.transaction
    case Erc20Kind => r.approvalTransaction
    case PermissionKind => if r.permission.Some? then r.permission.value.transaction else None
  }

  predicate Authorizes(r: Response, k: Kind) { Authorized(r, k).Some? }

  // The answers over one quote.
  predicate OfQuote(s: State, a: Issued, quoteId: string) {
    a in s.answers && IdOf(a) in s.history.frozen && s.history.frozen[IdOf(a)].quoteId == quoteId
  }

  // ---------- one preparation ----------

  predicate AsksForBoth(s: State, a: Issued) {
    a in s.answers && Authorizes(a.response, Erc20Kind) && Authorizes(a.response, PermissionKind)
  }

  // Some answered call found the allowance of a preparation good and its permission missing.
  predicate PermissionAsked(s: State, id: string) {
    exists a :: a in s.answers && IdOf(a) == id && a.response.permission.Some?
  }

  // What one answer under an ID may carry.
  lemma AnswerShapes(chains: Chains, steps: seq<Step>, a: Issued)
    requires a in Run(chains, steps).answers
    ensures
      var s := Run(chains, steps);
      && IdOf(a) in s.history.frozen && IdOf(a) in s.history.kinds
      && (Authorizes(a.response, SwapKind) <==> s.history.kinds[IdOf(a)] == SwapKind)
      && (Authorizes(a.response, PermissionKind) <==> s.history.kinds[IdOf(a)] == PermissionKind)
      && (a.response.permission.Some? <==> Authorizes(a.response, PermissionKind))
      && (s.history.kinds[IdOf(a)] == Erc20Kind ==> Authorizes(a.response, Erc20Kind))
      && (s.history.kinds[IdOf(a)] == SwapKind ==> !Authorizes(a.response, Erc20Kind))
  {
    hide RequestsOk, QuotesOk, LatchOk, PreparationsOk, HistoryOk, MarksOk, TaintOk, BornOk, ApprovalTransaction;
    RunInv(chains, steps);
    assert IssuedOk(chains, Run(chains, steps).history, a);
  }

  // The approvals on the record come from calls that found the allowance short.
  lemma ApprovalsAreTraced(chains: Chains, steps: seq<Step>, a: Issued)
    requires a in Run(chains, steps).answers
    ensures a.short ==> Authorizes(a.response, Erc20Kind)
    ensures Authorizes(a.response, Erc20Kind) ==> ShortAnswered(Run(chains, steps).answers, IdOf(a))
  {
    hide RequestsTraced, StoreTraced, KindsAnswered, MarksAbandoned, Inv;
    RunRecord(chains, steps);
    assert Asked(Run(chains, steps).answers, a.response);
  }

  // A preparation is ever answered with an ERC-20 approval and a Permit2 permission at once if and only
  // if it was answered with a permission and one of its answered calls found the allowance short.
  lemma BothExactly(chains: Chains, steps: seq<Step>, id: string)
    ensures
      var s := Run(chains, steps);
      (exists a :: AsksForBoth(s, a) && IdOf(a) == id) <==> PermissionAsked(s, id) && ShortAnswered(s.answers, id)
  {
    hide Run;
    var s := Run(chains, steps);
    if PermissionAsked(s, id) && ShortAnswered(s.answers, id) {
      var p :| p in s.answers && IdOf(p) == id && p.response.permission.Some?;
      var a :| a in s.answers && IdOf(a) == id && a.short;
      AnswerShapes(chains, steps, p);
      AnswerShapes(chains, steps, a);
      ApprovalsAreTraced(chains, steps, a);
      assert AsksForBoth(s, a);
    }
    if a :| AsksForBoth(s, a) && IdOf(a) == id {
      AnswerShapes(chains, steps, a);
      ApprovalsAreTraced(chains, steps, a);
      assert PermissionAsked(s, id);
    }
  }

  // ---------- one quote ----------

  // Everything the answers over a quote ask to sign is one transaction of one preparation.
  ghost predicate OneTransaction(s: State, quoteId: string) {
    forall a, b, x, y ::
      OfQuote(s, a, quoteId) && OfQuote(s, b, quoteId) && Authorizes(a.response, x) && Authorizes(b.response, y)
      ==> IdOf(a) == IdOf(b) && x == y && Authorized(a.response, x) == Authorized(b.response, y)
  }

  // At most one first call of the quote was answered.
  ghost predicate OneFirstCall(s: State, quoteId: string) {
    forall a, b ::
      OfQuote(s, a, quoteId) && OfQuote(s, b, quoteId) && a.rid in s.history.born && b.rid in s.history.born
      ==> a.rid == b.rid
  }

  // No call over the quote that found the allowance short was answered beside a permission.
  ghost predicate NoShortBesidePermission(s: State, quoteId: string) {
    forall a, b :: OfQuote(s, a, quoteId) && OfQuote(s, b, quoteId) && a.response.permission.Some? ==> !b.short
  }

  lemma BirthsDiffer(chains: Chains, steps: seq<Step>, a: Issued, b: Issued)
    requires a in Run(chains, steps).answers && b in Run(chains, steps).answers
    requires a.rid in Run(chains, steps).history.born && b.rid in Run(chains, steps).history.born
    ensures a.rid == b.rid <==> IdOf(a) == IdOf(b)
  {
    hide RequestsOk, QuotesOk, LatchOk, PreparationsOk, MarksOk, TaintOk, BornOk, FieldsOk, AnswerShape;
    RunInv(chains, steps);
    assert IssuedOk(chains, Run(chains, steps).history, a) && IssuedOk(chains, Run(chains, steps).history, b);
  }

  lemma SamePreparation(chains: Chains, steps: seq<Step>, quoteId: string, a: Issued, b: Issued)
    requires OneFirstCall(Run(chains, steps), quoteId)
    requires OfQuote(Run(chains, steps), a, quoteId) && OfQuote(Run(chains, steps), b, quoteId)
    ensures IdOf(a) == IdOf(b)
  {
    hide Run;
    var first := FirstCallOf(chains, steps, a);
    var other := FirstCallOf(chains, steps, b);
    assert OfQuote(Run(chains, steps), first, quoteId) && OfQuote(Run(chains, steps), other, quoteId);
  }

  lemma SameClass(chains: Chains, steps: seq<Step>, quoteId: string, a: Issued, b: Issued, x: Kind, y: Kind)
    requires NoShortBesidePermission(Run(chains, steps), quoteId) && IdOf(a) == IdOf(b)
    requires OfQuote(Run(chains, steps), a, quoteId) && OfQuote(Run(chains, steps), b, quoteId)
    requires Authorizes(a.response, x) && Authorizes(b.response, y)
    ensures x == y
  {
    hide Run;
    var s := Run(chains, steps);
    AnswerShapes(chains, steps, a);
    AnswerShapes(chains, steps, b);
    ApprovalsAreTraced(chains, steps, a);
    ApprovalsAreTraced(chains, steps, b);
    if s.history.kinds[IdOf(a)] == PermissionKind {
      forall other | other in s.answers && IdOf(other) == IdOf(a) ensures !other.short {
        assert OfQuote(s, other, quoteId) && a.response.permission.Some?;
      }
      assert !ShortAnswered(s.answers, IdOf(a));
    }
  }

  // One quote authorises one transaction if and only if at most one first call of it was answered and
  // none of its answered calls found the allowance short once the permission had been asked for.
  lemma OneTransactionExactly(chains: Chains, steps: seq<Step>, quoteId: string)
    ensures
      var s := Run(chains, steps);
      OneTransaction(s, quoteId) <==> OneFirstCall(s, quoteId) && NoShortBesidePermission(s, quoteId)
  {
    hide Run, Authorized, Authorizes;
    var s := Run(chains, steps);
    if OneFirstCall(s, quoteId) && NoShortBesidePermission(s, quoteId) {
      forall a, b, x, y |
        OfQuote(s, a, quoteId) && OfQuote(s, b, quoteId) && Authorizes(a.response, x) && Authorizes(b.response, y)
        ensures IdOf(a) == IdOf(b) && x == y && Authorized(a.response, x) == Authorized(b.response, y) {
        SamePreparation(chains, steps, quoteId, a, b);
        SameClass(chains, steps, quoteId, a, b, x, y);
        SameTransaction(chains, steps, a, b, x);
      }
    }
    if OneTransaction(s, quoteId) {
      forall a, b | OfQuote(s, a, quoteId) && OfQuote(s, b, quoteId) && a.rid in s.history.born && b.rid in s.history.born
        ensures a.rid == b.rid {
        SomethingAuthorized(chains, steps, a);
        SomethingAuthorized(chains, steps, b);
        BirthsDiffer(chains, steps, a, b);
      }
      forall a, b | OfQuote(s, a, quoteId) && OfQuote(s, b, quoteId) && a.response.permission.Some? ensures !b.short {
        AnswerShapes(chains, steps, a);
        ApprovalsAreTraced(chains, steps, b);
        assert b.short ==> PermissionKind == Erc20Kind;
      }
    }
  }

  lemma BothBreaks(chains: Chains, steps: seq<Step>, a: Issued, quoteId: string)
    requires OfQuote(Run(chains, steps), a, quoteId) && AsksForBoth(Run(chains, steps), a)
    ensures !OneTransaction(Run(chains, steps), quoteId)
  {
    hide Run, Authorizes;
    assert Erc20Kind != PermissionKind;
  }

  lemma SomethingAuthorized(chains: Chains, steps: seq<Step>, a: Issued)
    requires a in Run(chains, steps).answers
    ensures exists x :: Authorizes(a.response, x)
  {
    hide Run, Authorizes;
    AnswerShapes(chains, steps, a);
  }

  lemma SameTransaction(chains: Chains, steps: seq<Step>, a: Issued, b: Issued, x: Kind)
    requires a in Run(chains, steps).answers && b in Run(chains, steps).answers && IdOf(a) == IdOf(b)
    requires Authorizes(a.response, x) && Authorizes(b.response, x)
    ensures Authorized(a.response, x) == Authorized(b.response, x)
  {
    hide Run;
    ImmutableTerms(chains, steps, a, b);
  }

  // ---------- while one call runs alone ----------

  lemma QuoteKept(chains: Chains, s: State, step: Step, quoteId: string)
    requires !step.SaveQuote? && quoteId in s.store.quotes && PruneClock(step) < s.store.quotes[quoteId].expires
    ensures
      var s' := Apply(chains, s, step);
      && quoteId in s'.store.quotes && s'.store.quotes[quoteId].expires == s.store.quotes[quoteId].expires
      && s'.store.quotes[quoteId].value.request == s.store.quotes[quoteId].value.request
      && s'.store.quotes[quoteId].value.final == s.store.quotes[quoteId].value.final
  {
    hide Lookup, Admit, Built, SettleMark, BranchAllowance, BranchPermission, ConfirmApproval, ConfirmReady, Evictable,
      UsableSnapshot;
  }

  lemma SizeGrows<T>(m: Table<T>, now: nat, id: string, e: Entry<T>, victim: Option<string>)
    ensures |Live(m, now)| <= |m| && |Inserted(Live(m, now), id, e, victim)| <= |m| + 1
  {
    LiveSize(m, now);
    var live := Live(m, now);
    var kept := if victim.Some? then live - {victim.value} else live;
    assert kept.Keys <= live.Keys && Inserted(live, id, e, victim).Keys == kept.Keys + {id};
    SubsetSize(kept.Keys, live.Keys);
    assert |live| == |live.Keys| && |kept| == |kept.Keys|;
    assert |Inserted(live, id, e, victim)| == |Inserted(live, id, e, victim).Keys|;
  }

  lemma StoreGrows(chains: Chains, s: State, step: Step)
    ensures |Apply(chains, s, step).store.preparations| <= |s.store.preparations| + 1
  {
    hide Lookup, Admit, Built, SettleMark, BranchAllowance, BranchPermission, ConfirmApproval, ConfirmReady, Evictable,
      UsableSnapshot, Inserted, Live;
    var now := PruneClock(step);
    LiveSize(s.store.preparations, now);
    if step.DoSave? && At(s, step.rid).Checked? {
      var w := At(s, step.rid).work;
      SizeGrows(
        s.store.preparations, now, w.Id(), Entry(SavedForm(w, At(s, step.rid).answer, step.handover), w.expires), step.victim);
    }
  }

  // The steps of one call before a quote's expiry.
  predicate OneCallsSteps(steps: seq<Step>, rid: nat, id: string, expires: nat) {
    forall step :: step in steps ==>
      && Caller(step) == Some(rid) && PruneClock(step) < expires
      && (step.DoBuild? ==> step.input.preparationId == id)
  }

  lemma {:induction false} LoneLeaves(
      chains: Chains, s: State, steps: seq<Step>, rid: nat, id: string, quoteId: string, other: nat)
    requires quoteId in s.store.quotes && OneCallsSteps(steps, rid, id, s.store.quotes[quoteId].expires) && other != rid
    ensures
      var s' := Advance(chains, s, steps);
      && (other in s'.requests <==> other in s.requests) && At(s', other) == At(s, other)
      && (forall known :: known in s'.history.frozen ==> known in s.history.frozen || known == id)
      && (forall known :: known in s.history.frozen ==>
            known in s'.history.frozen && s'.history.frozen[known] == s.history.frozen[known])
      && quoteId in s'.store.quotes && s'.store.quotes[quoteId].expires == s.store.quotes[quoteId].expires
      && s'.store.quotes[quoteId].value.request == s.store.quotes[quoteId].value.request
      && s'.store.quotes[quoteId].value.final == s.store.quotes[quoteId].value.final
      && |s'.store.preparations| <= |s.store.preparations| + |steps|
  {
    hide Apply;
    if steps != [] {
      var init, last := steps[..|steps| - 1], steps[|steps| - 1];
      assert last in steps;
      LoneLeaves(chains, s, init, rid, id, quoteId, other);
      var s1 := Advance(chains, s, init);
      OthersLeaveTheCall(chains, s1, last, other);
      ApplyRemembers(chains, s1, last);
      QuoteKept(chains, s1, last, quoteId);
      StoreGrows(chains, s1, last);
      OnlyBuildsFreeze(chains, s1, last);
    }
  }

  lemma StartFreezes(chains: Chains, s: State, c: Call)
    requires FirstCall(chains, s, c)
    ensures var h := Start(chains, s, c).history;
            c.input.preparationId in h.frozen && h.frozen[c.input.preparationId].quoteId == c.request.quoteId
  {
    hide Evictable, Pruned, Value, Print, SlippageMinimum, UnixSeconds, Admit;
    LookupStage(chains, s, c);
  }

  lemma {:induction false} AdvanceRemembers(chains: Chains, s: State, steps: seq<Step>, id: string)
    requires id in s.history.frozen
    ensures var h := Advance(chains, s, steps).history; id in h.frozen && h.frozen[id] == s.history.frozen[id]
  {
    hide Apply;
    if steps != [] {
      AdvanceRemembers(chains, s, steps[..|steps| - 1], id);
      ApplyRemembers(chains, Advance(chains, s, steps[..|steps| - 1]), steps[|steps| - 1]);
    }
  }

  lemma {:induction false} AdvanceSplits(chains: Chains, s: State, before: seq<Step>, steps: seq<Step>)
    ensures Advance(chains, s, before + steps) == Advance(chains, Advance(chains, s, before), steps)
  {
    hide Apply;
    if steps == [] {
      assert before + steps == before;
    } else {
      AdvanceSplits(chains, s, before, steps[..|steps| - 1]);
      assert (before + steps)[..|before + steps| - 1] == before + steps[..|steps| - 1];
    }
  }

  lemma LoneFreezes(chains: Chains, s: State, c: Call)
    requires FirstCall(chains, s, c)
    ensures var h := Advance(chains, s, Steps(c)).history;
            c.input.preparationId in h.frozen && h.frozen[c.input.preparationId].quoteId == c.request.quoteId
  {
    hide Apply, FirstCall;
    var steps := Steps(c);
    assert steps == steps[..4] + steps[4..];
    AdvanceSplits(chains, s, steps[..4], steps[4..]);
    AdvanceByThree(chains, s, [], steps[0], steps[1], steps[2]);
    AdvanceOne(chains, s, [steps[0], steps[1], steps[2]], steps[3]);
    assert [] + [steps[0], steps[1], steps[2]] == [steps[0], steps[1], steps[2]];
    assert [steps[0], steps[1], steps[2]] + [steps[3]] == steps[..4];
    assert Advance(chains, s, steps[..4]) == Start(chains, s, c);
    StartFreezes(chains, s, c);
    AdvanceRemembers(chains, Start(chains, s, c), steps[4..], c.input.preparationId);
  }

  // An answered lone first call leaves its answer, and what its build froze, on the record of the run.
  lemma LoneAnswer(chains: Chains, before: seq<Step>, c: Call) returns (a: Issued)
    requires FirstCall(chains, Run(chains, before), c)
    requires At(Run(chains, before + Steps(c)), c.rid).Answered?
    ensures OfQuote(Run(chains, before + Steps(c)), a, c.request.quoteId) && a.rid == c.rid
    ensures a.response == At(Run(chains, before + Steps(c)), c.rid).answer && IdOf(a) == c.input.preparationId
  {
    hide Run, FirstCall, Steps, Start, Apply;
    var s := Run(chains, before);
    var after := Run(chains, before + Steps(c));
    AdvanceIsRun(chains, before, Steps(c));
    a := RecordOf(chains, before + Steps(c), c.rid);
    LoneAnswerId(chains, s, c);
    LoneFreezes(chains, s, c);
  }

  lemma RecordOf(chains: Chains, steps: seq<Step>, rid: nat) returns (a: Issued)
    requires At(Run(chains, steps), rid).Answered?
    ensures a in Run(chains, steps).answers && a.rid == rid && a.response == At(Run(chains, steps), rid).answer
  {
    hide StoreTraced, AnswersTraced, KindsAnswered, MarksAbandoned, Inv;
    RunRecord(chains, steps);
    var s := Run(chains, steps);
    assert Traced(s.answers, rid, s.requests[rid]);
    a :| a in s.answers && a.rid == rid && a.response == s.requests[rid].answer;
  }

  lemma LoneAnswerId(chains: Chains, s: State, c: Call)
    requires FirstCall(chains, s, c) && At(Advance(chains, s, Steps(c)), c.rid).Answered?
    ensures At(Advance(chains, s, Steps(c)), c.rid).answer.terms.preparationId == c.input.preparationId
  {
    hide Advance, Steps, FirstCall, AllowanceKey, PermissionKey, ApprovalTransaction, Permission;
    LoneFirstCall(chains, s, c);
  }

  // ---------- runs in which one quote authorises two transactions ----------

  // Two undisturbed first calls of one quote that are both answered: two transactions.
  lemma TwoFirstCalls(chains: Chains, before: seq<Step>, c: Call, d: Call)
    requires FirstCall(chains, Run(chains, before), c) && c.request.quoteId == d.request.quoteId
    requires FirstCall(chains, Run(chains, before + Steps(c)), d)
    requires At(Run(chains, before + Steps(c)), c.rid).Answered?
    requires At(Run(chains, before + Steps(c) + Steps(d)), d.rid).Answered?
    ensures !OneTransaction(Run(chains, before + Steps(c) + Steps(d)), c.request.quoteId)
  {
    hide Run, Steps, FirstCall, Apply, Authorizes;
    var s := Run(chains, before + Steps(c) + Steps(d));
    var first := LoneAnswer(chains, before, c);
    var second := LoneAnswer(chains, before + Steps(c), d);
    AnswersStay(chains, before + Steps(c), Steps(d), first);
    FreshBuild(chains, before + Steps(c), first, d);
    SomethingAuthorized(chains, before + Steps(c) + Steps(d), first);
    SomethingAuthorized(chains, before + Steps(c) + Steps(d), second);
    assert OfQuote(s, first, c.request.quoteId) && OfQuote(s, second, c.request.quoteId);
    assert IdOf(first) != IdOf(second);
  }

  lemma FreshBuild(chains: Chains, steps: seq<Step>, a: Issued, d: Call)
    requires FirstCall(chains, Run(chains, steps), d) && a in Run(chains, steps).answers
    ensures IdOf(a) != d.input.preparationId
  {
    AnswerShapes(chains, steps, a);
  }
}
