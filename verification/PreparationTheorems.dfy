// What the preparation protocol promises about every run.
module PreparationTheorems {
  import opened Messages
  import opened Retention
  import opened PreparationProtocol
  import opened PreparationSafety
  import opened PreparationRecord

  // Both tables stay within their limit, and an entry under an ID is about that ID.
  lemma BoundedStore(chains: Chains, steps: seq<Step>)
    ensures
      var s := Run(chains, steps);
      && |s.store.quotes| <= 1024 && |s.store.preparations| <= 1024
      && "" !in s.store.quotes && "" !in s.store.preparations
      && forall id :: id in s.store.preparations ==>
           s.store.preparations[id].value.response.terms.preparationId == id
  {
    RunInv(chains, steps);
    var s := Run(chains, steps);
    NoEmptyId(chains, s.history, s.store.preparations);
    forall id | id in s.store.preparations
      ensures s.store.preparations[id].value.response.terms.preparationId == id {
      assert StoredOk(chains, s.history, id, s.store.preparations[id]);
    }
  }

  // The clock reading a step prunes by, if it touches the store.
  function PruneClock(step: Step): nat {
    match step
    case SaveQuote(_, _, _, now, _) => now
    case DoLookup(_, now) => now
    case DoMark(_, now) => now
    case DoSave(_, now, _, _) => now
    case _ => 0
  }

  // A quote leaves the store only when it has expired by the pruning clock, or as one of the oldest
  // live quotes of a full table.
  lemma QuotesLeaveFairly(chains: Chains, s: State, step: Step, id: string)
    requires id in s.store.quotes && id !in Apply(chains, s, step).store.quotes
    ensures
      var (held, now) := (s.store.quotes, PruneClock(step));
      || now >= held[id].expires
      || (|Live(held, now)| >= 1024
          && forall other :: other in held && now < held[other].expires ==> held[id].expires <= held[other].expires)
  {
    hide Lookup, Admit, Built, SettleMark, BranchAllowance, BranchPermission, ConfirmApproval, ConfirmReady, UsableSnapshot;
    OldestOfTheLiving(s.store.quotes, PruneClock(step), id);
  }

  lemma PreparationsLeaveFairly(chains: Chains, s: State, step: Step, id: string)
    requires id in s.store.preparations && id !in Apply(chains, s, step).store.preparations
    ensures
      var (held, now) := (s.store.preparations, PruneClock(step));
      || now >= held[id].expires
      || (|Live(held, now)| >= 1024
          && forall other :: other in held && now < held[other].expires ==> held[id].expires <= held[other].expires)
  {
    hide Lookup, Admit, Built, SettleMark, BranchAllowance, BranchPermission, ConfirmApproval, ConfirmReady, UsableSnapshot;
    OldestOfTheLiving(s.store.preparations, PruneClock(step), id);
  }

  lemma OldestOfTheLiving<T>(m: Table<T>, now: nat, id: string)
    ensures Oldest(Live(m, now), id) ==>
              id in m && forall other :: other in m && now < m[other].expires ==> m[id].expires <= m[other].expires
  {
    if Oldest(Live(m, now), id) {
      forall other | other in m && now < m[other].expires ensures m[id].expires <= m[other].expires {
        assert other in Live(m, now);
      }
    }
  }

  // A call goes on only with a preparation and nothing else, or with a quote, one of a route and at most two
  // allocations, a caller and a slippage below one.
  lemma RequestsAreChecked(chains: Chains, s: State, rid: nat, request: PrepareRequest)
    requires rid !in s.requests
    ensures
      var pc := At(Apply(chains, s, Receive(rid, request)), rid);
      && (pc == Arrived(request) || pc == Stopped(Unspecified))
      && (pc.Arrived? <==>
            || (request.preparationId != ""
                && request == PrepareRequest("", "", None, 0, request.preparationId, []))
            || (&& request.preparationId == "" && request.quoteId != "" && request.sender.Some? && request.sender.value != 0
                && request.slippageBps < 10000
                && ((request.routeId != "" && request.allocations == [])
                    || (request.routeId == "" && (|request.allocations| == 1 || |request.allocations| == 2)))))
  {}

  // A quote is kept as it was found, with no approval latched, until thirty seconds after its search began; an entry
  // that has expired is not found, and one that is found has not.
  lemma QuotesAreKept(chains: Chains, s: State, step: Step, id: string)
    requires id !in s.store.quotes && id in Apply(chains, s, step).store.quotes
    ensures step.SaveQuote? && step.final.quoteId == id
    ensures Apply(chains, s, step).store.quotes[id]
         == Entry(QuoteRecord(step.search, step.final, {}), step.searchStart + 30 * 1000000000)
  {
    hide Lookup, Admit, Built, SettleMark, BranchAllowance, BranchPermission, ConfirmApproval, ConfirmReady, UsableSnapshot,
      Evictable;
  }

  lemma LookupFindsTheLiving(chains: Chains, s: State, rid: nat, now: nat)
    requires At(s, rid).Arrived?
    ensures
      var (request, pc) := (At(s, rid).request, At(Apply(chains, s, DoLookup(rid, now)), rid));
      var quote := request.quoteId in s.store.quotes && now < s.store.quotes[request.quoteId].expires;
      var prep := request.preparationId in s.store.preparations && now < s.store.preparations[request.preparationId].expires;
      && (pc.Looked? <==> if request.preparationId != "" then prep else quote)
      && (pc.Looked? ==>
            && pc.request == request && pc.now == now
            && pc.quote == (if quote then Some(s.store.quotes[request.quoteId]) else None)
            && pc.prep == (if prep then Some(s.store.preparations[request.preparationId]) else None))
      && (!pc.Looked? ==> pc == Stopped(RequoteRequired))
  {}

  // The approval latch. Once a quote needed an approval under a key, the preparation of any first
  // call that marks the key later, in lock order, is never ready: not in its own answer and not on
  // any recheck, in any continuation of the run, whether or not the later mark still finds the quote.
  lemma ApprovalLatch(chains: Chains, steps: seq<Step>, i: nat, j: nat, a: Issued)
    requires
      var s := Run(chains, steps);
      && i < j < |s.marks| && s.marks[i].known && s.marks[i].required
      && s.marks[i].quoteId == s.marks[j].quoteId && s.marks[i].key == s.marks[j].key && a in s.answers
      && (IdOf(a) == s.marks[j].preparationId || a.rid == s.marks[j].rid)
    ensures a.response.status != Ready
  {
    hide Run;
    var s := Run(chains, steps);
    if s.marks[j].known {
      LateMarkTaints(chains, steps, i, j, a);
      TaintedIsNotReady(chains, steps, a);
    } else {
      NoAnswerWithoutAQuote(chains, steps, s.marks[j], a);
      assert false;
    }
  }

  lemma LateMarkTaints(chains: Chains, steps: seq<Step>, i: nat, j: nat, a: Issued)
    requires
      var s := Run(chains, steps);
      && i < j < |s.marks| && Late(s.marks, i, j) && a in s.answers
      && (IdOf(a) == s.marks[j].preparationId || a.rid == s.marks[j].rid)
    ensures IdOf(a) in Run(chains, steps).history.tainted
  {
    hide RequestsOk, QuotesOk, LatchOk, PreparationsOk, HistoryOk, TaintOk, BornOk, FieldsOk, AnswerShape;
    RunInv(chains, steps);
    var s := Run(chains, steps);
    assert s.marks[j] in s.marks && IssuedOk(chains, s.history, a);
  }

  lemma TaintedIsNotReady(chains: Chains, steps: seq<Step>, a: Issued)
    requires a in Run(chains, steps).answers && IdOf(a) in Run(chains, steps).history.tainted
    ensures a.response.status != Ready
  {
    hide RequestsOk, QuotesOk, LatchOk, PreparationsOk, MarksOk, TaintOk, BornOk, FieldsOk;
    RunInv(chains, steps);
    assert IssuedOk(chains, Run(chains, steps).history, a);
  }

  // A call that marked a quote which was gone answers nothing, and no one ever answers for it.
  lemma NoAnswerWithoutAQuote(chains: Chains, steps: seq<Step>, m: Mark, a: Issued)
    requires m in Run(chains, steps).marks && !m.known && a in Run(chains, steps).answers
    ensures a.rid != m.rid && IdOf(a) != m.preparationId
  {
    hide RequestsTraced, StoreTraced, AnswersTraced, KindsAnswered, RequestsOk, QuotesOk, LatchOk, PreparationsOk,
         HistoryOk, MarksOk, TaintOk, BornOk, FieldsOk, AnswerShape;
    RunRecord(chains, steps);
    var s := Run(chains, steps);
    assert Abandoned(s, m) && IssuedOk(chains, s.history, a);
  }

  // The latch refuses no one else: the call of a preparation was told that an approval had been
  // needed before exactly when one of its marks came after a mark that required the same key.
  lemma LatchIsExact(chains: Chains, steps: seq<Step>, id: string)
    ensures
      var s := Run(chains, steps);
      id in s.history.tainted
      <==> exists i, j :: 0 <= i < j < |s.marks| && Late(s.marks, i, j) && s.marks[j].preparationId == id
  {
    RunInv(chains, steps);
    assert MarkedLate(Run(chains, steps).marks, id) ==> id in Run(chains, steps).history.tainted;
  }

  // Two classes. Every executable answer under an ID has the same status; a ready answer carries the
  // swap and no approval field, an approval answer no swap; and a preparation that was ever answered
  // without a Permit2 permission is never answered with one.
  lemma TwoClasses(chains: Chains, steps: seq<Step>, a: Issued, b: Issued)
    requires a in Run(chains, steps).answers && b in Run(chains, steps).answers
    requires a.response.terms.preparationId == b.response.terms.preparationId
    ensures a.response.status == b.response.status
    ensures a.response.status == Ready || a.response.status == ApprovalRequired
    ensures a.response.status == Ready ==> a.response.transaction.Some? && NoApproval(a.response)
    ensures a.response.status == ApprovalRequired ==> a.response.transaction.None?
    ensures a.response.status == ApprovalRequired ==> a.response.approvalTransaction.Some? || a.response.permission.Some?
    ensures a.response.permission.Some? <==> b.response.permission.Some?
  {
    RunInv(chains, steps);
    var h := Run(chains, steps).history;
    assert IssuedOk(chains, h, a) && IssuedOk(chains, h, b);
  }

  // Immutable terms. Any two executable answers under an ID agree on every amount, token, recipient and
  // deadline and on the transaction of their class; on the selection as well, unless the strategy has
  // changed what it handed over between the copy of the prepared response and its save.
  lemma ImmutableTerms(chains: Chains, steps: seq<Step>, a: Issued, b: Issued)
    requires a in Run(chains, steps).answers && b in Run(chains, steps).answers && IdOf(a) == IdOf(b)
    ensures SameButSelection(a.response.terms, b.response.terms)
    ensures
      var h := Run(chains, steps).history;
      SelectionKept(h, IdOf(a)) || (a.rid in h.born <==> b.rid in h.born) ==> a.response.terms == b.response.terms
    ensures a.response.transaction == b.response.transaction
    ensures a.response.approvalTransaction.Some? && b.response.approvalTransaction.Some? ==>
              a.response.approvalTransaction == b.response.approvalTransaction
              && a.response.approvalSpender == b.response.approvalSpender
    ensures a.response.permission == b.response.permission
  {
    AnsweredTerms(chains, steps, a);
    AnsweredTerms(chains, steps, b);
    SameFields(chains, steps, a, b);
  }

  // The terms of the saved form of a preparation are those its build froze.
  predicate SelectionKept(h: History, id: string) {
    id in h.kept && id in h.frozen ==> h.kept[id] == h.frozen[id].terms
  }

  // A first call answers with the frozen terms, a recheck with the saved ones.
  lemma AnsweredTerms(chains: Chains, steps: seq<Step>, a: Issued)
    requires a in Run(chains, steps).answers
    ensures
      var h, id := Run(chains, steps).history, IdOf(a);
      && id in h.frozen && id in h.kinds && id in h.kept && SameButSelection(h.kept[id], h.frozen[id].terms)
      && (h.kinds[id] != SwapKind ==> SelectionKept(h, id))
      && a.response.terms == if a.rid in h.born then h.frozen[id].terms else h.kept[id]
  {
    hide RequestsOk, QuotesOk, LatchOk, PreparationsOk, MarksOk, TaintOk, BornOk, AnswerShape, ApprovalTransaction;
    RunInv(chains, steps);
    assert IssuedOk(chains, Run(chains, steps).history, a);
  }

  lemma SameFields(chains: Chains, steps: seq<Step>, a: Issued, b: Issued)
    requires a in Run(chains, steps).answers && b in Run(chains, steps).answers && IdOf(a) == IdOf(b)
    ensures a.response.transaction == b.response.transaction
    ensures a.response.approvalTransaction.Some? && b.response.approvalTransaction.Some? ==>
              a.response.approvalTransaction == b.response.approvalTransaction
              && a.response.approvalSpender == b.response.approvalSpender
    ensures a.response.permission == b.response.permission
  {
    hide RequestsOk, QuotesOk, LatchOk, PreparationsOk, MarksOk, TaintOk, BornOk, ApprovalTransaction, Permission;
    RunInv(chains, steps);
    var h := Run(chains, steps).history;
    assert IssuedOk(chains, h, a) && IssuedOk(chains, h, b);
  }

  // All answers of a preparation carry the same terms if and only if its strategy kept the selection, or
  // no recheck of it was answered.
  lemma ImmutableExactly(chains: Chains, steps: seq<Step>, id: string)
    ensures
      var s := Run(chains, steps);
      (forall a, b :: a in s.answers && b in s.answers && IdOf(a) == id && IdOf(b) == id ==>
         a.response.terms == b.response.terms)
      <==> SelectionKept(s.history, id) || forall a :: a in s.answers && IdOf(a) == id ==> a.rid in s.history.born
  {
    hide Run;
    var s := Run(chains, steps);
    if SelectionKept(s.history, id) || forall a :: a in s.answers && IdOf(a) == id ==> a.rid in s.history.born {
      forall a, b | a in s.answers && b in s.answers && IdOf(a) == id && IdOf(b) == id
        ensures a.response.terms == b.response.terms {
        ImmutableTerms(chains, steps, a, b);
      }
    } else {
      var a :| a in s.answers && IdOf(a) == id && a.rid !in s.history.born;
      var first := FirstCallOf(chains, steps, a);
      AnsweredTerms(chains, steps, a);
      AnsweredTerms(chains, steps, first);
      assert a.response.terms != first.response.terms;
    }
  }

  lemma FirstCallOf(chains: Chains, steps: seq<Step>, a: Issued) returns (first: Issued)
    requires a in Run(chains, steps).answers
    ensures first in Run(chains, steps).answers && IdOf(first) == IdOf(a)
    ensures var born := Run(chains, steps).history.born; first.rid in born && born[first.rid] == IdOf(a)
  {
    hide RequestsTraced, StoreTraced, AnswersTraced, MarksAbandoned, Inv;
    RunRecord(chains, steps);
    AnsweredTerms(chains, steps, a);
    var s := Run(chains, steps);
    assert FirstAnswered(s.history, s.answers, IdOf(a));
    first :| first in s.answers && IdOf(first) == IdOf(a) && first.rid in s.history.born
      && s.history.born[first.rid] == IdOf(a);
  }

  // ---------- when a selection is not kept ----------

  // The first, ready save of a preparation, with what the strategy handed over no longer what the call
  // copied.
  predicate Overwrites(s: State, step: Step, id: string) {
    && step.DoSave? && At(s, step.rid).Checked? && Evictable(Pruned(s.store, step.now).preparations, step.victim)
    && !At(s, step.rid).work.recheck && At(s, step.rid).answer.status == Ready && At(s, step.rid).work.Id() == id
    && step.handover != HandoverOf(At(s, step.rid).work.p.response.terms)
  }

  predicate Overwritten(chains: Chains, steps: seq<Step>, id: string) {
    exists n :: 0 <= n < |steps| && Overwrites(Run(chains, steps[..n]), steps[n], id)
  }

  lemma OnlySavesClassify(chains: Chains, s: State, step: Step)
    requires !step.DoSave?
    ensures Apply(chains, s, step).history.kinds == s.history.kinds && Apply(chains, s, step).history.kept == s.history.kept
  {
    hide Lookup, Admit, Built, SettleMark, BranchAllowance, BranchPermission, ConfirmApproval, ConfirmReady, Pruned,
      UsableSnapshot, ApplyMark, ApplyBuild, ApplySaveQuote;
    match step {
      case SaveQuote(search, final, searchStart, now, victim) =>
        QuoteSaveClassifies(s, search, final, searchStart, now, victim);
      case DoBuild(rid, input, reading, now) => BuildClassifies(chains, s, rid, input, reading, now);
      case DoMark(rid, now) => MarkClassifies(s, rid, now);
      case _ =>
    }
  }

  lemma QuoteSaveClassifies(
      s: State, search: QuoteRequest, final: QuoteFinal, searchStart: nat, now: nat, victim: Option<string>)
    ensures
      var h := ApplySaveQuote(s, search, final, searchStart, now, victim).history;
      h.kinds == s.history.kinds && h.kept == s.history.kept && h.frozen == s.history.frozen
  {
    hide Pruned, Evictable, Inserted;
  }

  lemma BuildClassifies(chains: Chains, s: State, rid: nat, input: BuildInput, reading: Reading, now: nat)
    ensures
      var h := ApplyBuild(chains, s, rid, input, reading, now).history;
      h.kinds == s.history.kinds && h.kept == s.history.kept
  {
    hide Built, Admit, UsableSnapshot;
  }

  lemma MarkClassifies(s: State, rid: nat, now: nat)
    ensures
      var h := ApplyMark(s, rid, now).history;
      h.kinds == s.history.kinds && h.kept == s.history.kept && h.frozen == s.history.frozen
  {
    hide Marked, AllowanceKey, PermissionKey;
    var pc := At(s, rid);
    if pc.AllowanceRead? {
      MarkedClassifies(s, rid, pc.work, AllowanceKey(pc.work.p), pc.work.short, now);
    } else if pc.PermissionRead? && pc.work.p.plan.permission.Some? {
      MarkedClassifies(s, rid, pc.work, PermissionKey(pc.work.p, pc.work.p.plan.permission.value), pc.required, now);
    }
  }

  lemma MarkedClassifies(s: State, rid: nat, w: Work, key: Key, required: bool, now: nat)
    ensures
      var h := Marked(s, rid, w, key, required, now).0.history;
      h.kinds == s.history.kinds && h.kept == s.history.kept && h.frozen == s.history.frozen
  {
    hide Pruned, Latched;
  }

  // Terms are frozen by builds alone, each under the text it was given.
  lemma OnlyBuildsFreeze(chains: Chains, s: State, step: Step)
    ensures forall id :: id in Apply(chains, s, step).history.frozen && id !in s.history.frozen ==>
              step.DoBuild? && step.input.preparationId == id
  {
    hide Lookup, Admit, Built, SettleMark, BranchAllowance, BranchPermission, ConfirmApproval, ConfirmReady, Pruned,
      UsableSnapshot, ApplyMark, ApplySave, ApplySaveQuote;
    match step {
      case SaveQuote(search, final, searchStart, now, victim) =>
        QuoteSaveClassifies(s, search, final, searchStart, now, victim);
      case DoMark(rid, now) => MarkClassifies(s, rid, now);
      case DoSave(rid, now, victim, handover) => SaveFreezesNothing(s, rid, now, victim, handover);
      case _ =>
    }
  }

  lemma SaveFreezesNothing(s: State, rid: nat, now: nat, victim: Option<string>, handover: Handover)
    ensures ApplySave(s, rid, now, victim, handover).history.frozen == s.history.frozen
  {
    hide Pruned, Inserted, Evictable, KindOf, SavedForm;
  }

  // A first call about to save was not answered before, and holds the frozen terms.
  lemma CheckedTerms(chains: Chains, s: State, rid: nat)
    requires Inv(chains, s) && At(s, rid).Checked?
    ensures
      var w, h := At(s, rid).work, s.history;
      if w.recheck then w.Id() in h.kinds
      else w.Id() !in h.kinds && w.Id() in h.frozen && w.p.response.terms == h.frozen[w.Id()].terms
  {
    hide AnswersOk, PreparationsOk, LatchOk, TaintOk, QuotesOk, MarksOk, HistoryOk, AnswerReady, StoredShape,
         OneAuthorization, ApprovalTransaction;
    assert ProgressOk(chains, s.history, rid, At(s, rid));
  }

  lemma SaveClassifies(chains: Chains, s: State, step: Step, id: string)
    requires Inv(chains, s) && step.DoSave?
    ensures
      var h := Apply(chains, s, step).history;
      if id in s.history.kinds then !Overwrites(s, step, id)
      else if id in h.kinds then Overwrites(s, step, id) <==> !SelectionKept(h, id)
      else !Overwrites(s, step, id)
  {
    hide Inv, Live, Inserted, Evictable, KindOf;
    if At(s, step.rid).Checked? { CheckedTerms(chains, s, step.rid); }
  }

  lemma OverwritingSave(chains: Chains, s: State, step: Step, id: string)
    requires Inv(chains, s)
    ensures
      var h := Apply(chains, s, step).history;
      if id in s.history.kinds then
        !Overwrites(s, step, id) && id in h.kinds && (SelectionKept(h, id) <==> SelectionKept(s.history, id))
      else if id in h.kinds then Overwrites(s, step, id) <==> !SelectionKept(h, id)
      else !Overwrites(s, step, id)
  {
    hide Apply, Inv;
    if step.DoSave? { SaveClassifies(chains, s, step, id); } else { OnlySavesClassify(chains, s, step); }
    if id in s.history.kinds {
      ClassifiedIsFrozen(chains, s, id);
      ApplyRemembers(chains, s, step);
      ApplyKeeps(chains, s, step);
    }
  }

  lemma ClassifiedIsFrozen(chains: Chains, s: State, id: string)
    requires Inv(chains, s) && id in s.history.kinds
    ensures id in s.history.frozen && id in s.history.kept
  {
    hide AnswersOk, PreparationsOk, LatchOk, TaintOk, QuotesOk, MarksOk, RequestsOk;
  }

  lemma OverwrittenStep(chains: Chains, init: seq<Step>, last: Step, id: string)
    ensures Overwritten(chains, init + [last], id) <==>
            Overwritten(chains, init, id) || Overwrites(Run(chains, init), last, id)
  {
    hide Run, Overwrites;
    var steps := init + [last];
    assert steps[..|init|] == init && steps[|init|] == last;
    assert forall n :: 0 <= n < |init| ==> init[..n] == steps[..n] && init[n] == steps[n];
    if n :| 0 <= n < |init| && Overwrites(Run(chains, init[..n]), init[n], id) {
      assert Overwrites(Run(chains, steps[..n]), steps[n], id);
    }
    if n :| 0 <= n < |steps| && Overwrites(Run(chains, steps[..n]), steps[n], id) {
      if n < |init| { assert Overwrites(Run(chains, init[..n]), init[n], id); }
    }
  }

  // A preparation's saved selection is not the frozen one exactly if some save overwrote it.
  lemma {:induction false} KeptExactly(chains: Chains, steps: seq<Step>, id: string)
    ensures
      var h := Run(chains, steps).history;
      if id in h.kinds then SelectionKept(h, id) <==> !Overwritten(chains, steps, id)
      else !Overwritten(chains, steps, id)
  {
    hide Apply, Overwrites, Overwritten, SelectionKept, Inv;
    if steps != [] {
      var init, last := steps[..|steps| - 1], steps[|steps| - 1];
      assert steps == init + [last];
      KeptExactly(chains, init, id);
      RunInv(chains, init);
      OverwritingSave(chains, Run(chains, init), last, id);
      OverwrittenStep(chains, init, last, id);
    } else {
      NothingOverwritten(chains, id);
    }
  }

  lemma NothingOverwritten(chains: Chains, id: string)
    ensures !Overwritten(chains, [], id)
  {}

  // Hard age bound. No executable answer passes its final clock check 60 seconds or more after the
  // search of its quote began, rechecks included.
  lemma AgeBound(chains: Chains, steps: seq<Step>, a: Issued)
    requires a in Run(chains, steps).answers
    ensures
      var h := Run(chains, steps).history;
      var id := a.response.terms.preparationId;
      && id in h.frozen && h.frozen[id].quoteId in h.started
      && a.checkedAt < h.started[h.frozen[id].quoteId] + 60 * 1000000000
  {
    RunInv(chains, steps);
    assert IssuedOk(chains, Run(chains, steps).history, a);
  }

  // ---------- along a run ----------

  function Caller(step: Step): Option<nat> {
    if step.SaveQuote? then None else Some(step.rid)
  }

  // Someone else's step leaves a call where it was.
  lemma OthersLeaveTheCall(chains: Chains, s: State, step: Step, rid: nat)
    requires Caller(step) != Some(rid)
    ensures rid in Apply(chains, s, step).requests <==> rid in s.requests
    ensures At(Apply(chains, s, step), rid) == At(s, rid)
  {
    hide Lookup, Admit, Built, SettleMark, BranchAllowance, BranchPermission, ConfirmApproval, ConfirmReady, Inserted,
         Live, Evictable, Latched, UsableSnapshot;
  }

  lemma ApplyRemembers(chains: Chains, s: State, step: Step)
    ensures forall id :: id in s.history.frozen ==>
              id in Apply(chains, s, step).history.frozen
              && Apply(chains, s, step).history.frozen[id] == s.history.frozen[id]
    ensures forall id :: id in s.history.kinds ==>
              id in Apply(chains, s, step).history.kinds
              && Apply(chains, s, step).history.kinds[id] == s.history.kinds[id]
  {
    hide Lookup, Admit, Built, SettleMark, BranchAllowance, BranchPermission, ConfirmApproval, ConfirmReady, Inserted, Live,
      Evictable, Latched, UsableSnapshot;
  }

  // In every reachable state the saved terms of a preparation are fixed with its first answer.
  lemma ApplyKeeps(chains: Chains, s: State, step: Step)
    requires Inv(chains, s)
    ensures forall id :: id in s.history.kept ==>
              id in Apply(chains, s, step).history.kept
              && Apply(chains, s, step).history.kept[id] == s.history.kept[id]
  {
    hide Inv, Apply;
    if step.DoSave? {
      forall id | id in s.history.kept
        ensures id in Apply(chains, s, step).history.kept
        ensures Apply(chains, s, step).history.kept[id] == s.history.kept[id] {
        KeptIsClassified(chains, s, id);
        SaveKeeps(chains, s, step, id);
      }
    } else {
      OnlySavesClassify(chains, s, step);
    }
  }

  lemma KeptIsClassified(chains: Chains, s: State, id: string)
    requires Inv(chains, s) && id in s.history.kept
    ensures id in s.history.kinds
  {
    hide AnswersOk, PreparationsOk, LatchOk, TaintOk, QuotesOk, MarksOk, RequestsOk;
  }

  lemma SaveKeeps(chains: Chains, s: State, step: Step, id: string)
    requires step.DoSave? && id in s.history.kinds && id in s.history.kept
    ensures id in Apply(chains, s, step).history.kept
    ensures Apply(chains, s, step).history.kept[id] == s.history.kept[id]
  {
    hide Live, Inserted, Evictable, KindOf;
  }

  lemma {:induction false} RunRemembers(chains: Chains, steps: seq<Step>, k: nat, id: string)
    requires k <= |steps| && id in Run(chains, steps[..k]).history.frozen && id in Run(chains, steps[..k]).history.kinds
    requires id in Run(chains, steps[..k]).history.kept
    ensures id in Run(chains, steps).history.frozen && id in Run(chains, steps).history.kinds
    ensures id in Run(chains, steps).history.kept
    ensures Run(chains, steps).history.kept[id] == Run(chains, steps[..k]).history.kept[id]
    ensures Run(chains, steps).history.frozen[id] == Run(chains, steps[..k]).history.frozen[id]
    ensures Run(chains, steps).history.kinds[id] == Run(chains, steps[..k]).history.kinds[id]
  {
    hide Apply;
    if k == |steps| {
      assert steps[..k] == steps;
    } else {
      var init := steps[..|steps| - 1];
      assert init[..k] == steps[..k];
      RunRemembers(chains, init, k, id);
      ApplyRemembers(chains, Run(chains, init), steps[|steps| - 1]);
      RunInv(chains, init);
      ApplyKeeps(chains, Run(chains, init), steps[|steps| - 1]);
    }
  }

  lemma {:induction false} FrozenForever(chains: Chains, steps: seq<Step>, k: nat, id: string)
    requires k <= |steps| && id in Run(chains, steps[..k]).history.frozen
    ensures id in Run(chains, steps).history.frozen
    ensures Run(chains, steps).history.frozen[id] == Run(chains, steps[..k]).history.frozen[id]
  {
    hide Apply;
    if k == |steps| {
      assert steps[..k] == steps;
    } else {
      var init := steps[..|steps| - 1];
      assert init[..k] == steps[..k];
      FrozenForever(chains, init, k, id);
      ApplyRemembers(chains, Run(chains, init), steps[|steps| - 1]);
    }
  }

  lemma ApplyKeepsAnswers(chains: Chains, s: State, step: Step)
    ensures forall a :: a in s.answers ==> a in Apply(chains, s, step).answers
  {
    hide Lookup, Admit, Built, SettleMark, BranchAllowance, BranchPermission, ConfirmApproval, ConfirmReady, Evictable,
      UsableSnapshot, Inserted, Live;
  }

  // An answer given stays on the record, with what its build froze.
  lemma {:induction false} AnswersStay(chains: Chains, before: seq<Step>, steps: seq<Step>, a: Issued)
    requires a in Run(chains, before).answers
    ensures a in Run(chains, before + steps).answers
    ensures IdOf(a) in Run(chains, before).history.frozen ==>
              IdOf(a) in Run(chains, before + steps).history.frozen
              && Run(chains, before + steps).history.frozen[IdOf(a)] == Run(chains, before).history.frozen[IdOf(a)]
  {
    hide Apply;
    if steps == [] {
      assert before + steps == before;
    } else {
      var init := before + steps[..|steps| - 1];
      AnswersStay(chains, before, steps[..|steps| - 1], a);
      assert (before + steps)[..|before + steps| - 1] == init;
      ApplyRemembers(chains, Run(chains, init), steps[|steps| - 1]);
      ApplyKeepsAnswers(chains, Run(chains, init), steps[|steps| - 1]);
    }
  }

  // Whatever is saved under an ID, however often it is saved again, evicted or inserted anew: the
  // approval bit, the plan, the terms and the expiry stay what they were. Re-saving extends no life.
  lemma SavedFormNeverChanges(chains: Chains, steps: seq<Step>, k: nat, id: string)
    requires k <= |steps|
    requires id in Run(chains, steps[..k]).store.preparations && id in Run(chains, steps).store.preparations
    ensures
      var early := Run(chains, steps[..k]).store.preparations[id];
      var late := Run(chains, steps).store.preparations[id];
      && late.expires == early.expires
      && late.value.approval == early.value.approval
      && late.value.plan == early.value.plan && late.value.chain == early.value.chain
      && late.value.response.terms == early.value.response.terms
  {
    hide Apply, FieldsOk;
    RunInv(chains, steps[..k]);
    RunInv(chains, steps);
    var early, late := Run(chains, steps[..k]), Run(chains, steps);
    assert StoredOk(chains, early.history, id, early.store.preparations[id]);
    assert StoredOk(chains, late.history, id, late.store.preparations[id]);
    RunRemembers(chains, steps, k, id);
    SameTerms(chains, early.history, late.history, id, early.store.preparations[id], late.store.preparations[id]);
  }

  // A saved preparation stays, however the calls interleave, unless a clock has passed its expiry or a
  // save met a full table in between.
  lemma {:induction false} SavedStays(chains: Chains, steps: seq<Step>, k: nat, id: string)
    requires k <= |steps| && id in Run(chains, steps[..k]).store.preparations
    requires
      var expires := Run(chains, steps[..k]).store.preparations[id].expires;
      forall n :: k <= n < |steps| ==> PruneClock(steps[n]) < expires
    requires forall n :: k <= n < |steps| && steps[n].DoSave? ==>
               |Live(Run(chains, steps[..n]).store.preparations, steps[n].now)| < STORE_LIMIT
    ensures id in Run(chains, steps).store.preparations
    ensures
      var early := Run(chains, steps[..k]).store.preparations[id];
      var late := Run(chains, steps).store.preparations[id];
      && late.expires == early.expires && late.value.response.terms == early.value.response.terms
      && late.value.plan == early.value.plan && late.value.approval == early.value.approval
  {
    hide Apply, Live;
    if k == |steps| {
      assert steps[..k] == steps;
    } else {
      var init, last := steps[..|steps| - 1], steps[|steps| - 1];
      assert init[..k] == steps[..k] && steps[..|init|] == init;
      forall n | k <= n < |init| && init[n].DoSave?
        ensures |Live(Run(chains, init[..n]).store.preparations, init[n].now)| < STORE_LIMIT {
        assert init[..n] == steps[..n] && init[n] == steps[n];
      }
      SavedStays(chains, init, k, id);
      StaysUntilEvicted(chains, Run(chains, init), last, id);
    }
    SavedFormNeverChanges(chains, steps, k, id);
  }

  // So a recheck before the expiry finds it, with the plan and the terms that were saved.
  lemma SavedIsFound(chains: Chains, steps: seq<Step>, k: nat, id: string, rid: nat, now: nat)
    requires k <= |steps| && id in Run(chains, steps[..k]).store.preparations
    requires At(Run(chains, steps), rid).Arrived? && At(Run(chains, steps), rid).request.preparationId == id
    requires
      var expires := Run(chains, steps[..k]).store.preparations[id].expires;
      now < expires && forall n :: k <= n < |steps| ==> PruneClock(steps[n]) < expires
    requires forall n :: k <= n < |steps| && steps[n].DoSave? ==>
               |Live(Run(chains, steps[..n]).store.preparations, steps[n].now)| < STORE_LIMIT
    ensures
      var early := Run(chains, steps[..k]).store.preparations[id];
      var pc := At(Apply(chains, Run(chains, steps), DoLookup(rid, now)), rid);
      && pc.Looked? && pc.prep.Some? && pc.prep.value.expires == early.expires
      && pc.prep.value.value.plan == early.value.plan && pc.prep.value.value.approval == early.value.approval
      && pc.prep.value.value.response.terms == early.value.response.terms
  {
    hide Run;
    SavedStays(chains, steps, k, id);
    LookupFinds(chains, steps, rid, now);
  }

  lemma LookupFinds(chains: Chains, steps: seq<Step>, rid: nat, now: nat)
    requires At(Run(chains, steps), rid).Arrived?
    requires
      var s, id := Run(chains, steps), At(Run(chains, steps), rid).request.preparationId;
      id in s.store.preparations && now < s.store.preparations[id].expires
    ensures
      var s, id := Run(chains, steps), At(Run(chains, steps), rid).request.preparationId;
      var pc := At(Apply(chains, s, DoLookup(rid, now)), rid);
      pc.Looked? && pc.prep == Some(s.store.preparations[id])
  {
    hide Run;
    BoundedStore(chains, steps);
  }

  lemma StaysUntilEvicted(chains: Chains, s: State, step: Step, id: string)
    requires id in s.store.preparations && PruneClock(step) < s.store.preparations[id].expires
    requires step.DoSave? ==> |Live(s.store.preparations, step.now)| < STORE_LIMIT
    ensures id in Apply(chains, s, step).store.preparations
  {
    hide Lookup, Admit, Built, SettleMark, BranchAllowance, BranchPermission, ConfirmApproval, ConfirmReady, UsableSnapshot;
  }

  lemma SameTerms(chains: Chains, h: History, h': History, id: string, e: Entry<Preparation>, e': Entry<Preparation>)
    requires StoredOk(chains, h, id, e) && StoredOk(chains, h', id, e') && h.kept[id] == h'.kept[id]
    ensures e.value.response.terms == e'.value.response.terms
  {}

  // ---------- one quote, one authorization? ----------

  // A first call never asks for both authorizations at once.
  lemma FirstCallAuthorizesOnce(chains: Chains, steps: seq<Step>, a: Issued)
    requires a in Run(chains, steps).answers && a.rid in Run(chains, steps).history.born
    ensures a.response.approvalTransaction.None? || a.response.permission.None?
  {
    RunInv(chains, steps);
    assert IssuedOk(chains, Run(chains, steps).history, a);
  }

  // The answer a recheck builds from its two readings, if it builds an approval answer.
  function RecheckApproval(chains: Chains, w: Work, required: bool): Progress {
    match BranchAllowance(chains, w, Some(required))
    case PermissionSettled(w', r) => BranchPermission(chains, w', r)
    case pc => pc
  }
}
