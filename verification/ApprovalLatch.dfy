// The approval latch in the terms of its callers: who approves whom for which quote. Nothing here speaks of
// the keys the store keeps.
module ApprovalLatch {
  import opened Messages
  import opened Retention
  import opened PreparationProtocol
  import opened PreparationSafety
  import opened PreparationRecord
  import opened PreparationTheorems

  // The nth step of a run is a call's mark of its ERC-20 allowance, or of its Permit2 permission.
  predicate MarksAllowance(chains: Chains, steps: seq<Step>, n: nat) {
    n < |steps| && steps[n].DoMark? && At(Run(chains, steps[..n]), steps[n].rid).AllowanceRead?
  }

  predicate MarksPermission(chains: Chains, steps: seq<Step>, n: nat) {
    && n < |steps| && steps[n].DoMark? && At(Run(chains, steps[..n]), steps[n].rid).PermissionRead?
    && At(Run(chains, steps[..n]), steps[n].rid).work.p.plan.permission.Some?
  }

  // The call that marks at a step, as it is before the mark.
  function MarkerAt(chains: Chains, steps: seq<Step>, n: nat): Progress
    requires n < |steps| && !steps[n].SaveQuote?
  {
    At(Run(chains, steps[..n]), steps[n].rid)
  }

  // Two calls of one quote for the same recipient and spender.
  predicate SameSpender(a: Work, b: Work) {
    && a.quoteId == b.quoteId && a.p.response.terms.recipient == b.p.response.terms.recipient
    && a.p.plan.spender == b.p.plan.spender
  }

  predicate SameGrantee(a: Work, b: Work) {
    && a.quoteId == b.quoteId && a.p.response.terms.recipient == b.p.response.terms.recipient
    && a.p.plan.permission.Some? && b.p.plan.permission.Some?
    && a.p.plan.permission.value.target == b.p.plan.permission.value.target
    && a.p.plan.permission.value.spender == b.p.plan.permission.value.spender
  }

  // ---------- one mark ----------

  predicate KnowsQuote(s: State, quoteId: string, now: nat) {
    quoteId in s.store.quotes && now < s.store.quotes[quoteId].expires
  }

  lemma AllowanceMarkAppends(chains: Chains, s: State, rid: nat, now: nat)
    requires At(s, rid).AllowanceRead?
    ensures
      var w, s' := At(s, rid).work, Apply(chains, s, DoMark(rid, now));
      var key := [w.p.response.terms.recipient, w.p.plan.spender];
      var known := KnowsQuote(s, w.quoteId, now);
      && s'.marks == s.marks + [Mark(rid, w.Id(), w.quoteId, key, w.short, known)]
      && At(s', rid) == AllowanceMarked(
                          w.(p := w.p.(approval := known && key in s.store.quotes[w.quoteId].value.approvals)), known)
      && s'.history.started == s.history.started && (!known ==> w.quoteId !in s'.store.quotes)
  {}

  lemma PermissionMarkAppends(chains: Chains, s: State, rid: nat, now: nat)
    requires At(s, rid).PermissionRead? && At(s, rid).work.p.plan.permission.Some?
    ensures
      var w, s' := At(s, rid).work, Apply(chains, s, DoMark(rid, now));
      var grant := w.p.plan.permission.value;
      var key := [w.p.response.terms.recipient, grant.target, grant.spender];
      var known := KnowsQuote(s, w.quoteId, now);
      && s'.marks == s.marks + [Mark(rid, w.Id(), w.quoteId, key, At(s, rid).required, known)]
      && At(s', rid) == PermissionMarked(
                          w.(p := w.p.(approval :=
                                         w.p.approval || (known && key in s.store.quotes[w.quoteId].value.approvals))),
                          At(s, rid).required, known)
      && s'.history.started == s.history.started && (!known ==> w.quoteId !in s'.store.quotes)
  {}

  lemma OnlyMarksMark(chains: Chains, s: State, step: Step)
    ensures s.marks <= Apply(chains, s, step).marks
    ensures
      (step.DoMark? && (At(s, step.rid).AllowanceRead?
                        || (At(s, step.rid).PermissionRead? && At(s, step.rid).work.p.plan.permission.Some?)))
      || Apply(chains, s, step).marks == s.marks
  {
    hide Lookup, Admit, Built, SettleMark, BranchAllowance, BranchPermission, ConfirmApproval, ConfirmReady, Inserted,
         Live, Evictable, Latched, UsableSnapshot;
  }

  // ---------- marks and steps ----------

  lemma {:induction false} MarksGrow(chains: Chains, steps: seq<Step>, n: nat)
    requires n <= |steps|
    ensures Run(chains, steps[..n]).marks <= Run(chains, steps).marks
  {
    hide Apply;
    if n == |steps| {
      assert steps[..n] == steps;
    } else {
      var init := steps[..|steps| - 1];
      assert init[..n] == steps[..n];
      MarksGrow(chains, init, n);
      OnlyMarksMark(chains, Run(chains, init), steps[|steps| - 1]);
    }
  }

  // Every recorded mark was made at some step.
  lemma {:induction false} MarkIsMade(chains: Chains, steps: seq<Step>, k: nat) returns (n: nat)
    requires k < |Run(chains, steps).marks|
    ensures MarksAllowance(chains, steps, n) || MarksPermission(chains, steps, n)
    ensures |Run(chains, steps[..n]).marks| == k
  {
    hide Apply;
    var init, last := steps[..|steps| - 1], steps[|steps| - 1];
    if k < |Run(chains, init).marks| {
      n := MarkIsMade(chains, init, k);
      assert init[..n] == steps[..n] && init[n] == steps[n];
    } else {
      n := |init|;
      var s := Run(chains, init);
      assert steps[..n] == init && steps[n] == last;
      OnlyMarksMark(chains, s, last);
      if At(s, last.rid).AllowanceRead? {
        AllowanceMarkAppends(chains, s, last.rid, last.now);
      } else {
        PermissionMarkAppends(chains, s, last.rid, last.now);
      }
    }
  }

  // The mark a step leaves on the record.
  lemma MarkOfStep(chains: Chains, steps: seq<Step>, n: nat)
    requires MarksAllowance(chains, steps, n) || MarksPermission(chains, steps, n)
    ensures
      var s, pc := Run(chains, steps[..n]), MarkerAt(chains, steps, n);
      var key := if pc.AllowanceRead? then [pc.work.p.response.terms.recipient, pc.work.p.plan.spender]
                 else
                   var grant := pc.work.p.plan.permission.value;
                   [pc.work.p.response.terms.recipient, grant.target, grant.spender];
      var required := if pc.AllowanceRead? then pc.work.short else pc.required;
      && |s.marks| < |Run(chains, steps).marks|
      && Run(chains, steps).marks[|s.marks|]
         == Mark(steps[n].rid, pc.work.Id(), pc.work.quoteId, key, required, KnowsQuote(s, pc.work.quoteId, steps[n].now))
  {
    hide Apply;
    var s := Run(chains, steps[..n]);
    assert steps[..n + 1][..n] == steps[..n] && steps[..n + 1][n] == steps[n];
    assert Run(chains, steps[..n + 1]) == Apply(chains, s, steps[n]);
    if At(s, steps[n].rid).AllowanceRead? {
      AllowanceMarkAppends(chains, s, steps[n].rid, steps[n].now);
    } else {
      PermissionMarkAppends(chains, s, steps[n].rid, steps[n].now);
    }
    MarksGrow(chains, steps, n + 1);
  }

  // ---------- a quote that is gone stays gone ----------

  lemma GoneStaysGone(chains: Chains, s: State, step: Step, id: string)
    requires id in s.history.started && id !in s.store.quotes
    ensures id in Apply(chains, s, step).history.started && id !in Apply(chains, s, step).store.quotes
  {
    hide Lookup, Admit, Built, SettleMark, BranchAllowance, BranchPermission, ConfirmApproval, ConfirmReady, Evictable,
      UsableSnapshot, KindOf, SavedForm, ApplySaveQuote, ApplyMark, ApplyBuild, ApplySave;
    match step {
      case SaveQuote(search, final, searchStart, now, victim) =>
        OtherQuotesStayGone(s, search, final, searchStart, now, victim, id);
      case DoBuild(rid, input, reading, now) => BuildLeavesQuotes(chains, s, rid, input, reading, now);
      case DoMark(rid, now) => MarkKeepsStarted(s, rid, now);
      case DoSave(rid, now, victim, handover) => SaveLeavesQuotes(s, rid, now, victim, handover);
      case _ =>
    }
  }

  lemma OtherQuotesStayGone(
      s: State, search: QuoteRequest, final: QuoteFinal, searchStart: nat, now: nat, victim: Option<string>, id: string)
    requires id in s.history.started && id !in s.store.quotes
    ensures
      var s' := ApplySaveQuote(s, search, final, searchStart, now, victim);
      id in s'.history.started && id !in s'.store.quotes
  {
    hide Evictable;
  }

  lemma BuildLeavesQuotes(chains: Chains, s: State, rid: nat, input: BuildInput, reading: Reading, now: nat)
    ensures
      var s' := ApplyBuild(chains, s, rid, input, reading, now);
      s'.history.started == s.history.started && s'.store == s.store
  {
    hide Built, Admit, UsableSnapshot;
  }

  // A mark starts no search and brings back no quote.
  lemma MarkKeepsStarted(s: State, rid: nat, now: nat)
    ensures
      var s' := ApplyMark(s, rid, now);
      s'.history.started == s.history.started && s'.store.quotes.Keys <= s.store.quotes.Keys
  {
    hide Marked, AllowanceKey, PermissionKey;
    var pc := At(s, rid);
    if pc.AllowanceRead? {
      MarkedKeepsStarted(s, rid, pc.work, AllowanceKey(pc.work.p), pc.work.short, now);
    } else if pc.PermissionRead? && pc.work.p.plan.permission.Some? {
      MarkedKeepsStarted(s, rid, pc.work, PermissionKey(pc.work.p, pc.work.p.plan.permission.value), pc.required, now);
    }
  }

  lemma MarkedKeepsStarted(s: State, rid: nat, w: Work, key: Key, required: bool, now: nat)
    ensures
      var s' := Marked(s, rid, w, key, required, now).0;
      s'.history.started == s.history.started && s'.store.quotes.Keys <= s.store.quotes.Keys
  {}

  lemma SaveLeavesQuotes(s: State, rid: nat, now: nat, victim: Option<string>, handover: Handover)
    ensures
      var s' := ApplySave(s, rid, now, victim, handover);
      s'.history.started == s.history.started && s'.store.quotes.Keys <= s.store.quotes.Keys
  {
    hide Evictable, KindOf, SavedForm, Inserted;
  }

  lemma {:induction false} GoneForGood(chains: Chains, steps: seq<Step>, n: nat, id: string)
    requires n <= |steps|
    requires id in Run(chains, steps[..n]).history.started && id !in Run(chains, steps[..n]).store.quotes
    ensures id in Run(chains, steps).history.started && id !in Run(chains, steps).store.quotes
  {
    hide Apply;
    if n == |steps| {
      assert steps[..n] == steps;
    } else {
      var init := steps[..|steps| - 1];
      assert init[..n] == steps[..n];
      GoneForGood(chains, init, n, id);
      GoneStaysGone(chains, Run(chains, init), steps[|steps| - 1], id);
    }
  }

  // A call about to mark is a first call of a quote whose search is on record.
  lemma MarkerIsFirst(chains: Chains, steps: seq<Step>, n: nat)
    requires MarksAllowance(chains, steps, n) || MarksPermission(chains, steps, n)
    ensures
      var s, w := Run(chains, steps[..n]), MarkerAt(chains, steps, n).work;
      && !w.recheck && w.quoteId in s.history.started
      && steps[n].rid in s.history.born && s.history.born[steps[n].rid] == w.Id()
  {
    hide QuotesOk, LatchOk, MarksOk, TaintOk, PreparationsOk, BornOk, AnswersOk, FieldsOk, AnswerShape;
    RunInv(chains, steps[..n]);
    var s := Run(chains, steps[..n]);
    assert ProgressOk(chains, s.history, steps[n].rid, At(s, steps[n].rid));
  }

  // A call whose mark finds the quote: so did every earlier mark of it.
  lemma EarlierKnew(chains: Chains, steps: seq<Step>, i: nat, j: nat)
    requires i < j && (MarksAllowance(chains, steps, i) || MarksPermission(chains, steps, i))
    requires MarksAllowance(chains, steps, j) || MarksPermission(chains, steps, j)
    requires MarkerAt(chains, steps, i).work.quoteId == MarkerAt(chains, steps, j).work.quoteId
    requires KnowsQuote(Run(chains, steps[..j]), MarkerAt(chains, steps, j).work.quoteId, steps[j].now)
    ensures KnowsQuote(Run(chains, steps[..i]), MarkerAt(chains, steps, i).work.quoteId, steps[i].now)
  {
    hide Apply;
    var s, id := Run(chains, steps[..i]), MarkerAt(chains, steps, i).work.quoteId;
    if !KnowsQuote(s, id, steps[i].now) {
      MarkerIsFirst(chains, steps, i);
      assert steps[..i + 1][..i] == steps[..i] && steps[..i + 1][i] == steps[i];
      if At(s, steps[i].rid).AllowanceRead? {
        AllowanceMarkAppends(chains, s, steps[i].rid, steps[i].now);
      } else {
        PermissionMarkAppends(chains, s, steps[i].rid, steps[i].now);
      }
      assert steps[..j][..i + 1] == steps[..i + 1];
      GoneForGood(chains, steps[..j], i + 1, id);
    }
  }

  // ---------- the latch ----------

  ghost predicate ShortBefore(chains: Chains, steps: seq<Step>, j: nat)
    requires j < |steps| && !steps[j].SaveQuote? && MarkerAt(chains, steps, j).AllowanceRead?
  {
    exists i: nat ::
      && i < j && MarksAllowance(chains, steps, i) && MarkerAt(chains, steps, i).work.short
      && SameSpender(MarkerAt(chains, steps, i).work, MarkerAt(chains, steps, j).work)
  }

  ghost predicate RequiredBefore(chains: Chains, steps: seq<Step>, j: nat)
    requires j < |steps| && !steps[j].SaveQuote? && MarkerAt(chains, steps, j).PermissionRead?
  {
    exists i: nat ::
      && i < j && MarksPermission(chains, steps, i) && MarkerAt(chains, steps, i).required
      && SameGrantee(MarkerAt(chains, steps, i).work, MarkerAt(chains, steps, j).work)
  }

  // The approval bit a call takes from its allowance mark, and whether it may go on: it is told that an
  // approval was needed before exactly when some call of the quote, for the same recipient and spender, had
  // found its allowance short before. A call for another recipient or spender leaves no trace.
  lemma AllowanceBitExactly(chains: Chains, steps: seq<Step>, j: nat)
    requires MarksAllowance(chains, steps, j)
    ensures
      var s, w := Run(chains, steps[..j]), MarkerAt(chains, steps, j).work;
      var after := At(Run(chains, steps[..j + 1]), steps[j].rid);
      && after.AllowanceMarked? && after.known == KnowsQuote(s, w.quoteId, steps[j].now)
      && after.work == w.(p := w.p.(approval := after.work.p.approval))
      && (after.work.p.approval ==> after.known)
      && (after.known ==> (after.work.p.approval <==> ShortBefore(chains, steps, j)))
  {
    hide Run, Apply;
    var s, now, w := Run(chains, steps[..j]), steps[j].now, MarkerAt(chains, steps, j).work;
    LastStep(chains, steps, j);
    AllowanceMarkAppends(chains, s, steps[j].rid, now);
    if KnowsQuote(s, w.quoteId, now) {
      var key := [w.p.response.terms.recipient, w.p.plan.spender];
      if key in s.store.quotes[w.quoteId].value.approvals {
        var i := LatchedByACall(chains, steps, j, w.quoteId, key);
        assert SameSpender(MarkerAt(chains, steps, i).work, w);
      }
      if ShortBefore(chains, steps, j) {
        var i: nat :| i < j && MarksAllowance(chains, steps, i) && MarkerAt(chains, steps, i).work.short
          && SameSpender(MarkerAt(chains, steps, i).work, w);
        CallLatches(chains, steps, i, j);
      }
    }
  }

  // The same for the Permit2 permission, by recipient, permission contract and spender; a bit that is set
  // stays set.
  lemma PermissionBitExactly(chains: Chains, steps: seq<Step>, j: nat)
    requires MarksPermission(chains, steps, j)
    ensures
      var s, w := Run(chains, steps[..j]), MarkerAt(chains, steps, j).work;
      var after := At(Run(chains, steps[..j + 1]), steps[j].rid);
      && after.PermissionMarked? && after.known == KnowsQuote(s, w.quoteId, steps[j].now)
      && after.required == MarkerAt(chains, steps, j).required
      && after.work == w.(p := w.p.(approval := after.work.p.approval))
      && (after.known ==> (after.work.p.approval <==> w.p.approval || RequiredBefore(chains, steps, j)))
  {
    hide Run, Apply;
    var s, now, w := Run(chains, steps[..j]), steps[j].now, MarkerAt(chains, steps, j).work;
    LastStep(chains, steps, j);
    PermissionMarkAppends(chains, s, steps[j].rid, now);
    if KnowsQuote(s, w.quoteId, now) {
      var grant := w.p.plan.permission.value;
      var key := [w.p.response.terms.recipient, grant.target, grant.spender];
      if key in s.store.quotes[w.quoteId].value.approvals {
        var i := LatchedByACall(chains, steps, j, w.quoteId, key);
        assert SameGrantee(MarkerAt(chains, steps, i).work, w);
      }
      if RequiredBefore(chains, steps, j) {
        var i: nat :| i < j && MarksPermission(chains, steps, i) && MarkerAt(chains, steps, i).required
          && SameGrantee(MarkerAt(chains, steps, i).work, w);
        CallLatches(chains, steps, i, j);
      }
    }
  }

  lemma LastStep(chains: Chains, steps: seq<Step>, n: nat)
    requires n < |steps|
    ensures Run(chains, steps[..n + 1]) == Apply(chains, Run(chains, steps[..n]), steps[n])
  {
    hide Apply;
    assert steps[..n + 1][..n] == steps[..n] && steps[..n + 1][n] == steps[n];
  }

  // What a call marks at a step: the quote, the parties, and whether it needs the approval.
  function KeyAt(chains: Chains, steps: seq<Step>, n: nat): Key
    requires MarksAllowance(chains, steps, n) || MarksPermission(chains, steps, n)
  {
    var pc := MarkerAt(chains, steps, n);
    if pc.AllowanceRead? then [pc.work.p.response.terms.recipient, pc.work.p.plan.spender]
    else
      var grant := pc.work.p.plan.permission.value;
      [pc.work.p.response.terms.recipient, grant.target, grant.spender]
  }

  predicate NeedsAt(chains: Chains, steps: seq<Step>, n: nat)
    requires MarksAllowance(chains, steps, n) || MarksPermission(chains, steps, n)
  {
    var pc := MarkerAt(chains, steps, n);
    if pc.AllowanceRead? then pc.work.short else pc.required
  }

  // A latched key was marked as needed by an earlier call.
  lemma LatchedByACall(chains: Chains, steps: seq<Step>, j: nat, quoteId: string, key: Key) returns (i: nat)
    requires j <= |steps|
    requires
      var quotes := Run(chains, steps[..j]).store.quotes;
      quoteId in quotes && key in quotes[quoteId].value.approvals
    ensures i < j && (MarksAllowance(chains, steps, i) || MarksPermission(chains, steps, i))
    ensures MarkerAt(chains, steps, i).work.quoteId == quoteId && KeyAt(chains, steps, i) == key && NeedsAt(chains, steps, i)
  {
    hide Run, Apply, QuotesOk, PreparationsOk, HistoryOk, MarksOk, TaintOk, RequestsOk, BornOk, AnswersOk;
    RunInv(chains, steps[..j]);
    var s := Run(chains, steps[..j]);
    assert Recorded(s.marks, quoteId, key);
    var k :| 0 <= k < |s.marks| && s.marks[k].known && s.marks[k].required && s.marks[k].quoteId == quoteId
      && s.marks[k].key == key;
    i := MarkIsMade(chains, steps[..j], k);
    assert steps[..j][..i] == steps[..i] && steps[..j][i] == steps[i];
    MarkOfStep(chains, steps[..j], i);
  }

  // A call that needed an approval has latched its key by the time a later call of the quote marks.
  lemma CallLatches(chains: Chains, steps: seq<Step>, i: nat, j: nat)
    requires i < j && (MarksAllowance(chains, steps, i) || MarksPermission(chains, steps, i)) && NeedsAt(chains, steps, i)
    requires MarksAllowance(chains, steps, j) || MarksPermission(chains, steps, j)
    requires MarkerAt(chains, steps, i).work.quoteId == MarkerAt(chains, steps, j).work.quoteId
    requires KnowsQuote(Run(chains, steps[..j]), MarkerAt(chains, steps, j).work.quoteId, steps[j].now)
    ensures
      var quotes, id := Run(chains, steps[..j]).store.quotes, MarkerAt(chains, steps, i).work.quoteId;
      id in quotes && KeyAt(chains, steps, i) in quotes[id].value.approvals
  {
    hide Run, Apply, QuotesOk, PreparationsOk, HistoryOk, MarksOk, TaintOk, RequestsOk, BornOk, AnswersOk, Recorded;
    RunInv(chains, steps[..j]);
    EarlierKnew(chains, steps, i, j);
    assert steps[..j][..i] == steps[..i] && steps[..j][i] == steps[i];
    MarkOfStep(chains, steps[..j], i);
    var s, k := Run(chains, steps[..j]), |Run(chains, steps[..i]).marks|;
    assert s.marks[k] in s.marks;
  }

  // The law. Once a call of a quote found the allowance short, no preparation of a later call for the same
  // recipient and spender is ever answered ready: not by that call and not on any recheck, in any
  // continuation of the run, whatever the user approves in between.
  lemma ShortageLatches(chains: Chains, steps: seq<Step>, i: nat, j: nat, a: Issued)
    requires i < j && MarksAllowance(chains, steps, i) && MarksAllowance(chains, steps, j)
    requires MarkerAt(chains, steps, i).work.short
    requires SameSpender(MarkerAt(chains, steps, i).work, MarkerAt(chains, steps, j).work)
    requires a in Run(chains, steps).answers
    requires a.rid == steps[j].rid || IdOf(a) == MarkerAt(chains, steps, j).work.Id()
    ensures a.response.status != Ready
  {
    hide Run, Apply;
    NeedLatches(chains, steps, i, j, a);
  }

  // The same for a permission that was missing.
  lemma RequirementLatches(chains: Chains, steps: seq<Step>, i: nat, j: nat, a: Issued)
    requires i < j && MarksPermission(chains, steps, i) && MarksPermission(chains, steps, j)
    requires MarkerAt(chains, steps, i).required
    requires SameGrantee(MarkerAt(chains, steps, i).work, MarkerAt(chains, steps, j).work)
    requires a in Run(chains, steps).answers
    requires a.rid == steps[j].rid || IdOf(a) == MarkerAt(chains, steps, j).work.Id()
    ensures a.response.status != Ready
  {
    hide Run, Apply;
    NeedLatches(chains, steps, i, j, a);
  }

  lemma NeedLatches(chains: Chains, steps: seq<Step>, i: nat, j: nat, a: Issued)
    requires i < j && (MarksAllowance(chains, steps, i) || MarksPermission(chains, steps, i)) && NeedsAt(chains, steps, i)
    requires MarksAllowance(chains, steps, j) || MarksPermission(chains, steps, j)
    requires MarkerAt(chains, steps, i).work.quoteId == MarkerAt(chains, steps, j).work.quoteId
    requires KeyAt(chains, steps, i) == KeyAt(chains, steps, j)
    requires a in Run(chains, steps).answers
    requires a.rid == steps[j].rid || IdOf(a) == MarkerAt(chains, steps, j).work.Id()
    ensures a.response.status != Ready
  {
    hide Run, Apply;
    var s, ki, kj := Run(chains, steps), |Run(chains, steps[..i]).marks|, |Run(chains, steps[..j]).marks|;
    MarkOfStep(chains, steps, i);
    MarkOfStep(chains, steps, j);
    MarkOfStep(chains, steps[..j], i) by {
      assert steps[..j][..i] == steps[..i] && steps[..j][i] == steps[i];
    }
    assert steps[..j][..i] == steps[..i];
    if s.marks[kj].known {
      EarlierKnew(chains, steps, i, j);
      PreparationTheorems.ApprovalLatch(chains, steps, ki, kj, a);
    } else {
      NoAnswerWithoutAQuote(chains, steps, s.marks[kj], a);
      assert false;
    }
  }

  // ---------- every first call marks ----------

  // A first call that is past its allowance mark, with this reading of the allowance; or past both marks,
  // with an allowance that suffices and a plan that has a permission.
  predicate Past(s: State, rid: nat, short: bool, both: bool) {
    && rid in s.requests && rid in s.history.born
    && match At(s, rid)
       case AllowanceMarked(w, _) => !both && w.short == short
       case AllowanceSettled(w) => !both && w.short == short
       case PermissionRead(w, _) => !both && w.short == short
       case PermissionMarked(w, _, _) => PastWith(w, short, both)
       case PermissionSettled(w, _) => PastWith(w, short, both)
       case Cleared(w) => PastWith(w, short, both)
       case ApprovalBuilt(w) => PastWith(w, short, both)
       case Checked(w, _, _) => PastWith(w, short, both)
       case _ => false
  }

  predicate PastWith(w: Work, short: bool, both: bool) {
    w.short == short && (both ==> !short && w.p.plan.permission.Some?)
  }

  // Where a first call may be: past its lookup, and not as a recheck.
  predicate OnItsWay(s: State, rid: nat) {
    rid in s.history.born ==>
      && rid in s.requests && !At(s, rid).Arrived? && !At(s, rid).Looked?
      && (At(s, rid).AllowanceSettled? ==> !At(s, rid).work.recheck)
  }

  // A call that has not passed goes past a mark by making it.
  lemma PassesByMarking(chains: Chains, s: State, step: Step, rid: nat, short: bool, both: bool)
    requires OnItsWay(s, rid)
    requires !Past(s, rid, short, both) && Past(Apply(chains, s, step), rid, short, both)
    ensures step.DoMark? && step.rid == rid && At(s, rid).work.short == short
    ensures if both then At(s, rid).PermissionRead? && At(s, rid).work.p.plan.permission.Some? else At(s, rid).AllowanceRead?
  {
    hide Lookup, Pruned, UsableSnapshot, ApplyMark, ApplyBuild, ApplySave, ApplySaveQuote, ApplyRead, ValidRequest,
      Erc20Answer, PermissionAnswer, ReadyAnswer;
    match step {
      case SaveQuote(search, final, searchStart, now, victim) =>
        QuoteSavePasses(s, search, final, searchStart, now, victim);
      case DoBuild(other, input, reading, now) => BuildPasses(chains, s, other, input, reading, now, rid);
      case DoRead(other, reading, now) => RereadPasses(chains, s, other, reading, now);
      case DoMark(other, now) => MarkPasses(s, other, now);
      case DoSave(other, now, victim, handover) => SavePasses(s, other, now, victim, handover);
      case _ =>
    }
  }

  lemma QuoteSavePasses(
      s: State, search: QuoteRequest, final: QuoteFinal, searchStart: nat, now: nat, victim: Option<string>)
    ensures
      var s' := ApplySaveQuote(s, search, final, searchStart, now, victim);
      s'.requests == s.requests && s'.history.born == s.history.born && s'.answers == s.answers
  {
    hide Pruned, Evictable, Inserted;
  }

  lemma BuildPasses(chains: Chains, s: State, other: nat, input: BuildInput, reading: Reading, now: nat, rid: nat)
    ensures
      var s' := ApplyBuild(chains, s, other, input, reading, now);
      && s'.answers == s.answers
      && (rid != other ==>
            && At(s', rid) == At(s, rid) && (rid in s'.requests <==> rid in s.requests)
            && (rid in s'.history.born <==> rid in s.history.born))
      && (rid in s.history.born ==> rid in s'.history.born)
      && (s' == s || (At(s, other).Looked? && (At(s', other).Stopped? || At(s', other).AllowanceRead?)))
  {
    hide Built, UsableSnapshot, DeadlineOf;
  }

  lemma RereadPasses(chains: Chains, s: State, rid: nat, reading: Reading, now: nat)
    ensures
      var s' := ApplyRead(chains, s, rid, reading, now);
      s' == s || (At(s, rid).Looked? && s' == Set(s, rid, At(s', rid)))
  {
    hide Admit, UsableSnapshot, DeadlineOf;
  }

  lemma MarkPasses(s: State, rid: nat, now: nat)
    ensures
      var s' := ApplyMark(s, rid, now);
      || s' == s
      || (&& s'.requests == s.requests[rid := At(s', rid)] && s'.history.born == s.history.born && s'.answers == s.answers
          && match At(s, rid)
             case AllowanceRead(w) => At(s', rid).AllowanceMarked? && At(s', rid).work.short == w.short
             case PermissionRead(w, _) =>
               && At(s', rid).PermissionMarked? && w.p.plan.permission.Some?
               && At(s', rid).work == w.(p := w.p.(approval := At(s', rid).work.p.approval))
             case _ => false)
  {
    hide Pruned, Latched, AllowanceKey, PermissionKey;
  }

  lemma SavePasses(s: State, rid: nat, now: nat, victim: Option<string>, handover: Handover)
    ensures
      var s', pc := ApplySave(s, rid, now, victim, handover), At(s, rid);
      || s' == s
      || (&& pc.Checked? && s'.requests == s.requests[rid := Answered(pc.answer)] && s'.history.born == s.history.born
          && s'.answers == s.answers + [Issued(rid, pc.answer, pc.checkedAt, pc.work.short)])
  {
    hide Pruned, Evictable, Inserted, SavedForm, KindOf;
  }

  lemma BornIsOnItsWay(chains: Chains, s: State, rid: nat)
    requires Inv(chains, s)
    ensures OnItsWay(s, rid)
  {
    hide QuotesOk, LatchOk, MarksOk, TaintOk, PreparationsOk, AnswersOk, HistoryOk, FieldsOk, AnswerShape, Matches, Known;
    if rid in s.history.born { assert ProgressOk(chains, s.history, rid, At(s, rid)); }
  }

  lemma {:induction false} PastItsMark(chains: Chains, steps: seq<Step>, rid: nat, short: bool, both: bool) returns (n: nat)
    requires Past(Run(chains, steps), rid, short, both)
    ensures if both then MarksPermission(chains, steps, n) else MarksAllowance(chains, steps, n)
    ensures steps[n].rid == rid && MarkerAt(chains, steps, n).work.short == short
  {
    hide Apply, Past, OnItsWay;
    assert steps != [] by { NothingPast(chains, rid, short, both); }
    var init, last := steps[..|steps| - 1], steps[|steps| - 1];
    if Past(Run(chains, init), rid, short, both) {
      n := PastItsMark(chains, init, rid, short, both);
      assert init[..n] == steps[..n] && init[n] == steps[n];
    } else {
      RunInv(chains, init);
      BornIsOnItsWay(chains, Run(chains, init), rid);
      PassesByMarking(chains, Run(chains, init), last, rid, short, both);
      n := |init|;
      assert steps[..n] == init && steps[n] == last;
    }
  }

  lemma NothingPast(chains: Chains, rid: nat, short: bool, both: bool)
    ensures !Past(Run(chains, []), rid, short, both)
  {}

  // The save that put an answer on the record.
  predicate Saves(chains: Chains, steps: seq<Step>, n: nat, a: Issued) {
    && n < |steps| && steps[n].DoSave? && steps[n].rid == a.rid && At(Run(chains, steps[..n]), a.rid).Checked?
    && At(Run(chains, steps[..n]), a.rid).answer == a.response && At(Run(chains, steps[..n]), a.rid).work.short == a.short
    && At(Run(chains, steps[..n]), a.rid).checkedAt == a.checkedAt
    && a in Run(chains, steps[..n + 1]).answers
    && (a.rid in Run(chains, steps[..n]).history.born <==> a.rid in Run(chains, steps).history.born)
  }

  lemma {:induction false} AnswerIsSaved(chains: Chains, steps: seq<Step>, a: Issued) returns (n: nat)
    requires a in Run(chains, steps).answers
    ensures Saves(chains, steps, n, a)
  {
    hide Apply, QuotesOk, LatchOk, MarksOk, TaintOk, PreparationsOk, HistoryOk, IssuedOk, RequestsOk, BornOk;
    var init, last := steps[..|steps| - 1], steps[|steps| - 1];
    var s := Run(chains, init);
    RunInv(chains, init);
    AnswersBySaving(chains, s, last, a);
    if a in s.answers {
      n := AnswerIsSaved(chains, init, a);
      assert init[..n] == steps[..n] && init[n] == steps[n] && init[..n + 1] == steps[..n + 1];
    } else {
      n := |init|;
      assert steps[..n] == init && steps[n] == last && steps[..n + 1] == steps;
    }
  }

  // An answer is new only by the save of its call; the call of an old one is done, and builds nothing.
  lemma AnswersBySaving(chains: Chains, s: State, step: Step, a: Issued)
    requires a in Apply(chains, s, step).answers
    ensures a.rid in Apply(chains, s, step).history.born && !(a.rid in s.history.born) ==>
              step.DoBuild? && step.rid == a.rid && At(s, a.rid).Looked?
    ensures a in s.answers
            || (&& step.DoSave? && step.rid == a.rid && At(s, a.rid).Checked? && At(s, a.rid).answer == a.response
                && At(s, a.rid).work.short == a.short && At(s, a.rid).checkedAt == a.checkedAt)
    ensures a.rid in s.history.born ==> a.rid in Apply(chains, s, step).history.born
  {
    hide Lookup, Pruned, UsableSnapshot, ApplyMark, ApplyBuild, ApplySave, ApplySaveQuote, ApplyRead, ValidRequest,
      Erc20Answer, PermissionAnswer, ReadyAnswer, BranchAllowance, BranchPermission, ConfirmReady, ConfirmApproval,
      SettleMark;
    match step {
      case SaveQuote(search, final, searchStart, now, victim) =>
        QuoteSavePasses(s, search, final, searchStart, now, victim);
      case DoBuild(other, input, reading, now) => BuildPasses(chains, s, other, input, reading, now, a.rid);
      case DoRead(other, reading, now) => RereadPasses(chains, s, other, reading, now);
      case DoMark(other, now) => MarkPasses(s, other, now);
      case DoSave(other, now, victim, handover) => SavePasses(s, other, now, victim, handover);
      case _ =>
    }
  }

  // A call about to save a first answer holds the plan its build froze.
  lemma SaverIsFirst(chains: Chains, s: State, rid: nat)
    requires Inv(chains, s) && At(s, rid).Checked? && rid in s.history.born
    ensures
      var w, h := At(s, rid).work, s.history;
      && !w.recheck && h.born[rid] == w.Id() && w.Id() in h.frozen && h.frozen[w.Id()].plan == w.p.plan
      && At(s, rid).answer.terms.preparationId == w.Id()
      && Past(s, rid, w.short, false) && (!w.short && w.p.plan.permission.Some? ==> Past(s, rid, w.short, true))
  {
    hide QuotesOk, LatchOk, MarksOk, TaintOk, PreparationsOk, AnswersOk, AnswerShape, Known;
    assert ProgressOk(chains, s.history, rid, At(s, rid));
  }

  // A call marks for the preparation it is answered with.
  lemma MarksItsOwn(chains: Chains, steps: seq<Step>, n: nat, a: Issued)
    requires MarksAllowance(chains, steps, n) || MarksPermission(chains, steps, n)
    requires a in Run(chains, steps).answers && steps[n].rid == a.rid
    ensures MarkerAt(chains, steps, n).work.Id() == IdOf(a)
  {
    hide Run, Apply, QuotesOk, LatchOk, TaintOk, PreparationsOk, HistoryOk, RequestsOk, FieldsOk, AnswerShape;
    RunInv(chains, steps);
    MarkOfStep(chains, steps, n);
    var s := Run(chains, steps);
    assert s.marks[|Run(chains, steps[..n]).marks|] in s.marks && IssuedOk(chains, s.history, a);
  }

  // No first call is answered without having marked its allowance, as it found it; nor, when that suffices
  // and the plan has a permission, without having marked the permission.
  lemma AnsweredCallsMark(chains: Chains, steps: seq<Step>, a: Issued) returns (n: nat, m: nat)
    requires a in Run(chains, steps).answers && a.rid in Run(chains, steps).history.born
    ensures MarksAllowance(chains, steps, n) && steps[n].rid == a.rid
    ensures MarkerAt(chains, steps, n).work.Id() == IdOf(a) && MarkerAt(chains, steps, n).work.short == a.short
    ensures
      var h := Run(chains, steps).history;
      IdOf(a) in h.frozen && h.frozen[IdOf(a)].plan.permission.Some? && !a.short ==>
        MarksPermission(chains, steps, m) && steps[m].rid == a.rid && MarkerAt(chains, steps, m).work.Id() == IdOf(a)
  {
    hide Run, Apply, Inv, Past;
    var k := AnswerIsSaved(chains, steps, a);
    var s := Run(chains, steps[..k]);
    RunInv(chains, steps[..k]);
    SaverIsFirst(chains, s, a.rid);
    n := MarksEarlier(chains, steps, k, a, false);
    m := 0;
    if !a.short && At(s, a.rid).work.p.plan.permission.Some? {
      m := MarksEarlier(chains, steps, k, a, true);
    }
    LastStep(chains, steps, k);
    SaveKeepsFrozen(chains, s, steps[k]);
    AnsweredTerms(chains, steps[..k + 1], a);
    RunRemembers(chains, steps, k + 1, IdOf(a));
  }

  lemma SaveKeepsFrozen(chains: Chains, s: State, step: Step)
    requires step.DoSave?
    ensures Apply(chains, s, step).history.frozen == s.history.frozen
  {
    hide ApplySave;
    SaveFreezesNothing(s, step.rid, step.now, step.victim, step.handover);
  }

  lemma MarksEarlier(chains: Chains, steps: seq<Step>, k: nat, a: Issued, both: bool) returns (n: nat)
    requires k < |steps| && a in Run(chains, steps).answers && Past(Run(chains, steps[..k]), a.rid, a.short, both)
    ensures if both then MarksPermission(chains, steps, n) else MarksAllowance(chains, steps, n)
    ensures steps[n].rid == a.rid && MarkerAt(chains, steps, n).work.short == a.short
    ensures MarkerAt(chains, steps, n).work.Id() == IdOf(a)
  {
    hide Run, Apply, Past;
    n := PastItsMark(chains, steps[..k], a.rid, a.short, both);
    assert steps[..k][..n] == steps[..n] && steps[..k][n] == steps[n];
    MarksItsOwn(chains, steps, n, a);
  }
}
