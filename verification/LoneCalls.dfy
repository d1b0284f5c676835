// What the preparation protocol does for a call that no other call disturbs: the other side of the
// safety results, from any state of the store.
module LoneCalls {
  import opened Messages
  import opened Numerals
  import opened Retention
  import opened PreparationProtocol
  import opened PreparationSafety
  import opened PreparationTheorems

  // ---------- a call that runs alone ----------

  // What the environment supplies to one call: every clock reading is now.
  datatype Call = Call(
    rid: nat, request: PrepareRequest, now: nat, input: BuildInput, reading: Reading, required: bool, output: string,
    victim: Option<string>, handover: Handover)

  // All steps a call may take, in order. The ones its path does not reach change nothing.
  function Steps(c: Call): seq<Step> {
    [ Receive(c.rid, c.request), DoLookup(c.rid, c.now),
      DoBuild(c.rid, c.input, c.reading, c.now), DoRead(c.rid, c.reading, c.now),
      DoMark(c.rid, c.now), DoSettle(c.rid, c.now), DoAllowance(c.rid, Some(c.required)),
      DoMark(c.rid, c.now), DoSettle(c.rid, c.now), DoPermission(c.rid),
      DoConfirmApproval(c.rid, true, c.now), DoConfirmReady(c.rid, Some(c.output), true, c.now),
      DoSave(c.rid, c.now, c.victim, c.handover) ]
  }

  function Advance(chains: Chains, s: State, steps: seq<Step>): State {
    if steps == [] then s else Apply(chains, Advance(chains, s, steps[..|steps| - 1]), steps[|steps| - 1])
  }

  lemma {:induction false} AdvanceIsRun(chains: Chains, before: seq<Step>, steps: seq<Step>)
    ensures Run(chains, before + steps) == Advance(chains, Run(chains, before), steps)
  {
    hide Apply;
    if steps == [] {
      assert before + steps == before;
    } else {
      AdvanceIsRun(chains, before, steps[..|steps| - 1]);
      assert (before + steps)[..|before + steps| - 1] == before + steps[..|steps| - 1];
    }
  }

  // ---------- the stages of a lone call ----------

  function Next(chains: Chains, s: State, a: Step, b: Step): State { Apply(chains, Apply(chains, s, a), b) }

  // The quote is stored, live and has latched exactly these keys.
  predicate QuoteLive(s: State, id: string, now: nat, expires: nat, approvals: set<Key>) {
    && id in s.store.quotes && s.store.quotes[id].expires == expires && now < expires
    && s.store.quotes[id].value.approvals == approvals
  }

  lemma MarkStage(chains: Chains, s: State, rid: nat, now: nat, w: Work, approvals: set<Key>)
    requires At(s, rid) == AllowanceRead(w) && QuoteLive(s, w.quoteId, now, w.quoteExpires, approvals)
    ensures
      var s' := Next(chains, s, DoMark(rid, now), DoSettle(rid, now));
      var latched := AllowanceKey(w.p) in approvals;
      && At(s', rid) == AllowanceSettled(w.(p := w.p.(approval := latched)))
      && QuoteLive(s', w.quoteId, now, w.quoteExpires, if w.short then approvals + {AllowanceKey(w.p)} else approvals)
      && s'.store.preparations == Live(s.store.preparations, now)
  {}

  lemma PermissionMarkStage(chains: Chains, s: State, rid: nat, now: nat, w: Work, required: bool, approvals: set<Key>)
    requires At(s, rid) == PermissionRead(w, required) && QuoteLive(s, w.quoteId, now, w.quoteExpires, approvals)
    requires w.p.plan.permission.Some?
    ensures
      var s' := Next(chains, s, DoMark(rid, now), DoSettle(rid, now));
      var latched := PermissionKey(w.p, w.p.plan.permission.value) in approvals;
      && At(s', rid) == PermissionSettled(w.(p := w.p.(approval := w.p.approval || latched)), required)
      && s'.store.preparations == Live(s.store.preparations, now)
  {}

  // The last three steps: an approval answer, a ready answer or none.
  function Finish(chains: Chains, s: State, c: Call): State {
    Apply(chains, Next(chains, s, DoConfirmApproval(c.rid, true, c.now), DoConfirmReady(c.rid, Some(c.output), true, c.now)),
          DoSave(c.rid, c.now, c.victim, c.handover))
  }

  lemma FinishStage(chains: Chains, s: State, c: Call)
    requires At(s, c.rid).ApprovalBuilt? || At(s, c.rid).Cleared?
    requires c.now < At(s, c.rid).work.expires && Evictable(Live(s.store.preparations, c.now), c.victim)
    ensures
      var w := At(s, c.rid).work;
      var pc := At(Finish(chains, s, c), c.rid);
      if At(s, c.rid).ApprovalBuilt? then pc == Answered(w.response.(simulationBlock := Some(w.snapshot.block)))
      else if w.p.approval then pc == Stopped(RequoteRequired)
      else pc == Answered(ReadyAnswer(w, c.output))
  {
    hide Live, Evictable, Inserted, ReadyAnswer;
  }

  // A first call on a live quote to which the network gives every reading it asks for.
  predicate FirstCall(chains: Chains, s: State, c: Call) {
    && c.rid !in s.requests && ValidRequest(c.request) && c.request.preparationId == ""
    && c.request.quoteId in s.store.quotes && c.now < s.store.quotes[c.request.quoteId].expires
    && "" !in s.store.preparations
    && (var record := s.store.quotes[c.request.quoteId].value;
        && (c.request.routeId != "" ==> FindRoute(record.final.routes, c.request.routeId).Some?)
        && record.request.chain in chains && c.reading.snapshot.Some?
        && c.reading.snapshot.value.chainId == chains[record.request.chain])
    && 0 < c.reading.snapshot.value.timestamp < Deadline(c.reading.snapshot.value.timestamp)
    && c.reading.verified && c.reading.allowanceShort.Some?
    && c.input.canonical && c.input.selection.Some? && c.input.plan.Some?
    && c.input.preparationId != "" && c.input.preparationId !in s.history.frozen
    && Evictable(Live(s.store.preparations, c.now), c.victim)
  }

  function FirstWork(chains: Chains, s: State, c: Call): Work
    requires FirstCall(chains, s, c)
  {
    var q := s.store.quotes[c.request.quoteId];
    var p := Preparation(
      c.input.plan.value,
      FreshResponse(c.input.preparationId, c.input.request, c.request.sender.value, c.request.slippageBps,
                    c.input.selection.value, c.now, c.reading.snapshot.value.timestamp),
      q.value.request.chain, false);
    Work(false, c.request.quoteId, q.expires, p, c.now + RETENTION, p.response, c.reading.snapshot.value,
         c.reading.allowanceShort.value)
  }

  function Start(chains: Chains, s: State, c: Call): State {
    Next(chains, Next(chains, s, Receive(c.rid, c.request), DoLookup(c.rid, c.now)),
         DoBuild(c.rid, c.input, c.reading, c.now), DoRead(c.rid, c.reading, c.now))
  }

  lemma LookupStage(chains: Chains, s: State, c: Call)
    requires FirstCall(chains, s, c)
    ensures
      var s' := Next(chains, s, Receive(c.rid, c.request), DoLookup(c.rid, c.now));
      && At(s', c.rid) == Looked(c.request, c.now, Some(s.store.quotes[c.request.quoteId]), None)
      && s'.store == Pruned(s.store, c.now) && s'.history == s.history
  {
    hide FindRoute, Evictable;
  }

  lemma StartStage(chains: Chains, s: State, c: Call)
    requires FirstCall(chains, s, c)
    ensures At(Start(chains, s, c), c.rid) == AllowanceRead(FirstWork(chains, s, c))
    ensures Start(chains, s, c).store == Pruned(s.store, c.now)
  {
    hide Evictable, Pruned, Value, Print, SlippageMinimum, UnixSeconds;
    LookupStage(chains, s, c);
    var s2 := Next(chains, s, Receive(c.rid, c.request), DoLookup(c.rid, c.now));
    PrintRoundTrip(Deadline(c.reading.snapshot.value.timestamp));
    var s3 := Apply(chains, s2, DoBuild(c.rid, c.input, c.reading, c.now));
    assert At(s3, c.rid) == AllowanceRead(FirstWork(chains, s, c));
  }

  // The middle of a first call: the allowance latch, the allowance branch and the permission branch.
  function Decide(chains: Chains, s: State, c: Call): State {
    var s1 := Next(chains, s, DoMark(c.rid, c.now), DoSettle(c.rid, c.now));
    var s2 := Apply(chains, s1, DoAllowance(c.rid, Some(c.required)));
    Apply(chains, Next(chains, s2, DoMark(c.rid, c.now), DoSettle(c.rid, c.now)), DoPermission(c.rid))
  }

  // Where a first call stands once its readings and the latch are known.
  function Decision(chains: Chains, w: Work, required: bool, approvals: set<Key>): Progress {
    var latched := AllowanceKey(w.p) in approvals;
    var w1 := w.(p := w.p.(approval := latched));
    if w.short then ApprovalBuilt(w1.(response := Erc20Answer(chains, w1)))
    else if w.p.plan.permission.None? then Cleared(w1)
    else
      var w2 := w.(p := w.p.(approval := latched || PermissionKey(w.p, w.p.plan.permission.value) in approvals));
      if !required then Cleared(w2)
      else if w2.p.approval then Stopped(RequoteRequired)
      else ApprovalBuilt(w2.(response := PermissionAnswer(chains, w2, w.p.plan.permission.value)))
  }

  lemma LiveTwice<T>(m: Table<T>, now: nat)
    ensures Live(Live(m, now), now) == Live(m, now)
  {}

  lemma DecideStage(chains: Chains, s: State, c: Call, w: Work, approvals: set<Key>)
    requires At(s, c.rid) == AllowanceRead(w) && !w.recheck
    requires QuoteLive(s, w.quoteId, c.now, w.quoteExpires, approvals)
    ensures At(Decide(chains, s, c), c.rid) == Decision(chains, w, c.required, approvals)
    ensures Decide(chains, s, c).store.preparations == Live(s.store.preparations, c.now)
  {
    hide Live, Latched, Erc20Answer, PermissionAnswer, AllowanceKey, Marked, ApplyMark;
    MarkStage(chains, s, c.rid, c.now, w, approvals);
    var s1 := Next(chains, s, DoMark(c.rid, c.now), DoSettle(c.rid, c.now));
    var s2 := Apply(chains, s1, DoAllowance(c.rid, Some(c.required)));
    var w1 := At(s1, c.rid).work;
    LiveTwice(s.store.preparations, c.now);
    if !w.short && w.p.plan.permission.Some? {
      assert At(s2, c.rid) == PermissionRead(w1, c.required);
      PermissionMarkStage(chains, s2, c.rid, c.now, w1, c.required, approvals);
    } else {
      assert s2.store == s1.store;
      NoMark(chains, s2, c);
    }
  }

  lemma NoMark(chains: Chains, s: State, c: Call)
    requires At(s, c.rid).ApprovalBuilt? || At(s, c.rid).Cleared?
    ensures Apply(chains, Next(chains, s, DoMark(c.rid, c.now), DoSettle(c.rid, c.now)), DoPermission(c.rid)) == s
  {}

  // A first call that runs alone on a live quote is ready exactly when the allowance suffices, the
  // permission suffices where the plan needs one, and no key it marks was latched before. Otherwise it
  // asks for the missing approval, or for a fresh quote where the latch forbids that.
  lemma LoneFirstCall(chains: Chains, s: State, c: Call)
    requires FirstCall(chains, s, c)
    ensures
      var w := FirstWork(chains, s, c);
      var approvals := s.store.quotes[c.request.quoteId].value.approvals;
      var pc := At(Advance(chains, s, Steps(c)), c.rid);
      var latched := AllowanceKey(w.p) in approvals
        || (w.p.plan.permission.Some? && PermissionKey(w.p, w.p.plan.permission.value) in approvals);
      var needsPermission := !w.short && w.p.plan.permission.Some? && c.required;
      && (pc == Answered(ReadyAnswer(w, c.output)) <==> !w.short && !needsPermission && !latched)
      && (w.short ==> pc == Answered(Erc20Answer(chains, w).(simulationBlock := Some(w.snapshot.block))))
      && (needsPermission && !latched ==>
            pc == Answered(PermissionAnswer(chains, w, w.p.plan.permission.value).(
                             simulationBlock := Some(w.snapshot.block))))
      && (!w.short && latched ==> pc == Stopped(RequoteRequired))
  {
    hide Start, Decide, Finish, Live, AllowanceKey, PermissionKey, Print, FindRoute, Evictable, Apply, FreshResponse;
    var w := FirstWork(chains, s, c);
    var approvals := s.store.quotes[c.request.quoteId].value.approvals;
    AdvanceInStages(chains, s, c);
    StartStage(chains, s, c);
    var s1 := Start(chains, s, c);
    QuoteSurvives(s, s1, c);
    LiveTwice(s.store.preparations, c.now);
    DecideStage(chains, s1, c, w, approvals);
    var s2 := Decide(chains, s1, c);
    if At(s2, c.rid).ApprovalBuilt? || At(s2, c.rid).Cleared? {
      FinishStage(chains, s2, c);
    } else {
      StoppedStays(chains, s2, c);
    }
  }

  // The terms a first call leaves in the store: the frozen ones, or with the selection as it was at the save.
  predicate SavedTerms(w: Work, answer: Response, handover: Handover, saved: Terms) {
    saved == if !w.recheck && answer.status == Ready then WithHandover(w.p.response.terms, handover) else w.p.response.terms
  }

  lemma FinishSaves(chains: Chains, s: State, c: Call)
    requires At(s, c.rid).ApprovalBuilt? || At(s, c.rid).Cleared?
    requires At(s, c.rid).work.response.terms == At(s, c.rid).work.p.response.terms
    requires At(s, c.rid).ApprovalBuilt? ==> At(s, c.rid).work.response.status == ApprovalRequired
    requires c.now < At(s, c.rid).work.expires && Evictable(Live(s.store.preparations, c.now), c.victim)
    requires At(Finish(chains, s, c), c.rid).Answered?
    ensures
      var w, saved := At(s, c.rid).work, Finish(chains, s, c).store.preparations;
      && w.Id() in saved && saved[w.Id()].expires == w.expires && saved[w.Id()].value.chain == w.p.chain
      && saved[w.Id()].value.plan == w.p.plan
      && saved[w.Id()].value.approval == (At(Finish(chains, s, c), c.rid).answer.status != Ready)
      && SavedTerms(w, At(Finish(chains, s, c), c.rid).answer, c.handover, saved[w.Id()].value.response.terms)
  {
    hide Live, Evictable;
  }

  // What an answered first call leaves in the store for rechecks.
  lemma LoneFirstCallIsSaved(chains: Chains, s: State, c: Call)
    requires FirstCall(chains, s, c) && At(Advance(chains, s, Steps(c)), c.rid).Answered?
    ensures
      var w, saved := FirstWork(chains, s, c), Advance(chains, s, Steps(c)).store.preparations;
      && w.Id() in saved && saved[w.Id()].expires == w.expires && saved[w.Id()].value.chain == w.p.chain
      && saved[w.Id()].value.plan == w.p.plan
      && saved[w.Id()].value.approval == (At(Advance(chains, s, Steps(c)), c.rid).answer.status != Ready)
      && SavedTerms(w, At(Advance(chains, s, Steps(c)), c.rid).answer, c.handover, saved[w.Id()].value.response.terms)
  {
    hide Start, Decide, Finish, Live, AllowanceKey, PermissionKey, Print, FindRoute, Evictable, Apply, FreshResponse;
    var w := FirstWork(chains, s, c);
    var approvals := s.store.quotes[c.request.quoteId].value.approvals;
    AdvanceInStages(chains, s, c);
    StartStage(chains, s, c);
    var s1 := Start(chains, s, c);
    QuoteSurvives(s, s1, c);
    LiveTwice(s.store.preparations, c.now);
    DecideStage(chains, s1, c, w, approvals);
    var s2 := Decide(chains, s1, c);
    if At(s2, c.rid).ApprovalBuilt? || At(s2, c.rid).Cleared? {
      FinishSaves(chains, s2, c);
    } else {
      StoppedStays(chains, s2, c);
    }
  }

  lemma QuoteSurvives(s: State, s': State, c: Call)
    requires c.request.quoteId in s.store.quotes && c.now < s.store.quotes[c.request.quoteId].expires
    requires s'.store == Pruned(s.store, c.now)
    ensures QuoteLive(s', c.request.quoteId, c.now, s.store.quotes[c.request.quoteId].expires,
                      s.store.quotes[c.request.quoteId].value.approvals)
  {}

  lemma StoppedStays(chains: Chains, s: State, c: Call)
    requires At(s, c.rid).Stopped?
    ensures At(Finish(chains, s, c), c.rid) == At(s, c.rid)
  {}

  lemma AdvanceInStages(chains: Chains, s: State, c: Call)
    ensures Advance(chains, s, Steps(c)) == Finish(chains, Decide(chains, Start(chains, s, c), c), c)
  {
    hide Apply;
    var steps := Steps(c);
    AdvanceByThree(chains, s, steps[..0], steps[0], steps[1], steps[2]);
    AdvanceByThree(chains, s, steps[..3], steps[3], steps[4], steps[5]);
    AdvanceByThree(chains, s, steps[..6], steps[6], steps[7], steps[8]);
    AdvanceByThree(chains, s, steps[..9], steps[9], steps[10], steps[11]);
    assert steps[..0] + [steps[0], steps[1], steps[2]] == steps[..3];
    assert steps[..3] + [steps[3], steps[4], steps[5]] == steps[..6];
    assert steps[..6] + [steps[6], steps[7], steps[8]] == steps[..9];
    assert steps[..9] + [steps[9], steps[10], steps[11]] == steps[..12];
  }

  lemma AdvanceOne(chains: Chains, s: State, before: seq<Step>, a: Step)
    ensures Advance(chains, s, before + [a]) == Apply(chains, Advance(chains, s, before), a)
  {
    hide Apply;
    assert (before + [a])[..|before|] == before;
  }

  lemma AdvanceByThree(chains: Chains, s: State, before: seq<Step>, a: Step, b: Step, c: Step)
    ensures Advance(chains, s, before + [a, b, c])
         == Apply(chains, Apply(chains, Apply(chains, Advance(chains, s, before), a), b), c)
  {
    hide Apply;
    assert before + [a, b, c] == before + [a] + [b] + [c];
    AdvanceOne(chains, s, before, a);
    AdvanceOne(chains, s, before + [a], b);
    AdvanceOne(chains, s, before + [a] + [b], c);
  }

  // A recheck of a live preparation to which the network gives every reading it asks for.
  predicate Recheck(chains: Chains, s: State, c: Call) {
    && c.rid !in s.requests && ValidRequest(c.request) && c.request.preparationId != ""
    && c.request.preparationId in s.store.preparations
    && (var e := s.store.preparations[c.request.preparationId];
        && c.now < e.expires && e.value.chain in chains && c.reading.snapshot.Some?
        && c.reading.snapshot.value.chainId == chains[e.value.chain]
        && 0 < c.reading.snapshot.value.timestamp < DeadlineOf(e.value.response))
    && c.reading.verified && c.reading.allowanceShort.Some?
    && Evictable(Live(s.store.preparations, c.now), c.victim)
  }

  function RecheckWork(chains: Chains, s: State, c: Call): Work
    requires Recheck(chains, s, c)
  {
    var e := s.store.preparations[c.request.preparationId];
    Work(true, "", 0, e.value, e.expires, e.value.response, c.reading.snapshot.value, c.reading.allowanceShort.value)
  }

  lemma RecheckLookupStage(chains: Chains, s: State, c: Call)
    requires Recheck(chains, s, c)
    ensures
      var s' := Next(chains, s, Receive(c.rid, c.request), DoLookup(c.rid, c.now));
      && At(s', c.rid).Looked? && At(s', c.rid).prep == Some(s.store.preparations[c.request.preparationId])
      && s'.store == Pruned(s.store, c.now)
  {
    hide Evictable;
  }

  lemma RecheckStartStage(chains: Chains, s: State, c: Call)
    requires Recheck(chains, s, c)
    ensures At(Start(chains, s, c), c.rid) == AllowanceSettled(RecheckWork(chains, s, c))
    ensures Start(chains, s, c).store == Pruned(s.store, c.now)
  {
    hide Evictable, Pruned, Value;
    RecheckLookupStage(chains, s, c);
  }

  lemma RecheckDecideStage(chains: Chains, s: State, c: Call, w: Work)
    requires At(s, c.rid) == AllowanceSettled(w) && w.recheck
    ensures At(Decide(chains, s, c), c.rid) == RecheckApproval(chains, w, c.required)
    ensures Decide(chains, s, c).store == s.store
  {
    hide Erc20Answer, PermissionAnswer, ApplyMark, ApplySaveQuote, ApplyBuild, ApplyRead, ApplySave, Lookup,
         ConfirmApproval, ConfirmReady, SettleMark;
    NothingToMark(chains, s, c);
    var s2 := Apply(chains, s, DoAllowance(c.rid, Some(c.required)));
    NothingToMark(chains, s2, c);
  }

  // Only a first call marks.
  lemma NothingToMark(chains: Chains, s: State, c: Call)
    requires
      var pc := At(s, c.rid);
      !pc.AllowanceRead? && !pc.PermissionRead? && !pc.AllowanceMarked? && !pc.PermissionMarked?
    ensures Next(chains, s, DoMark(c.rid, c.now), DoSettle(c.rid, c.now)) == s
  {}

  // A recheck that runs alone answers what its readings and the stored approval bit decide.
  lemma LoneRecheck(chains: Chains, s: State, c: Call)
    requires Recheck(chains, s, c)
    ensures
      var w := RecheckWork(chains, s, c);
      var pc := At(Advance(chains, s, Steps(c)), c.rid);
      match RecheckApproval(chains, w, c.required)
      case ApprovalBuilt(w') => pc == Answered(w'.response.(simulationBlock := Some(w.snapshot.block)))
      case Cleared(w') => pc == if w.p.approval then Stopped(RequoteRequired) else Answered(ReadyAnswer(w, c.output))
      case stopped => pc == stopped && stopped.Stopped?
  {
    hide Start, Decide, Finish, Live, Evictable, Apply, ReadyAnswer, Erc20Answer, PermissionAnswer;
    var w := RecheckWork(chains, s, c);
    AdvanceInStages(chains, s, c);
    RecheckStartStage(chains, s, c);
    LiveTwice(s.store.preparations, c.now);
    var s1 := Start(chains, s, c);
    RecheckDecideStage(chains, s1, c, w);
    var s2 := Decide(chains, s1, c);
    if At(s2, c.rid).ApprovalBuilt? || At(s2, c.rid).Cleared? {
      FinishStage(chains, s2, c);
    } else {
      StoppedStays(chains, s2, c);
    }
  }

  // So one quote can ask for two authorizations, although the engine means it to authorise one
  // transaction: whenever a preparation was first answered with a Permit2 permission and the ERC-20
  // allowance is short at a later recheck, that recheck asks for an ERC-20 approval as well.
  lemma TwoAuthorizations(chains: Chains, s: State, c: Call)
    requires Inv(chains, s) && Recheck(chains, s, c)
    requires c.request.preparationId in s.history.kinds
    requires s.history.kinds[c.request.preparationId] == PermissionKind && c.reading.allowanceShort == Some(true)
    ensures
      var pc := At(Advance(chains, s, Steps(c)), c.rid);
      && pc.Answered? && pc.answer.status == ApprovalRequired
      && pc.answer.approvalTransaction.Some? && pc.answer.permission.Some?
      && pc.answer.terms.preparationId == c.request.preparationId
  {
    hide Inv, Advance, Steps, Evictable, Live, ValidRequest;
    LoneRecheck(chains, s, c);
    StoredKind(chains, s, c.request.preparationId);
  }

  lemma StoredKind(chains: Chains, s: State, id: string)
    requires Inv(chains, s) && id in s.store.preparations
    ensures id in s.history.kinds && StoredShape(s.history.kinds[id], s.store.preparations[id].value)
    ensures s.store.preparations[id].value.response.terms.preparationId == id
  {
    hide ProgressOk, RequestsOk, HistoryOk, QuotesOk, LatchOk, MarksOk, TaintOk, AnswersOk;
    assert StoredOk(chains, s.history, id, s.store.preparations[id]);
  }
}
