// What an answer rests on, number by number: every reading a call must have made, and what it must have said.
module AnswerGrounds {
  import opened Messages
  import opened Numerals
  import opened Retention
  import opened PreparationProtocol
  import opened PreparationSafety
  import opened PreparationRecord
  import opened PreparationTheorems
  import opened CallReadings
  import opened ApprovalLatch

  // The terms were verified at a block of the right chain, in time; the allowance was read; and a first call found
  // its quote's block canonical, and a selection and a plan.
  predicate Admitted(chains: Chains, w: Work, world: World) {
    && world.snapshot == Some(w.snapshot) && world.verified && world.allowance.Some?
    && (w.short <==> IsDecimal(w.response.terms.amountIn) && world.allowance.value < Value(w.response.terms.amountIn))
    && w.p.chain in chains && w.snapshot.chainId == chains[w.p.chain] && w.snapshot.timestamp != 0
    && world.admittedAt < w.expires && w.response.terms == w.p.response.terms
    && IsDecimal(w.response.terms.deadline) && w.snapshot.timestamp < Value(w.response.terms.deadline)
    && (!w.recheck ==> world.canonical && world.selection.Some? && world.plan == Some(w.p.plan))
  }

  // The permission of the plan was read, and found wanting or not.
  predicate GrantRead(w: Work, world: World, wanting: bool) {
    && w.p.plan.permission.Some? && world.granted.Some? && IsDecimal(w.response.terms.deadline)
    && (wanting <==> world.granted.value.0 < w.p.plan.permission.value.amount
                     || world.granted.value.1 < Value(w.response.terms.deadline))
  }

  predicate Grounded(chains: Chains, pc: Progress, world: World) {
    match pc
    case AllowanceRead(w) => Admitted(chains, w, world)
    case AllowanceMarked(w, _) => Admitted(chains, w, world)
    case AllowanceSettled(w) => Admitted(chains, w, world) && InTime(w, world, false)
    case PermissionRead(w, required) =>
      Admitted(chains, w, world) && InTime(w, world, false) && !w.short && GrantRead(w, world, required)
    case PermissionMarked(w, required, _) =>
      Admitted(chains, w, world) && InTime(w, world, false) && !w.short && GrantRead(w, world, required)
    case PermissionSettled(w, required) =>
      Admitted(chains, w, world) && InTime(w, world, true) && !w.short && GrantRead(w, world, required)
    case Cleared(w) => ClearedBy(chains, w, world)
    case ApprovalBuilt(w) => AskedBy(chains, w, w.response, world)
    case Checked(w, answer, at) => CheckedBy(chains, w, answer, at, world)
    case _ => true
  }

  // The clock had not passed the quote's expiry after a first call's marks.
  predicate InTime(w: Work, world: World, both: bool) {
    !w.recheck ==> world.settledAt < w.quoteExpires && (both ==> world.settledAgainAt < w.quoteExpires)
  }

  predicate ClearedBy(chains: Chains, w: Work, world: World) {
    && Admitted(chains, w, world) && InTime(w, world, w.p.plan.permission.Some?) && !w.short
    && (w.p.plan.permission.Some? ==> GrantRead(w, world, false))
  }

  // An approval is asked for because the allowance is short, or a permission because it is wanting.
  predicate AskedBy(chains: Chains, w: Work, answer: Response, world: World) {
    && answer.status == ApprovalRequired && Admitted(chains, w, world) && InTime(w, world, !w.short)
    && (w.short ==> answer.approvalTransaction.Some?)
    && (!w.short ==> answer.permission.Some? && GrantRead(w, world, true))
  }

  predicate CheckedBy(chains: Chains, w: Work, answer: Response, at: nat, world: World) {
    && world.stillCanonical && at == world.confirmedAt && at < w.expires && answer.simulationBlock == Some(w.snapshot.block)
    && answer.terms == w.p.response.terms
    && if answer.status == Ready then ClearedBy(chains, w, world) && world.output == Some(answer.simulatedOutput)
       else AskedBy(chains, w.(response := answer), answer, world)
  }

  // ---------- one step ----------

  lemma StepGrounds(chains: Chains, s: State, step: Step, rid: nat, world: World)
    requires rid in s.requests && Grounded(chains, At(s, rid), world)
    requires Caller(step) == Some(rid) && Tells(s, step, world)
    ensures Grounded(chains, At(Apply(chains, s, step), rid), world)
  {
    hide Pruned, Evictable, Inserted, Latched, ApprovalTransaction, Permission, Built, AllowanceKey, PermissionKey,
      SavedForm, KindOf, Lookup, BranchAllowance, BranchPermission, ConfirmApproval, ConfirmReady, ApplySaveQuote, ApplyMark,
      ApplySave, ApplyBuild, ApplyRead, Grounded, SettleMark;
    var pc := At(s, rid);
    match step {
      case DoLookup(_, now) => LookupGrounds(chains, s, rid, now, world);
      case DoBuild(_, input, reading, now) => BuildGrounds(chains, s, rid, input, reading, now, world);
      case DoRead(_, reading, now) => RereadGrounds(chains, s, rid, reading, now, world);
      case DoAllowance(_, required) => if pc.AllowanceSettled? { AllowanceGrounds(chains, pc.work, required, world); }
      case DoPermission(_) => if pc.PermissionSettled? { PermissionGrounds(chains, pc.work, pc.required, world); }
      case DoMark(_, now) => MarkGrounds(chains, s, rid, now, world);
      case DoSettle(_, now) => if pc.AllowanceMarked? || pc.PermissionMarked? { SettleGrounds(chains, pc, now, world); }
      case DoConfirmApproval(_, canonical, now) =>
        if pc.ApprovalBuilt? { ApprovalGrounds(chains, pc.work, canonical, now, world); }
      case DoConfirmReady(_, output, canonical, now) =>
        if pc.Cleared? { ReadyGrounds(chains, pc.work, output, canonical, now, world); }
      case DoSave(_, now, victim, handover) => SaveGrounds(chains, s, rid, now, victim, handover, world);
      case _ =>
    }
  }

  lemma AdmitGrounds(
      chains: Chains, recheck: bool, quoteId: string, quoteExpires: nat, p: Preparation, expires: nat, snapshot: Snapshot,
      now: nat, world: World)
    requires world.snapshot == Some(snapshot) && now == world.admittedAt && snapshot.timestamp != 0
    requires p.chain in chains && snapshot.chainId == chains[p.chain]
    requires !recheck ==> world.canonical && world.selection.Some? && world.plan == Some(p.plan)
    ensures
      var reading := ReadingOf(world, p.response.terms.amountIn);
      Grounded(chains, Admit(recheck, quoteId, quoteExpires, p, expires, snapshot, reading, now), world)
  {
    hide Value, AllDigits;
  }

  lemma LookupGrounds(chains: Chains, s: State, rid: nat, now: nat, world: World)
    requires rid in s.requests && Grounded(chains, At(s, rid), world)
    ensures Grounded(chains, At(Apply(chains, s, DoLookup(rid, now)), rid), world)
  {
    hide Pruned;
  }

  lemma BuildGrounds(chains: Chains, s: State, rid: nat, input: BuildInput, reading: Reading, now: nat, world: World)
    requires rid in s.requests && Grounded(chains, At(s, rid), world)
    requires reading == ReadingOf(world, input.request.amountIn) && now == world.admittedAt && Heard(input, world)
    ensures Grounded(chains, At(ApplyBuild(chains, s, rid, input, reading, now), rid), world)
  {
    hide Admit, Grounded, FindRoute, UnixSeconds, Print, SlippageMinimum, Deadline;
    var l, t := At(s, rid), ApplyBuild(chains, s, rid, input, reading, now);
    if t != s {
      if t.history == s.history {
        StoppedGrounds(chains, At(t, rid), world);
      } else {
        var p := Built(l, input, reading.snapshot.value).value;
        AdmitGrounds(chains, false, l.request.quoteId, l.quote.value.expires, p, l.now + RETENTION, reading.snapshot.value,
                     now, world);
      }
    }
  }

  lemma StoppedGrounds(chains: Chains, pc: Progress, world: World)
    requires pc.Stopped? || pc.Arrived?
    ensures Grounded(chains, pc, world)
  {}

  lemma RereadGrounds(chains: Chains, s: State, rid: nat, reading: Reading, now: nat, world: World)
    requires rid in s.requests && Grounded(chains, At(s, rid), world)
    requires At(s, rid).Looked? && At(s, rid).prep.Some? ==>
               reading == ReadingOf(world, At(s, rid).prep.value.value.response.terms.amountIn)
    requires now == world.admittedAt
    ensures Grounded(chains, At(ApplyRead(chains, s, rid, reading, now), rid), world)
  {
    hide Admit, Grounded;
    var l, t := At(s, rid), ApplyRead(chains, s, rid, reading, now);
    if t != s {
      if UsableSnapshot(chains, l, reading) {
        AdmitGrounds(chains, true, "", 0, l.prep.value.value, l.prep.value.expires, reading.snapshot.value, now, world);
      } else {
        StoppedGrounds(chains, At(t, rid), world);
      }
    }
  }

  lemma MarkGrounds(chains: Chains, s: State, rid: nat, now: nat, world: World)
    requires rid in s.requests && Grounded(chains, At(s, rid), world)
    ensures Grounded(chains, At(ApplyMark(s, rid, now), rid), world)
  {
    hide Pruned, Latched, AllowanceKey, PermissionKey, Value, AllDigits;
  }

  lemma SettleGrounds(chains: Chains, pc: Progress, now: nat, world: World)
    requires (pc.AllowanceMarked? || pc.PermissionMarked?) && Grounded(chains, pc, world) && now == SettledAt(pc, world)
    ensures Grounded(chains, SettleMark(pc, now), world)
  {
    hide Value, AllDigits;
  }

  lemma AllowanceGrounds(chains: Chains, w: Work, required: Option<bool>, world: World)
    requires Grounded(chains, AllowanceSettled(w), world) && (!w.short ==> required == RequiredOf(w, world))
    ensures Grounded(chains, BranchAllowance(chains, w, required), world)
  {
    hide ApprovalTransaction, Value, AllDigits;
  }

  lemma PermissionGrounds(chains: Chains, w: Work, required: bool, world: World)
    requires Grounded(chains, PermissionSettled(w, required), world)
    ensures Grounded(chains, BranchPermission(chains, w, required), world)
  {
    hide Permission, Value, AllDigits;
  }

  lemma ApprovalGrounds(chains: Chains, w: Work, canonical: bool, now: nat, world: World)
    requires Grounded(chains, ApprovalBuilt(w), world) && canonical == world.stillCanonical && now == world.confirmedAt
    ensures Grounded(chains, ConfirmApproval(w, canonical, now), world)
  {
    hide Value, AllDigits;
  }

  lemma ReadyGrounds(chains: Chains, w: Work, output: Option<string>, canonical: bool, now: nat, world: World)
    requires Grounded(chains, Cleared(w), world) && canonical == world.stillCanonical && now == world.confirmedAt
    requires output == world.output
    ensures Grounded(chains, ConfirmReady(w, output, canonical, now), world)
  {
    hide Value, AllDigits;
  }

  lemma SaveGrounds(chains: Chains, s: State, rid: nat, now: nat, victim: Option<string>, handover: Handover, world: World)
    requires rid in s.requests && Grounded(chains, At(s, rid), world)
    ensures Grounded(chains, At(ApplySave(s, rid, now, victim, handover), rid), world)
  {
    hide Pruned, Evictable, Inserted, SavedForm, KindOf, CheckedBy;
  }

  lemma {:induction false} RunGrounds(chains: Chains, steps: seq<Step>, rid: nat, world: World)
    requires Told(chains, steps, rid, world) && rid in Run(chains, steps).requests
    ensures Grounded(chains, At(Run(chains, steps), rid), world)
  {
    hide Apply, Tells, Grounded;
    var init, last := steps[..|steps| - 1], steps[|steps| - 1];
    var s := Run(chains, init);
    ToldBefore(chains, steps, rid, world);
    if rid !in s.requests {
      Arrives(chains, s, last, rid);
      StoppedGrounds(chains, At(Run(chains, steps), rid), world);
    } else {
      RunGrounds(chains, init, rid, world);
      if Caller(last) == Some(rid) {
        StepGrounds(chains, s, last, rid, world);
      } else {
        OthersLeaveTheCall(chains, s, last, rid);
      }
    }
  }

  // ---------- every answer of every run ----------

  lemma ToldEarlier(chains: Chains, steps: seq<Step>, k: nat, rid: nat, world: World)
    requires k <= |steps| && Told(chains, steps, rid, world)
    ensures Told(chains, steps[..k], rid, world)
  {
    hide Run, Tells;
    var init := steps[..k];
    forall i | 0 <= i < |init| && Caller(init[i]) == Some(rid) && rid in Run(chains, init[..i]).requests
      ensures Tells(Run(chains, init[..i]), init[i], world) {
      assert init[..i] == steps[..i] && init[i] == steps[i];
    }
  }

  lemma StartedStays(chains: Chains, s: State, step: Step, id: string)
    requires id in s.history.started
    ensures id in Apply(chains, s, step).history.started
    ensures Apply(chains, s, step).history.started[id] == s.history.started[id]
  {
    hide Lookup, Admit, Built, SettleMark, BranchAllowance, BranchPermission, ConfirmApproval, ConfirmReady, Evictable,
      UsableSnapshot, KindOf, SavedForm, ApplyMark, ApplyBuild, ApplySave, Pruned, Inserted;
    match step {
      case DoBuild(rid, input, reading, now) => BuildLeavesQuotes(chains, s, rid, input, reading, now);
      case DoMark(rid, now) => MarkKeepsStarted(s, rid, now);
      case DoSave(rid, now, victim, handover) => SaveLeavesQuotes(s, rid, now, victim, handover);
      case _ =>
    }
  }

  lemma {:induction false} StartedForever(chains: Chains, steps: seq<Step>, k: nat, id: string)
    requires k <= |steps| && id in Run(chains, steps[..k]).history.started
    ensures id in Run(chains, steps).history.started
    ensures Run(chains, steps).history.started[id] == Run(chains, steps[..k]).history.started[id]
  {
    hide Apply;
    if k == |steps| {
      assert steps[..k] == steps;
    } else {
      var init := steps[..|steps| - 1];
      assert init[..k] == steps[..k];
      StartedForever(chains, init, k, id);
      StartedStays(chains, Run(chains, init), steps[|steps| - 1], id);
    }
  }

  // A call about to save holds what its preparation froze, and a first call the expiry of its quote.
  lemma SaverHolds(chains: Chains, s: State, rid: nat)
    requires Inv(chains, s) && At(s, rid).Checked?
    ensures
      var (w, h) := (At(s, rid).work, s.history);
      && w.Id() in h.frozen && w.p.plan == h.frozen[w.Id()].plan && w.p.chain == h.frozen[w.Id()].chain
      && w.expires == h.frozen[w.Id()].expires && (rid in h.born <==> !w.recheck)
      && (!w.recheck ==> w.quoteId == h.frozen[w.Id()].quoteId && w.quoteId in h.started
                         && w.quoteExpires == h.started[w.quoteId] + RETENTION)
  {
    hide QuotesOk, LatchOk, MarksOk, TaintOk, PreparationsOk, AnswersOk, AnswerShape, FieldsOk;
    ProgressAt(chains, s, rid);
  }

  // What an answer under frozen terms rests on. In any run: it was given within thirty seconds of what froze its
  // terms, at a canonical block of the configured chain before the deadline, after the terms were verified; a
  // first call within thirty seconds of its quote's search. A ready answer reports what was simulated, with an
  // allowance that suffices and, where the plan has a permission, one of that amount that outlasts the deadline;
  // any other asks for what was missing.
  predicate RestsOn(chains: Chains, a: Issued, f: Frozen, first: bool, started: nat, world: World) {
    var p := a.response.terms;
    && f.chain in chains && world.snapshot.Some? && world.snapshot.value.chainId == chains[f.chain]
    && IsDecimal(p.deadline) && 0 < world.snapshot.value.timestamp < Value(p.deadline)
    && world.verified && world.allowance.Some? && world.stillCanonical
    && (a.short <==> IsDecimal(p.amountIn) && world.allowance.value < Value(p.amountIn))
    && a.response.simulationBlock == Some(world.snapshot.value.block)
    && world.admittedAt < f.expires && world.confirmedAt == a.checkedAt < f.expires
    && (first ==> world.canonical && world.selection.Some? && world.plan == Some(f.plan)
                  && world.settledAt < started + 30 * 1000000000)
    && (first && !a.short && f.plan.permission.Some? ==> world.settledAgainAt < started + 30 * 1000000000)
    && (a.response.status == Ready ==>
          && !a.short && world.output == Some(a.response.simulatedOutput)
          && (f.plan.permission.Some? ==>
                && world.granted.Some? && world.granted.value.0 >= f.plan.permission.value.amount
                && world.granted.value.1 >= Value(p.deadline)))
    && (a.response.status != Ready ==>
          && a.response.status == ApprovalRequired && (a.short ==> a.response.approvalTransaction.Some?)
          && (!a.short ==>
                && a.response.permission.Some? && f.plan.permission.Some? && world.granted.Some?
                && (world.granted.value.0 < f.plan.permission.value.amount || world.granted.value.1 < Value(p.deadline))))
  }

  lemma CheckedRests(
      chains: Chains, w: Work, answer: Response, at: nat, f: Frozen, started: nat, world: World, a: Issued)
    requires CheckedBy(chains, w, answer, at, world)
    requires w.p.plan == f.plan && w.p.chain == f.chain && w.expires == f.expires
    requires !w.recheck ==> w.quoteExpires == started + RETENTION
    requires a.response == answer && a.checkedAt == at && a.short == w.short
    ensures RestsOn(chains, a, f, !w.recheck, started, world)
  {
    hide Value, AllDigits;
  }

  // However the calls interleave.
  lemma AnswersRestOnReadings(chains: Chains, steps: seq<Step>, a: Issued, world: World)
    requires a in Run(chains, steps).answers && Told(chains, steps, a.rid, world)
    ensures
      var h := Run(chains, steps).history;
      && IdOf(a) in h.frozen && h.frozen[IdOf(a)].quoteId in h.started
      && RestsOn(chains, a, h.frozen[IdOf(a)], a.rid in h.born, h.started[h.frozen[IdOf(a)].quoteId], world)
  {
    hide Run, Apply, Inv, Told, RestsOn, Admitted, ClearedBy, AskedBy;
    var k := AnswerIsSaved(chains, steps, a);
    var s := Run(chains, steps[..k]);
    ToldEarlier(chains, steps, k, a.rid, world);
    RunGrounds(chains, steps[..k], a.rid, world);
    RunInv(chains, steps[..k]);
    SaverHolds(chains, s, a.rid);
    var w := At(s, a.rid).work;
    FrozenForever(chains, steps, k, w.Id());
    AgeBound(chains, steps, a);
    if !w.recheck { StartedForever(chains, steps, k, w.quoteId); }
    var h := Run(chains, steps).history;
    CheckedRests(chains, w, a.response, a.checkedAt, h.frozen[IdOf(a)], h.started[h.frozen[IdOf(a)].quoteId], world, a);
  }
}
