// What the clock, the network, the strategy and the simulator tell one call, and what its steps in a run
// have to do with it: nothing a call is answered or rejected for is made up.
module CallReadings {
  import opened Messages
  import opened Numerals
  import opened Retention
  import opened PreparationProtocol
  import opened PreparationTheorems

  // Everything one call is told, whether or not it gets to ask. None where the other side fails.
  datatype World = World(
    lookupAt: nat, snapshot: Option<Snapshot>, canonical: bool, selection: Option<Selection>, plan: Option<Plan>,
    verified: bool, admittedAt: nat, allowance: Option<nat>, markedAt: nat, settledAt: nat,
    granted: Option<(nat, nat)>, markedAgainAt: nat, settledAgainAt: nat, output: Option<string>, stillCanonical: bool,
    confirmedAt: nat, savedAt: nat)

  // An allowance that does not cover the amount of a text.
  predicate TooSmall(allowance: nat, amountIn: string) { IsDecimal(amountIn) && allowance < Value(amountIn) }

  function ReadingOf(world: World, amountIn: string): Reading {
    Reading(world.snapshot, world.verified,
            if world.allowance.None? then None else Some(TooSmall(world.allowance.value, amountIn)))
  }

  // Whether the plan's permission has to be asked for: too small, or over before the deadline.
  function RequiredOf(w: Work, world: World): Option<bool> {
    if w.p.plan.permission.None? || world.granted.None? then None
    else Some(world.granted.value.0 < w.p.plan.permission.value.amount || world.granted.value.1 < DeadlineOf(w.response))
  }

  // The clock check after a mark.
  function SettledAt(pc: Progress, world: World): nat {
    if pc.AllowanceMarked? then world.settledAt else world.settledAgainAt
  }

  // The input of a build is what the call was told. What the objects of a strategy hold is read when it is used.
  predicate Heard(input: BuildInput, world: World) {
    && input.canonical == world.canonical && input.plan == world.plan
    && (input.selection.Some? <==> world.selection.Some?)
    && (input.selection.Some? ==> input.selection.value.output == world.selection.value.output)
  }

  // A step of a call carries what the call was told.
  predicate Tells(s: State, step: Step, world: World) {
    match step
    case DoLookup(_, now) => now == world.lookupAt
    case DoBuild(_, input, reading, now) =>
      reading == ReadingOf(world, input.request.amountIn) && now == world.admittedAt && Heard(input, world)
    case DoRead(rid, reading, now) =>
      && (At(s, rid).Looked? && At(s, rid).prep.Some? ==>
            reading == ReadingOf(world, At(s, rid).prep.value.value.response.terms.amountIn))
      && now == world.admittedAt
    case DoMark(rid, now) => now == if At(s, rid).AllowanceRead? then world.markedAt else world.markedAgainAt
    case DoSettle(rid, now) => now == SettledAt(At(s, rid), world)
    case DoAllowance(rid, required) =>
      At(s, rid).AllowanceSettled? && !At(s, rid).work.short ==> required == RequiredOf(At(s, rid).work, world)
    case DoConfirmApproval(_, canonical, now) => canonical == world.stillCanonical && now == world.confirmedAt
    case DoConfirmReady(_, output, canonical, now) =>
      output == world.output && canonical == world.stillCanonical && now == world.confirmedAt
    case DoSave(_, now, _, _) => now == world.savedAt
    case _ => true
  }

  // So do all steps a run has recorded for the call since it arrived.
  ghost predicate Told(chains: Chains, steps: seq<Step>, rid: nat, world: World) {
    forall i :: 0 <= i < |steps| && Caller(steps[i]) == Some(rid) && rid in Run(chains, steps[..i]).requests ==>
      Tells(Run(chains, steps[..i]), steps[i], world)
  }

  lemma ToldStep(chains: Chains, steps: seq<Step>, step: Step, rid: nat, world: World)
    requires Told(chains, steps, rid, world)
    requires Caller(step) == Some(rid) && rid in Run(chains, steps).requests ==> Tells(Run(chains, steps), step, world)
    ensures Told(chains, steps + [step], rid, world)
  {
    hide Run, Tells;
    var more := steps + [step];
    forall i | 0 <= i < |more| && Caller(more[i]) == Some(rid) && rid in Run(chains, more[..i]).requests
      ensures Tells(Run(chains, more[..i]), more[i], world) {
      if i < |steps| {
        assert more[..i] == steps[..i] && more[i] == steps[i];
      } else {
        assert more[..i] == steps;
      }
    }
  }

  lemma ToldBefore(chains: Chains, steps: seq<Step>, rid: nat, world: World)
    requires steps != [] && Told(chains, steps, rid, world)
    ensures Told(chains, steps[..|steps| - 1], rid, world)
  {
    hide Run, Tells;
    var init := steps[..|steps| - 1];
    forall i | 0 <= i < |init| && Caller(init[i]) == Some(rid) && rid in Run(chains, init[..i]).requests
      ensures Tells(Run(chains, init[..i]), init[i], world) {
      assert init[..i] == steps[..i] && init[i] == steps[i];
    }
  }

  lemma CallsStay(chains: Chains, s: State, step: Step, rid: nat)
    requires rid in s.requests
    ensures rid in Apply(chains, s, step).requests
  {
    hide Lookup, Admit, Built, SettleMark, BranchAllowance, BranchPermission, ConfirmApproval, ConfirmReady, Inserted,
         Live, Evictable, Latched, UsableSnapshot;
  }

  // A call that has not arrived has been told nothing.
  lemma {:induction false} NothingTold(chains: Chains, steps: seq<Step>, rid: nat, world: World)
    requires rid !in Run(chains, steps).requests
    ensures Told(chains, steps, rid, world)
  {
    hide Apply, Tells;
    if steps != [] {
      var init := steps[..|steps| - 1];
      if rid in Run(chains, init).requests { CallsStay(chains, Run(chains, init), steps[|steps| - 1], rid); }
      NothingTold(chains, init, rid, world);
      assert init + [steps[|steps| - 1]] == steps;
      ToldStep(chains, init, steps[|steps| - 1], rid, world);
    }
  }

  // ---------- answers ----------

  predicate ReadFrom(w: Work, world: World) {
    && world.snapshot == Some(w.snapshot) && world.verified && world.allowance.Some?
    && w.short == TooSmall(world.allowance.value, w.response.terms.amountIn)
  }

  // The terms verified, the allowance read, the block still canonical; for a ready answer an allowance that
  // suffices and the simulated output, and for any other a short allowance or a permission that was read.
  predicate Backed(answer: Response, world: World) {
    && world.snapshot.Some? && answer.simulationBlock == Some(world.snapshot.value.block)
    && world.verified && world.allowance.Some? && world.stillCanonical
    && (answer.status == Ready ==>
          !TooSmall(world.allowance.value, answer.terms.amountIn) && world.output == Some(answer.simulatedOutput))
    && (answer.status != Ready ==> TooSmall(world.allowance.value, answer.terms.amountIn) || world.granted.Some?)
  }

  predicate ReadSoFar(pc: Progress, world: World) {
    match pc
    case AllowanceRead(w) => ReadFrom(w, world)
    case AllowanceMarked(w, _) => ReadFrom(w, world)
    case AllowanceSettled(w) => ReadFrom(w, world)
    case PermissionRead(w, _) => ReadFrom(w, world) && !w.short && world.granted.Some?
    case PermissionMarked(w, _, _) => ReadFrom(w, world) && !w.short && world.granted.Some?
    case PermissionSettled(w, _) => ReadFrom(w, world) && !w.short && world.granted.Some?
    case Cleared(w) => ReadFrom(w, world) && !w.short
    case ApprovalBuilt(w) => ReadFrom(w, world) && w.response.status == ApprovalRequired && (w.short || world.granted.Some?)
    case Checked(w, answer, checkedAt) => Backed(answer, world) && checkedAt == world.confirmedAt
    case Answered(answer) => Backed(answer, world)
    case _ => true
  }

  lemma StepReads(chains: Chains, s: State, step: Step, rid: nat, world: World)
    requires rid in s.requests && ReadSoFar(At(s, rid), world)
    requires Caller(step) == Some(rid) && Tells(s, step, world)
    ensures ReadSoFar(At(Apply(chains, s, step), rid), world)
  {
    hide Pruned, Evictable, Inserted, Latched, ApprovalTransaction, Permission, DeadlineOf, Built, AllowanceKey,
         PermissionKey, SavedForm, KindOf, Lookup, BranchAllowance, BranchPermission, ApplySaveQuote, ApplyMark, ApplySave,
         ApplyBuild, ApplyRead;
    match step {
      case DoLookup(_, now) => LookupReads(chains, s, rid, now, world);
      case DoBuild(_, input, reading, now) => BuildReads(chains, s, rid, input, reading, now, world);
      case DoRead(_, reading, now) => RereadReads(chains, s, rid, reading, now, world);
      case DoAllowance(_, required) =>
        if At(s, rid).AllowanceSettled? { AllowanceReads(chains, At(s, rid).work, required, world); }
      case DoPermission(_) =>
        if At(s, rid).PermissionSettled? { PermissionReads(chains, At(s, rid).work, At(s, rid).required, world); }
      case DoMark(_, now) => MarkReads(s, rid, now, world);
      case DoSave(_, now, victim, handover) => SaveReads(s, rid, now, victim, handover, world);
      case _ =>
    }
  }

  lemma AllowanceReads(chains: Chains, w: Work, required: Option<bool>, world: World)
    requires ReadFrom(w, world) && (!w.short ==> required == RequiredOf(w, world))
    ensures ReadSoFar(BranchAllowance(chains, w, required), world)
  {
    hide ApprovalTransaction, DeadlineOf;
  }

  lemma PermissionReads(chains: Chains, w: Work, required: bool, world: World)
    requires ReadFrom(w, world) && !w.short && world.granted.Some?
    ensures ReadSoFar(BranchPermission(chains, w, required), world)
  {
    hide Permission;
  }

  lemma LookupReads(chains: Chains, s: State, rid: nat, now: nat, world: World)
    requires rid in s.requests && ReadSoFar(At(s, rid), world)
    ensures ReadSoFar(At(Apply(chains, s, DoLookup(rid, now)), rid), world)
  {
    hide Pruned;
  }

  lemma BuildReads(chains: Chains, s: State, rid: nat, input: BuildInput, reading: Reading, now: nat, world: World)
    requires rid in s.requests && ReadSoFar(At(s, rid), world) && reading == ReadingOf(world, input.request.amountIn)
    ensures ReadSoFar(At(ApplyBuild(chains, s, rid, input, reading, now), rid), world)
  {
    hide FindRoute, UnixSeconds, Print, SlippageMinimum, Deadline, DeadlineOf;
  }

  lemma RereadReads(chains: Chains, s: State, rid: nat, reading: Reading, now: nat, world: World)
    requires rid in s.requests && ReadSoFar(At(s, rid), world)
    requires At(s, rid).Looked? && At(s, rid).prep.Some? ==>
               reading == ReadingOf(world, At(s, rid).prep.value.value.response.terms.amountIn)
    ensures ReadSoFar(At(ApplyRead(chains, s, rid, reading, now), rid), world)
  {
    hide DeadlineOf;
  }

  lemma MarkReads(s: State, rid: nat, now: nat, world: World)
    requires rid in s.requests && ReadSoFar(At(s, rid), world)
    ensures ReadSoFar(At(ApplyMark(s, rid, now), rid), world)
  {
    hide Pruned, Latched, AllowanceKey, PermissionKey;
  }

  lemma SaveReads(s: State, rid: nat, now: nat, victim: Option<string>, handover: Handover, world: World)
    requires rid in s.requests && ReadSoFar(At(s, rid), world)
    ensures ReadSoFar(At(ApplySave(s, rid, now, victim, handover), rid), world)
  {
    hide Pruned, Evictable, Inserted, SavedForm, KindOf;
  }

  lemma Arrives(chains: Chains, s: State, step: Step, rid: nat)
    requires rid !in s.requests && rid in Apply(chains, s, step).requests
    ensures At(Apply(chains, s, step), rid).Arrived? || At(Apply(chains, s, step), rid) == Stopped(Unspecified)
  {
    hide Lookup, Admit, Built, SettleMark, BranchAllowance, BranchPermission, ConfirmApproval, ConfirmReady, Inserted,
         Live, Evictable, Latched, UsableSnapshot, ValidRequest;
  }

  // However the calls interleave, what a call has come to is backed by what it was told.
  lemma {:induction false} RunReads(chains: Chains, steps: seq<Step>, rid: nat, world: World)
    requires Told(chains, steps, rid, world) && rid in Run(chains, steps).requests
    ensures ReadSoFar(At(Run(chains, steps), rid), world)
  {
    hide Apply, Tells, ReadSoFar;
    var init, last := steps[..|steps| - 1], steps[|steps| - 1];
    var s := Run(chains, init);
    ToldBefore(chains, steps, rid, world);
    if rid !in s.requests {
      Arrives(chains, s, last, rid);
      NothingRead(At(Run(chains, steps), rid), world);
    } else {
      RunReads(chains, init, rid, world);
      if Caller(last) == Some(rid) {
        StepReads(chains, s, last, rid, world);
      } else {
        OthersLeaveTheCall(chains, s, last, rid);
      }
    }
  }

  lemma NothingRead(pc: Progress, world: World)
    requires pc.Arrived? || pc.Stopped?
    ensures ReadSoFar(pc, world)
  {}

  lemma AnswersAreBacked(chains: Chains, steps: seq<Step>, rid: nat, world: World)
    requires Told(chains, steps, rid, world) && At(Run(chains, steps), rid).Answered?
    ensures Backed(At(Run(chains, steps), rid).answer, world)
  {
    hide Run, Told, Backed;
    RunReads(chains, steps, rid, world);
  }

  // ---------- refusals ----------

  // A call is rejected here: something it asked for failed.
  predicate Failing(chains: Chains, pc: Progress, world: World) {
    match pc
    case Looked(request, _, quote, prep) =>
      || !UsableSnapshot(chains, pc, ReadingOf(world, "")) || !world.verified || world.allowance.None?
      || (prep.None? && quote.Some?
          && (world.selection.None? || world.plan.None?
              || (request.routeId != "" && FindRoute(quote.value.value.final.routes, request.routeId).None?)))
    case AllowanceSettled(_) => world.granted.None?
    case Cleared(_) => world.output.None?
    case _ => false
  }

  // A call is asked to requote here: nothing live found, a block that is no longer canonical, a clock past an
  // expiry, or the approval rules.
  predicate Requoted(s: State, rid: nat, world: World) {
    match At(s, rid)
    case Arrived(r) =>
      var live := Pruned(s.store, world.lookupAt);
      if r.preparationId != "" then r.preparationId !in live.preparations else r.quoteId !in live.quotes
    case Looked(_, now, _, prep) =>
      || (prep.None? && !world.canonical)
      || world.admittedAt >= (if prep.Some? then prep.value.expires else now + RETENTION)
      || (world.snapshot.Some?
          && world.snapshot.value.timestamp
             >= if prep.Some? then DeadlineOf(prep.value.value.response) else Deadline(world.snapshot.value.timestamp))
    case AllowanceMarked(w, known) => !known || world.settledAt >= w.quoteExpires
    case PermissionMarked(w, _, known) => !known || world.settledAgainAt >= w.quoteExpires
    case AllowanceSettled(w) => w.short && w.recheck && !w.p.approval
    case PermissionSettled(w, required) =>
      && required
      && if w.recheck then
           !w.p.approval || (w.p.response.approvalTransaction.Some? && w.p.response.permission.None?)
         else w.p.approval
    case ApprovalBuilt(w) => !world.stillCanonical || world.confirmedAt >= w.expires
    case Cleared(w) => w.p.approval || !world.stillCanonical || world.confirmedAt >= w.expires
    case _ => false
  }

  ghost predicate HasReason(chains: Chains, steps: seq<Step>, rid: nat, world: World, status: Status) {
    exists i ::
      && 0 <= i < |steps| && rid in Run(chains, steps[..i]).requests
      && if status == Rejected then Failing(chains, At(Run(chains, steps[..i]), rid), world)
         else Requoted(Run(chains, steps[..i]), rid, world)
  }

  lemma StepReason(chains: Chains, s: State, step: Step, rid: nat, world: World)
    requires rid in s.requests && !At(s, rid).Stopped? && At(Apply(chains, s, step), rid).Stopped?
    requires Caller(step) == Some(rid) && Tells(s, step, world)
    ensures
      var status := At(Apply(chains, s, step), rid).status;
      || (status == Rejected && Failing(chains, At(s, rid), world))
      || (status == RequoteRequired && Requoted(s, rid, world))
  {
    hide Pruned, Evictable, Inserted, Latched, ApprovalTransaction, Permission, AllowanceKey, PermissionKey, SavedForm,
         KindOf, ApplySaveQuote, ApplyMark, ApplySave, ApplyBuild, ApplyRead, DeadlineOf, Deadline;
    match step {
      case DoBuild(_, input, reading, now) => BuildReason(chains, s, rid, input, reading, now, world);
      case DoRead(_, reading, now) => RereadReason(chains, s, rid, reading, now, world);
      case DoMark(_, now) => MarksGoOn(s, rid, now);
      case DoSave(_, now, victim, handover) => SavesGoOn(s, rid, now, victim, handover);
      case _ =>
    }
  }

  lemma MarksGoOn(s: State, rid: nat, now: nat)
    requires !At(s, rid).Stopped?
    ensures !At(ApplyMark(s, rid, now), rid).Stopped?
  {
    hide Pruned, Latched, AllowanceKey, PermissionKey;
  }

  lemma SavesGoOn(s: State, rid: nat, now: nat, victim: Option<string>, handover: Handover)
    requires !At(s, rid).Stopped?
    ensures !At(ApplySave(s, rid, now, victim, handover), rid).Stopped?
  {
    hide Pruned, Evictable, Inserted, SavedForm, KindOf;
  }

  lemma BuildReason(chains: Chains, s: State, rid: nat, input: BuildInput, reading: Reading, now: nat, world: World)
    requires !At(s, rid).Stopped? && At(ApplyBuild(chains, s, rid, input, reading, now), rid).Stopped?
    requires Tells(s, DoBuild(rid, input, reading, now), world)
    ensures
      var status := At(ApplyBuild(chains, s, rid, input, reading, now), rid).status;
      || (status == Rejected && Failing(chains, At(s, rid), world))
      || (status == RequoteRequired && Requoted(s, rid, world))
  {
    hide FindRoute, Deadline, Print, SlippageMinimum, UnixSeconds, Value, IsDecimal;
    if world.snapshot.Some? { PrintRoundTrip(Deadline(world.snapshot.value.timestamp)); }
  }

  lemma RereadReason(chains: Chains, s: State, rid: nat, reading: Reading, now: nat, world: World)
    requires !At(s, rid).Stopped? && At(ApplyRead(chains, s, rid, reading, now), rid).Stopped?
    requires Tells(s, DoRead(rid, reading, now), world)
    ensures
      var status := At(ApplyRead(chains, s, rid, reading, now), rid).status;
      || (status == Rejected && Failing(chains, At(s, rid), world))
      || (status == RequoteRequired && Requoted(s, rid, world))
  {
    hide DeadlineOf;
  }

  // However the calls interleave, a call that was accepted as a request stops only for a reason: it is rejected
  // only when something it asked for failed, and sent back for a fresh quote only as listed.
  lemma {:induction false} StopsForAReason(chains: Chains, steps: seq<Step>, rid: nat, world: World)
    requires Told(chains, steps, rid, world) && rid in Run(chains, steps).requests && At(Run(chains, steps), rid).Stopped?
    requires At(Run(chains, steps), rid).status != Unspecified
    ensures
      var status := At(Run(chains, steps), rid).status;
      (status == Rejected || status == RequoteRequired) && HasReason(chains, steps, rid, world, status)
  {
    hide Apply, Tells, Failing, Requoted;
    var init, last := steps[..|steps| - 1], steps[|steps| - 1];
    var s := Run(chains, init);
    ToldBefore(chains, steps, rid, world);
    if rid !in s.requests {
      Arrives(chains, s, last, rid);
    } else {
      if Caller(last) != Some(rid) { OthersLeaveTheCall(chains, s, last, rid); }
      if At(s, rid).Stopped? {
        StoppedForGood(chains, s, last, rid);
        StopsForAReason(chains, init, rid, world);
        ReasonStays(chains, init, last, rid, world, At(s, rid).status);
        assert init + [last] == steps;
      } else {
        StepReason(chains, s, last, rid, world);
      }
    }
  }

  lemma StoppedForGood(chains: Chains, s: State, step: Step, rid: nat)
    requires At(s, rid).Stopped? && rid in s.requests
    ensures At(Apply(chains, s, step), rid) == At(s, rid)
  {
    hide Lookup, Admit, Built, SettleMark, BranchAllowance, BranchPermission, ConfirmApproval, ConfirmReady, Inserted,
         Live, Evictable, Latched, UsableSnapshot;
  }

  lemma ReasonStays(chains: Chains, steps: seq<Step>, step: Step, rid: nat, world: World, status: Status)
    requires HasReason(chains, steps, rid, world, status)
    ensures HasReason(chains, steps + [step], rid, world, status)
  {
    hide Run, Failing, Requoted;
    var i :| 0 <= i < |steps| && rid in Run(chains, steps[..i]).requests
      && if status == Rejected then Failing(chains, At(Run(chains, steps[..i]), rid), world)
         else Requoted(Run(chains, steps[..i]), rid, world);
    assert (steps + [step])[..i] == steps[..i];
  }
}
