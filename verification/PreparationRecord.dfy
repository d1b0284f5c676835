// What the record of a run says beyond its safety: every answer given is on it, an ERC-20 approval on
// it goes back to a call that found the allowance short, and a call whose quote was gone at a mark
// answers nothing.
module PreparationRecord {
  import opened Messages
  import opened Retention
  import opened PreparationProtocol
  import opened PreparationSafety

  function IdOf(a: Issued): string { a.response.terms.preparationId }

  // Some answered call of this preparation found the allowance short.
  predicate ShortAnswered(answers: seq<Issued>, id: string) {
    exists a :: a in answers && IdOf(a) == id && a.short
  }

  predicate OnRecord(answers: seq<Issued>, rid: nat, response: Response) {
    exists a :: a in answers && a.rid == rid && a.response == response
  }

  // The first call of this preparation was answered.
  predicate FirstAnswered(h: History, answers: seq<Issued>, id: string) {
    exists a :: a in answers && IdOf(a) == id && a.rid in h.born && h.born[a.rid] == id
  }

  // An approval in a stored or prepared form was asked for by an answered call.
  predicate Asked(answers: seq<Issued>, r: Response) {
    r.approvalTransaction.Some? ==> ShortAnswered(answers, r.terms.preparationId)
  }

  // The answer a call is about to give carries an approval exactly if the call, or one answered before
  // it, found the allowance short.
  predicate Asking(answers: seq<Issued>, w: Work, answer: Response) {
    && answer.terms.preparationId == w.Id()
    && (w.short ==> answer.approvalTransaction.Some?)
    && (answer.approvalTransaction.Some? ==> w.short || ShortAnswered(answers, w.Id()))
  }

  predicate Traced(answers: seq<Issued>, rid: nat, pc: Progress) {
    match pc
    case Looked(_, _, _, prep) => prep.Some? ==> Asked(answers, prep.value.value.response)
    case AllowanceRead(w) => Asked(answers, w.p.response) && w.response == w.p.response
    case AllowanceMarked(w, _) => Asked(answers, w.p.response) && w.response == w.p.response
    case AllowanceSettled(w) => Asked(answers, w.p.response) && w.response == w.p.response
    case PermissionRead(w, _) => Asked(answers, w.p.response) && w.response == w.p.response && !w.short
    case PermissionMarked(w, _, _) => Asked(answers, w.p.response) && w.response == w.p.response && !w.short
    case PermissionSettled(w, _) => Asked(answers, w.p.response) && w.response == w.p.response && !w.short
    case Cleared(w) => Asked(answers, w.p.response) && w.response == w.p.response && !w.short
    case ApprovalBuilt(w) => Asking(answers, w, w.response)
    case Checked(w, answer, _) =>
      Asking(answers, w, answer) && (w.p.response.approvalTransaction.Some? ==> w.short || ShortAnswered(answers, w.Id()))
    case Answered(answer) => OnRecord(answers, rid, answer)
    case _ => true
  }

  // The call of a mark that found no quote stops, and its preparation is never answered.
  predicate Abandoned(s: State, m: Mark) {
    && m.preparationId !in s.history.kinds
    && (At(s, m.rid).Stopped?
        || ((At(s, m.rid).AllowanceMarked? || At(s, m.rid).PermissionMarked?) && !At(s, m.rid).known))
  }

  predicate StoreTraced(answers: seq<Issued>, preparations: Table<Preparation>) {
    forall id :: id in preparations ==> Asked(answers, preparations[id].value.response)
  }

  predicate AnswersTraced(answers: seq<Issued>) {
    forall a :: a in answers ==>
      (a.short ==> a.response.approvalTransaction.Some?) && Asked(answers, a.response)
  }

  predicate RequestsTraced(answers: seq<Issued>, requests: map<nat, Progress>) {
    forall rid :: rid in requests ==> Traced(answers, rid, requests[rid])
  }

  predicate KindsAnswered(h: History, answers: seq<Issued>) {
    forall id :: id in h.kinds ==> FirstAnswered(h, answers, id)
  }

  predicate MarksAbandoned(s: State) {
    forall m :: m in s.marks && !m.known ==> Abandoned(s, m)
  }

  predicate OnTheRecord(s: State) {
    && RequestsTraced(s.answers, s.requests) && StoreTraced(s.answers, s.store.preparations)
    && AnswersTraced(s.answers) && KindsAnswered(s.history, s.answers) && MarksAbandoned(s)
  }

  // ---------- one step ----------

  lemma LongerRecord(answers: seq<Issued>, a: Issued, rid: nat, pc: Progress)
    requires Traced(answers, rid, pc)
    ensures Traced(answers + [a], rid, pc)
  {
    hide FieldsOk;
    ShortStays(answers, a);
    if pc.Answered? {
      var b :| b in answers && b.rid == rid && b.response == pc.answer;
      assert b in answers + [a];
    }
  }

  lemma ShortStays(answers: seq<Issued>, a: Issued)
    ensures forall id :: ShortAnswered(answers, id) ==> ShortAnswered(answers + [a], id)
    ensures a.short ==> ShortAnswered(answers + [a], IdOf(a))
  {
    forall id | ShortAnswered(answers, id) ensures ShortAnswered(answers + [a], id) {
      var b :| b in answers && IdOf(b) == id && b.short;
      assert b in answers + [a];
    }
    assert a in answers + [a];
  }

  // A call other than through a save moves to a traced place; a call at a failed mark only stops.
  predicate Moves(s: State, rid: nat, pc: Progress) {
    && Traced(s.answers, rid, pc)
    && ((At(s, rid).AllowanceMarked? || At(s, rid).PermissionMarked?) && !At(s, rid).known ==> pc.Stopped?)
    && (At(s, rid).Stopped? ==> pc.Stopped? || rid !in s.requests)
  }

  lemma Moved(s: State, rid: nat, pc: Progress)
    requires OnTheRecord(s) && Moves(s, rid, pc)
    requires forall m :: m in s.marks ==> m.rid in s.requests
    ensures OnTheRecord(Set(s, rid, pc))
  {
    hide Traced, StoreTraced, AnswersTraced, KindsAnswered;
    forall m | m in s.marks && !m.known ensures Abandoned(Set(s, rid, pc), m) {
      assert Abandoned(s, m);
    }
  }

  // The places a call moves to by itself.
  lemma MarkMoves(answers: seq<Issued>, rid: nat, pc: Progress, now: nat)
    requires Traced(answers, rid, pc) && (pc.AllowanceMarked? || pc.PermissionMarked?)
    ensures Traced(answers, rid, SettleMark(pc, now))
  {
    hide Asked;
  }

  lemma AllowanceMoves(chains: Chains, answers: seq<Issued>, rid: nat, pc: Progress, required: Option<bool>)
    requires Traced(answers, rid, pc) && pc.AllowanceSettled?
    ensures Traced(answers, rid, BranchAllowance(chains, pc.work, required))
  {
    hide ApprovalTransaction, ShortAnswered;
  }

  lemma PermissionMoves(chains: Chains, answers: seq<Issued>, rid: nat, pc: Progress)
    requires Traced(answers, rid, pc) && pc.PermissionSettled?
    ensures Traced(answers, rid, BranchPermission(chains, pc.work, pc.required))
  {
    hide Permission, ShortAnswered;
  }

  lemma ApprovalMoves(answers: seq<Issued>, rid: nat, pc: Progress, canonical: bool, now: nat)
    requires Traced(answers, rid, pc) && pc.ApprovalBuilt?
    ensures Traced(answers, rid, ConfirmApproval(pc.work, canonical, now))
  {
    hide ShortAnswered;
  }

  lemma ReadyMoves(answers: seq<Issued>, rid: nat, pc: Progress, output: Option<string>, canonical: bool, now: nat)
    requires Traced(answers, rid, pc) && pc.Cleared?
    ensures Traced(answers, rid, ConfirmReady(pc.work, output, canonical, now))
  {
    hide ShortAnswered;
  }

  lemma AdmitTraced(answers: seq<Issued>, rid: nat, recheck: bool, quoteId: string, quoteExpires: nat, p: Preparation,
                    expires: nat, snapshot: Snapshot, reading: Reading, now: nat)
    requires Asked(answers, p.response)
    ensures Traced(answers, rid, Admit(recheck, quoteId, quoteExpires, p, expires, snapshot, reading, now))
  {}

  lemma PruneRecord(s: State, now: nat)
    requires OnTheRecord(s)
    ensures OnTheRecord(s.(store := Pruned(s.store, now)))
  {
    hide Asked, Traced, AnswersTraced, KindsAnswered;
    forall m | m in s.marks && !m.known ensures Abandoned(s.(store := Pruned(s.store, now)), m) {
      assert Abandoned(s, m);
    }
  }

  lemma MarkersArrived(chains: Chains, s: State)
    requires Inv(chains, s)
    ensures forall m :: m in s.marks ==> m.rid in s.requests && m.rid in s.history.born
  {
    hide RequestsOk, AnswersOk, PreparationsOk, LatchOk, TaintOk, QuotesOk;
  }

  lemma LookupRecord(chains: Chains, s: State, rid: nat, now: nat)
    requires Inv(chains, s) && OnTheRecord(s) && At(s, rid).Arrived?
    ensures OnTheRecord(Apply(chains, s, DoLookup(rid, now)))
  {
    hide Inv, Moves, Traced, Asked, AnswersTraced, KindsAnswered, MarksAbandoned, Live;
    MarkersArrived(chains, s);
    PruneRecord(s, now);
    var pruned := s.(store := Pruned(s.store, now));
    var pc := Lookup(At(s, rid).request, now, pruned.store);
    LookupTraced(s.answers, rid, At(s, rid).request, now, pruned.store);
    LookupMoves(pruned, rid, pc);
    Moved(pruned, rid, pc);
  }

  lemma LookupTraced(answers: seq<Issued>, rid: nat, request: PrepareRequest, now: nat, store: StoreState)
    requires StoreTraced(answers, store.preparations)
    ensures Traced(answers, rid, Lookup(request, now, store))
  {
    hide Asked;
  }

  lemma LookupMoves(s: State, rid: nat, pc: Progress)
    requires At(s, rid).Arrived? && Traced(s.answers, rid, pc)
    ensures Moves(s, rid, pc)
  {
    hide Traced;
  }

  lemma BuildRecord(chains: Chains, s: State, rid: nat, input: BuildInput, reading: Reading, now: nat)
    requires Inv(chains, s) && OnTheRecord(s)
    ensures OnTheRecord(ApplyBuild(chains, s, rid, input, reading, now))
  {
    hide Inv, Traced, Asked, StoreTraced, AnswersTraced, Admit, FindRoute, UnixSeconds, SlippageMinimum;
    MarkersArrived(chains, s);
    var s' := ApplyBuild(chains, s, rid, input, reading, now);
    if s' != s {
      var l := At(s, rid);
      if s'.history != s.history {
        var p := Built(l, input, reading.snapshot.value).value;
        NothingAsked(s.answers, p.response);
        AdmitTraced(s.answers, rid, false, l.request.quoteId, l.quote.value.expires, p, l.now + RETENTION,
                    reading.snapshot.value, reading, now);
        NotAnsweredYet(chains, s, rid);
        BornRecord(s, rid, input.preparationId, s'.history.frozen);
      } else {
        StoppedTraced(s.answers, rid, s'.requests[rid]);
      }
      Moved(s.(history := s'.history), rid, s'.requests[rid]);
    }
  }

  lemma NotAnsweredYet(chains: Chains, s: State, rid: nat)
    requires Inv(chains, s) && !At(s, rid).Answered?
    ensures forall a :: a in s.answers ==> a.rid != rid
  {
    hide IssuedOk, RequestsOk, PreparationsOk, LatchOk, TaintOk, QuotesOk, HistoryOk, MarksOk;
  }

  lemma NothingAsked(answers: seq<Issued>, r: Response)
    requires r.approvalTransaction.None?
    ensures Asked(answers, r)
  {}

  lemma StoppedTraced(answers: seq<Issued>, rid: nat, pc: Progress)
    requires pc.Stopped?
    ensures Traced(answers, rid, pc)
  {}

  // A build by a call that has not built before leaves the record as it is.
  lemma BornRecord(s: State, rid: nat, id: string, frozen: map<string, Frozen>)
    requires OnTheRecord(s) && forall m :: m in s.marks ==> m.rid in s.requests
    requires forall a :: a in s.answers ==> a.rid != rid
    ensures OnTheRecord(s.(history := s.history.(frozen := frozen, born := s.history.born[rid := id])))
  {
    hide Traced, StoreTraced, AnswersTraced;
    var s' := s.(history := s.history.(frozen := frozen, born := s.history.born[rid := id]));
    forall m | m in s.marks && !m.known ensures Abandoned(s', m) { assert Abandoned(s, m); }
    forall known | known in s'.history.kinds ensures FirstAnswered(s'.history, s.answers, known) {
      var a :| a in s.answers && IdOf(a) == known && a.rid in s.history.born && s.history.born[a.rid] == known;
      assert a.rid in s'.history.born && s'.history.born[a.rid] == known;
    }
  }

  lemma ReadRecord(chains: Chains, s: State, rid: nat, reading: Reading, now: nat)
    requires Inv(chains, s) && OnTheRecord(s)
    ensures OnTheRecord(ApplyRead(chains, s, rid, reading, now))
  {
    hide Inv, Asked, StoreTraced, AnswersTraced, KindsAnswered, MarksAbandoned, Admit;
    MarkersArrived(chains, s);
    var s' := ApplyRead(chains, s, rid, reading, now);
    if s' != s {
      var l := At(s, rid);
      assert Traced(s.answers, rid, l);
      if UsableSnapshot(chains, l, reading) {
        AdmitTraced(s.answers, rid, true, "", 0, l.prep.value.value, l.prep.value.expires, reading.snapshot.value,
                    reading, now);
      }
      Moved(s, rid, s'.requests[rid]);
    }
  }

  // A mark: of a quote that is there, or of one that is gone.
  lemma MarkedRecord(chains: Chains, s: State, rid: nat, w: Work, key: Key, required: bool, now: nat, pc: Progress)
    requires Inv(chains, s) && OnTheRecord(s) && rid in s.requests
    requires At(s, rid).AllowanceRead? || At(s, rid).PermissionRead?
    requires At(s, rid).work == w && Traced(s.answers, rid, pc) && (pc.AllowanceMarked? || pc.PermissionMarked?)
    requires pc.known == Marked(s, rid, w, key, required, now).2
    ensures OnTheRecord(Set(Marked(s, rid, w, key, required, now).0, rid, pc))
  {
    hide Inv, Asked, Traced, AnswersTraced, Live;
    var s' := Set(Marked(s, rid, w, key, required, now).0, rid, pc);
    PruneRecord(s, now);
    MarkersArrived(chains, s);
    UnclassifiedFirst(chains, s, rid);
    forall m | m in s'.marks && !m.known ensures Abandoned(s', m) {
      if m in s.marks {
        assert Abandoned(s, m);
        assert m.rid != rid;
      } else {
        assert m.rid == rid && !pc.known;
      }
    }
    assert MarksAbandoned(s');
    assert RequestsTraced(s'.answers, s'.requests);
    assert StoreTraced(s'.answers, s'.store.preparations);
    forall id | id in s'.history.kinds ensures FirstAnswered(s'.history, s'.answers, id) {
      assert FirstAnswered(s.history, s.answers, id);
    }
  }

  lemma UnclassifiedFirst(chains: Chains, s: State, rid: nat)
    requires Inv(chains, s) && (At(s, rid).AllowanceRead? || At(s, rid).PermissionRead?)
    ensures At(s, rid).work.Id() !in s.history.kinds
  {
    hide HistoryOk, AnswersOk, PreparationsOk, LatchOk, TaintOk, QuotesOk, MarksOk, Matches;
    assert ProgressOk(chains, s.history, rid, At(s, rid));
  }

  lemma MarkRecord(chains: Chains, s: State, rid: nat, now: nat)
    requires Inv(chains, s) && OnTheRecord(s)
    ensures OnTheRecord(ApplyMark(s, rid, now))
  {
    hide Inv, Asked, StoreTraced, AnswersTraced, KindsAnswered, MarksAbandoned, Marked;
    var pc := At(s, rid);
    if pc.AllowanceRead? {
      assert Traced(s.answers, rid, pc);
      var r := Marked(s, rid, pc.work, AllowanceKey(pc.work.p), pc.work.short, now);
      MarkedRecord(chains, s, rid, pc.work, AllowanceKey(pc.work.p), pc.work.short, now,
                   AllowanceMarked(pc.work.(p := pc.work.p.(approval := r.1)), r.2));
    } else if pc.PermissionRead? && pc.work.p.plan.permission.Some? {
      assert Traced(s.answers, rid, pc);
      var key := PermissionKey(pc.work.p, pc.work.p.plan.permission.value);
      var r := Marked(s, rid, pc.work, key, pc.required, now);
      MarkedRecord(chains, s, rid, pc.work, key, pc.required, now,
                   PermissionMarked(pc.work.(p := pc.work.p.(approval := pc.work.p.approval || r.1)), pc.required, r.2));
    }
  }

  // ---------- saving ----------

  // A checked call is the first of its preparation, or the preparation was answered before; and no mark
  // of a preparation about to be answered found its quote gone.
  lemma CheckedOrigin(chains: Chains, s: State, rid: nat)
    requires Inv(chains, s) && MarksAbandoned(s) && At(s, rid).Checked?
    ensures
      var id := At(s, rid).work.Id();
      && (id !in s.history.kinds ==> rid in s.history.born && s.history.born[rid] == id)
      && forall m :: m in s.marks && !m.known ==> m.rid != rid && (id in s.history.kinds || m.preparationId != id)
  {
    hide Inv, ProgressOk, HistoryOk;
    CheckedFirst(chains, s, rid);
    MarkersBorn(chains, s);
    forall m | m in s.marks && !m.known
      ensures m.rid != rid && (At(s, rid).work.Id() in s.history.kinds || m.preparationId != At(s, rid).work.Id()) {
      assert Abandoned(s, m);
    }
  }

  lemma CheckedFirst(chains: Chains, s: State, rid: nat)
    requires Inv(chains, s) && At(s, rid).Checked?
    ensures At(s, rid).work.Id() !in s.history.kinds ==>
              rid in s.history.born && s.history.born[rid] == At(s, rid).work.Id()
  {
    hide AnswersOk, PreparationsOk, LatchOk, TaintOk, QuotesOk, MarksOk, HistoryOk, Matches, AnswerReady, StoredShape,
         OneAuthorization;
    assert ProgressOk(chains, s.history, rid, At(s, rid));
  }

  lemma MarkersBorn(chains: Chains, s: State)
    requires Inv(chains, s)
    ensures forall m :: m in s.marks ==> m.rid in s.history.born && s.history.born[m.rid] == m.preparationId
    ensures forall a, b :: a in s.history.born && b in s.history.born && s.history.born[a] == s.history.born[b] ==> a == b
  {
    hide RequestsOk, AnswersOk, PreparationsOk, LatchOk, TaintOk, QuotesOk;
  }

  lemma SaveRecord(chains: Chains, s: State, rid: nat, now: nat, victim: Option<string>, handover: Handover)
    requires Inv(chains, s) && OnTheRecord(s)
    ensures OnTheRecord(ApplySave(s, rid, now, victim, handover))
  {
    hide Inv, Traced, Asked, AnswersTraced, KindsAnswered, MarksAbandoned, KindOf, Inserted, Live, Evictable, StoreTraced;
    var s' := ApplySave(s, rid, now, victim, handover);
    var pc := At(s, rid);
    if s' != s {
      var a := Issued(rid, pc.answer, pc.checkedAt, pc.work.short);
      CheckedOrigin(chains, s, rid);
      assert Traced(s.answers, rid, pc);
      AnswerId(s.answers, rid, pc);
      SavedTraced(s, rid, a, now, victim, handover);
      SavedKinds(s, s', rid, a);
      SavedMarks(s, s', rid);
    }
  }

  lemma AnswerId(answers: seq<Issued>, rid: nat, pc: Progress)
    requires pc.Checked? && Traced(answers, rid, pc)
    ensures pc.answer.terms.preparationId == pc.work.Id()
  {}

  lemma SavedTraced(s: State, rid: nat, a: Issued, now: nat, victim: Option<string>, handover: Handover)
    requires OnTheRecord(s) && At(s, rid).Checked? && Traced(s.answers, rid, At(s, rid))
    requires a == Issued(rid, At(s, rid).answer, At(s, rid).checkedAt, At(s, rid).work.short)
    ensures
      var answers := s.answers + [a];
      var e := Entry(SavedForm(At(s, rid).work, a.response, handover), At(s, rid).work.expires);
      && RequestsTraced(answers, s.requests[rid := Answered(a.response)])
      && StoreTraced(answers, Inserted(Live(s.store.preparations, now), At(s, rid).work.Id(), e, victim))
      && AnswersTraced(answers)
  {
    hide KindsAnswered, MarksAbandoned;
    var answers := s.answers + [a];
    ShortStays(s.answers, a);
    forall other | other in s.requests && other != rid ensures Traced(answers, other, s.requests[other]) {
      LongerRecord(s.answers, a, other, s.requests[other]);
    }
    assert a in answers;
    assert Traced(answers, rid, Answered(a.response));
  }

  lemma SavedKinds(s: State, s': State, rid: nat, a: Issued)
    requires KindsAnswered(s.history, s.answers) && s'.answers == s.answers + [a] && a.rid == rid
    requires s'.history.born == s.history.born
    requires forall id :: id in s'.history.kinds ==> id in s.history.kinds || id == IdOf(a)
    requires IdOf(a) !in s.history.kinds ==> rid in s.history.born && s.history.born[rid] == IdOf(a)
    ensures KindsAnswered(s'.history, s'.answers)
  {
    forall id | id in s'.history.kinds ensures FirstAnswered(s'.history, s'.answers, id) {
      if id in s.history.kinds {
        var b :| b in s.answers && IdOf(b) == id && b.rid in s.history.born && s.history.born[b.rid] == id;
        assert b in s'.answers;
      } else {
        assert a in s'.answers;
      }
    }
  }

  lemma SavedMarks(s: State, s': State, rid: nat)
    requires MarksAbandoned(s) && s'.marks == s.marks && rid in s.requests && At(s, rid).Checked?
    requires s'.requests == s.requests[rid := At(s', rid)]
    requires
      var id := At(s, rid).work.Id();
      && (forall known :: known in s'.history.kinds ==> known in s.history.kinds || known == id)
      && forall m :: m in s.marks && !m.known ==> m.rid != rid && (id in s.history.kinds || m.preparationId != id)
    ensures MarksAbandoned(s')
  {
    forall m | m in s'.marks && !m.known ensures Abandoned(s', m) { assert Abandoned(s, m); }
  }

  lemma QuoteSavedRecord(chains: Chains, s: State, search: QuoteRequest, final: QuoteFinal, searchStart: nat, now: nat,
                     victim: Option<string>)
    requires OnTheRecord(s)
    ensures OnTheRecord(ApplySaveQuote(s, search, final, searchStart, now, victim))
  {
    hide Traced, Asked, AnswersTraced, Inserted, Evictable;
    PruneRecord(s, now);
    var s' := ApplySaveQuote(s, search, final, searchStart, now, victim);
    forall m | m in s'.marks && !m.known ensures Abandoned(s', m) { assert Abandoned(s, m); }
    forall id | id in s'.history.kinds ensures FirstAnswered(s'.history, s'.answers, id) {
      assert FirstAnswered(s.history, s.answers, id);
    }
  }

  // ---------- every step, every run ----------

  lemma ReceiveRecord(chains: Chains, s: State, rid: nat, request: PrepareRequest)
    requires Inv(chains, s) && OnTheRecord(s)
    ensures OnTheRecord(Apply(chains, s, Receive(rid, request)))
  {
    hide Inv, StoreTraced, AnswersTraced, KindsAnswered, MarksAbandoned, ValidRequest;
    MarkersArrived(chains, s);
    if rid !in s.requests {
      Moved(s, rid, if ValidRequest(request) then Arrived(request) else Stopped(Unspecified));
    }
  }

  // A step of one call that touches neither the store nor the record.
  lemma LocalRecord(chains: Chains, s: State, rid: nat, pc: Progress)
    requires Inv(chains, s) && OnTheRecord(s) && Traced(s.answers, rid, pc) && !At(s, rid).Stopped?
    requires (At(s, rid).AllowanceMarked? || At(s, rid).PermissionMarked?) && !At(s, rid).known ==> pc.Stopped?
    ensures OnTheRecord(Set(s, rid, pc))
  {
    hide Inv, OnTheRecord, Traced;
    MarkersArrived(chains, s);
    Moved(s, rid, pc);
  }

  lemma TracedAt(s: State, rid: nat)
    requires OnTheRecord(s)
    ensures Traced(s.answers, rid, At(s, rid))
  {
    hide StoreTraced, AnswersTraced, KindsAnswered, MarksAbandoned;
  }

  lemma LocalMoves(chains: Chains, s: State, step: Step)
    requires !step.SaveQuote? && Traced(s.answers, step.rid, At(s, step.rid)) && Apply(chains, s, step) != s
    requires step.DoSettle? || step.DoAllowance? || step.DoPermission? || step.DoConfirmApproval? || step.DoConfirmReady?
    ensures Traced(s.answers, step.rid, At(Apply(chains, s, step), step.rid))
  {
    hide Traced, SettleMark, BranchAllowance, BranchPermission, ConfirmApproval, ConfirmReady;
    var pc := At(s, step.rid);
    match step {
      case DoSettle(rid, now) => MarkMoves(s.answers, rid, pc, now);
      case DoAllowance(rid, required) => AllowanceMoves(chains, s.answers, rid, pc, required);
      case DoPermission(rid) => PermissionMoves(chains, s.answers, rid, pc);
      case DoConfirmApproval(rid, canonical, now) => ApprovalMoves(s.answers, rid, pc, canonical, now);
      case DoConfirmReady(rid, output, canonical, now) => ReadyMoves(s.answers, rid, pc, output, canonical, now);
    }
  }

  lemma ApplyRecord(chains: Chains, s: State, step: Step)
    requires Inv(chains, s) && OnTheRecord(s)
    ensures OnTheRecord(Apply(chains, s, step))
  {
    hide Inv, OnTheRecord, Traced, ApplySaveQuote, ApplyBuild, ApplyRead, ApplyMark, ApplySave, ValidRequest,
      BranchAllowance, BranchPermission, ConfirmApproval, ConfirmReady, Lookup, Pruned;
    match step {
      case SaveQuote(search, final, searchStart, now, victim) =>
        QuoteSavedRecord(chains, s, search, final, searchStart, now, victim);
      case Receive(rid, request) => ReceiveRecord(chains, s, rid, request);
      case DoLookup(rid, now) => if At(s, rid).Arrived? { LookupRecord(chains, s, rid, now); }
      case DoBuild(rid, input, reading, now) => BuildRecord(chains, s, rid, input, reading, now);
      case DoRead(rid, reading, now) => ReadRecord(chains, s, rid, reading, now);
      case DoMark(rid, now) => MarkRecord(chains, s, rid, now);
      case DoSave(rid, now, victim, handover) => SaveRecord(chains, s, rid, now, victim, handover);
      case _ =>
        TracedAt(s, step.rid);
        if Apply(chains, s, step) != s {
          LocalMoves(chains, s, step);
          LocalRecord(chains, s, step.rid, Apply(chains, s, step).requests[step.rid]);
        }
    }
  }

  lemma {:induction false} RunRecord(chains: Chains, steps: seq<Step>)
    ensures Inv(chains, Run(chains, steps)) && OnTheRecord(Run(chains, steps))
  {
    hide Inv, Apply;
    RunInv(chains, steps);
    if steps != [] {
      RunRecord(chains, steps[..|steps| - 1]);
      ApplyRecord(chains, Run(chains, steps[..|steps| - 1]), steps[|steps| - 1]);
    } else {
      assert MarksAbandoned(EMPTY);
    }
  }
}
