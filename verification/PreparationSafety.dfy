// What every interleaving of preparation requests keeps.
module PreparationSafety {
  import opened Messages
  import opened Retention
  import opened PreparationProtocol

  // Terms under an ID, read as a preparation that carries no approval fields.
  function Plain(f: Frozen, terms: Terms): Preparation {
    Preparation(f.plan, Response(Unspecified, "", terms, None, None, None, None, None, ""), f.chain, false)
  }

  // A response carries these terms, and any approval in it is the one they determine.
  predicate FieldsOk(chains: Chains, f: Frozen, terms: Terms, r: Response) {
    && r.terms == terms
    && (r.approvalSpender.Some? <==> r.approvalTransaction.Some?)
    && (r.approvalTransaction.Some? ==>
          r.approvalTransaction.value == ApprovalTransaction(chains, Plain(f, terms))
          && r.approvalSpender == Some(f.plan.spender))
    && (r.permission.Some? ==>
          f.plan.permission.Some? && r.permission.value == Permission(chains, Plain(f, terms), f.plan.permission.value))
  }

  predicate Matches(chains: Chains, f: Frozen, terms: Terms, p: Preparation, expires: nat) {
    && expires == f.expires && p.plan == f.plan && p.chain == f.chain
    && p.response.transaction.None?
    && FieldsOk(chains, f, terms, p.response)
  }

  // What the stored form of a preparation of a kind looks like.
  predicate StoredShape(k: Kind, p: Preparation) {
    && p.approval == (k != SwapKind)
    && (k == SwapKind ==> NoApproval(p.response))
    && (k == Erc20Kind ==> p.response.permission.None? && p.response.approvalTransaction.Some?)
    && (k == PermissionKind ==> p.response.permission.Some?)
  }

  // What every executable answer of a kind looks like.
  predicate AnswerShape(k: Kind, f: Frozen, r: Response) {
    match k
    case SwapKind => r.status == Ready && r.transaction == Some(f.plan.transaction) && NoApproval(r)
    case Erc20Kind =>
      r.status == ApprovalRequired && r.transaction.None? && r.approvalTransaction.Some? && r.permission.None?
    case PermissionKind => r.status == ApprovalRequired && r.transaction.None? && r.permission.Some?
  }

  // An entry whose ID has been answered at least once.
  predicate Known(chains: Chains, h: History, p: Preparation, expires: nat) {
    var id := p.response.terms.preparationId;
    && id in h.frozen && id in h.kinds && id in h.kept
    && Matches(chains, h.frozen[id], h.kept[id], p, expires) && StoredShape(h.kinds[id], p)
  }

  // The entry a first call is still building: its ID belongs to that call alone.
  predicate InFlight(chains: Chains, h: History, rid: nat, p: Preparation, expires: nat) {
    var id := p.response.terms.preparationId;
    && rid in h.born && h.born[rid] == id && id in h.frozen && id !in h.kinds
    && Matches(chains, h.frozen[id], h.frozen[id].terms, p, expires)
  }

  predicate WorkOk(chains: Chains, h: History, rid: nat, w: Work) {
    if w.recheck then rid !in h.born && Known(chains, h, w.p, w.expires)
    else
      && InFlight(chains, h, rid, w.p, w.expires) && w.quoteId == h.frozen[w.Id()].quoteId
      && w.quoteId in h.started && w.quoteExpires == h.started[w.quoteId] + RETENTION
  }

  // Before any approval is built the response is the prepared one, and a first call knows of an
  // earlier requirement exactly when the latch told it.
  predicate Unanswered(chains: Chains, h: History, rid: nat, w: Work) {
    && WorkOk(chains, h, rid, w)
    && w.response == w.p.response
    && (!w.recheck ==> NoApproval(w.response) && w.p.approval == (w.Id() in h.tainted))
  }

  function AnsweredKind(h: History, w: Work, answer: Response): Kind {
    if w.Id() in h.kinds then h.kinds[w.Id()] else KindOf(answer)
  }

  // The terms a first call answers with are the frozen ones, those of a recheck the saved ones.
  function TermsOf(h: History, first: bool, id: string): Terms
    requires id in h.frozen
  {
    if !first && id in h.kept then h.kept[id] else h.frozen[id].terms
  }

  predicate AnswerReady(chains: Chains, h: History, w: Work, answer: Response)
    requires w.Id() in h.frozen
  {
    && FieldsOk(chains, h.frozen[w.Id()], TermsOf(h, !w.recheck, w.Id()), answer)
    && AnswerShape(AnsweredKind(h, w, answer), h.frozen[w.Id()], answer)
  }

  // Not both an ERC-20 approval and a Permit2 permission.
  predicate OneAuthorization(r: Response) {
    r.approvalTransaction.None? || r.permission.None?
  }

  predicate LookedOk(chains: Chains, h: History, l: Progress)
    requires l.Looked?
  {
    && ValidRequest(l.request)
    && (l.request.preparationId == "" ==> l.prep.None? && l.quote.Some?)
    && (l.quote.Some? ==>
          && l.request.quoteId in h.started
          && l.now < l.quote.value.expires == h.started[l.request.quoteId] + RETENTION)
    && (l.prep.Some? ==>
          && Known(chains, h, l.prep.value.value, l.prep.value.expires)
          && l.prep.value.value.response.terms.preparationId == l.request.preparationId)
  }

  predicate BuiltOk(chains: Chains, h: History, rid: nat, w: Work) {
    && WorkOk(chains, h, rid, w) && AnswerReady(chains, h, w, w.response) && w.response.status == ApprovalRequired
    && (!w.recheck ==> OneAuthorization(w.response))
  }

  predicate CheckedOk(chains: Chains, h: History, rid: nat, w: Work, answer: Response, checkedAt: nat) {
    && WorkOk(chains, h, rid, w) && AnswerReady(chains, h, w, answer) && checkedAt < w.expires
    && StoredShape(AnsweredKind(h, w, answer), w.p)
    && (answer.status == Ready ==> w.Id() !in h.tainted)
    && (!w.recheck ==> OneAuthorization(answer))
  }

  // Between the allowance read and the decision what to answer.
  predicate Deciding(pc: Progress) {
    || pc.AllowanceRead? || pc.AllowanceMarked? || pc.AllowanceSettled?
    || pc.PermissionRead? || pc.PermissionMarked? || pc.PermissionSettled? || pc.Cleared?
  }

  // Only a first call marks.
  predicate Marking(pc: Progress) {
    pc.AllowanceRead? || pc.AllowanceMarked? || pc.PermissionRead? || pc.PermissionMarked?
  }

  predicate DecidingOk(chains: Chains, h: History, rid: nat, pc: Progress)
    requires Deciding(pc)
  {
    && Unanswered(chains, h, rid, pc.work)
    && (Marking(pc) ==> !pc.work.recheck)
    && (pc.AllowanceRead? ==> pc.work.Id() !in h.tainted)
  }

  predicate ProgressOk(chains: Chains, h: History, rid: nat, pc: Progress) {
    if Deciding(pc) then DecidingOk(chains, h, rid, pc)
    else match pc
      case Arrived(request) => rid !in h.born && ValidRequest(request)
      case Looked(_, _, _, _) => rid !in h.born && LookedOk(chains, h, pc)
      case ApprovalBuilt(w) => BuiltOk(chains, h, rid, w)
      case Checked(w, answer, checkedAt) => CheckedOk(chains, h, rid, w, answer, checkedAt)
      case Stopped(status) => status != Ready && status != ApprovalRequired
      case _ => true
  }

  // ---------- the invariant, part by part ----------

  predicate QuotesOk(h: History, quotes: Table<QuoteRecord>) {
    forall id :: id in quotes ==>
      id != "" && id in h.started && quotes[id].expires == h.started[id] + RETENTION
  }

  predicate LatchOk(h: History, quotes: Table<QuoteRecord>, marks: seq<Mark>) {
    && (forall m :: m in marks && m.known ==> m.quoteId in h.started)
    && (forall m :: m in marks && m.known && m.required && m.quoteId in quotes ==>
          m.key in quotes[m.quoteId].value.approvals)
    && (forall id, key :: id in quotes && key in quotes[id].value.approvals ==> Recorded(marks, id, key))
  }

  // Some call has recorded that the quote needs an approval under the key.
  predicate Recorded(marks: seq<Mark>, quoteId: string, key: Key) {
    exists i :: 0 <= i < |marks| && marks[i].known && marks[i].required
      && marks[i].quoteId == quoteId && marks[i].key == key
  }

  predicate StoredOk(chains: Chains, h: History, id: string, e: Entry<Preparation>) {
    Known(chains, h, e.value, e.expires) && e.value.response.terms.preparationId == id
  }

  predicate PreparationsOk(chains: Chains, h: History, preparations: Table<Preparation>) {
    forall id :: id in preparations ==> StoredOk(chains, h, id, preparations[id])
  }

  predicate HistoryOk(h: History) {
    && (forall id :: id in h.frozen ==>
          && id != "" && h.frozen[id].terms.preparationId == id && h.frozen[id].quoteId in h.started
          && h.frozen[id].expires < h.started[h.frozen[id].quoteId] + 2 * RETENTION)
    && (forall id :: id in h.kinds ==> id in h.frozen && (h.kinds[id] == SwapKind ==> id !in h.tainted))
    && (forall id :: id in h.kinds ==> id in h.kept)
    && (forall id :: id in h.kept ==> id in h.kinds && id in h.frozen && KeptOk(h.frozen[id], h.kinds[id], h.kept[id]))
    && (forall id :: id in h.tainted ==> id in h.frozen)
    && (forall rid :: rid in h.born ==> h.born[rid] in h.frozen)
    && (forall a, b :: a in h.born && b in h.born && h.born[a] == h.born[b] ==> a == b)
  }

  // A saved form differs from what was frozen at most in its selection, and only if it was ready.
  predicate KeptOk(f: Frozen, k: Kind, terms: Terms) {
    SameButSelection(terms, f.terms) && (k != SwapKind ==> terms == f.terms)
  }

  predicate Late(marks: seq<Mark>, i: nat, j: nat)
    requires i < j < |marks|
  {
    && marks[i].known && marks[i].required && marks[j].known
    && marks[i].quoteId == marks[j].quoteId && marks[i].key == marks[j].key
  }

  predicate MarksOk(h: History, marks: seq<Mark>) {
    && (forall m :: m in marks ==> m.rid in h.born && h.born[m.rid] == m.preparationId)
    && (forall i, j :: 0 <= i < j < |marks| && Late(marks, i, j) ==> marks[j].preparationId in h.tainted)
  }

  // The call of this preparation marked a key that was required before.
  predicate MarkedLate(marks: seq<Mark>, id: string) {
    exists i, j :: 0 <= i < j < |marks| && Late(marks, i, j) && marks[j].preparationId == id
  }

  predicate TaintOk(h: History, marks: seq<Mark>) {
    forall id :: id in h.tainted ==> MarkedLate(marks, id)
  }

  // Every call but the acting one is where it may be.
  predicate RequestsOk(chains: Chains, h: History, requests: map<nat, Progress>, actor: Option<nat>) {
    forall rid :: rid in requests && actor != Some(rid) ==> ProgressOk(chains, h, rid, requests[rid])
  }

  predicate BornOk(h: History, requests: map<nat, Progress>) {
    forall rid :: rid in h.born ==> rid in requests
  }

  predicate IssuedOk(chains: Chains, h: History, a: Issued) {
    var id := a.response.terms.preparationId;
    && id in h.frozen && id in h.kinds
    && id in h.kept
    && FieldsOk(chains, h.frozen[id], TermsOf(h, a.rid in h.born, id), a.response)
    && AnswerShape(h.kinds[id], h.frozen[id], a.response)
    && a.checkedAt < h.frozen[id].expires
    && (a.rid in h.born ==> h.born[a.rid] == id && OneAuthorization(a.response))
  }

  predicate AnswersOk(chains: Chains, h: History, requests: map<nat, Progress>, answers: seq<Issued>) {
    && (forall a :: a in answers ==> IssuedOk(chains, h, a))
    && (forall a :: a in answers ==> a.rid in requests && requests[a.rid].Answered?)
  }

  predicate Inv(chains: Chains, s: State) {
    && |s.store.quotes| <= STORE_LIMIT && |s.store.preparations| <= STORE_LIMIT
    && QuotesOk(s.history, s.store.quotes)
    && LatchOk(s.history, s.store.quotes, s.marks)
    && PreparationsOk(chains, s.history, s.store.preparations)
    && HistoryOk(s.history)
    && MarksOk(s.history, s.marks)
    && TaintOk(s.history, s.marks)
    && RequestsOk(chains, s.history, s.requests, None)
    && BornOk(s.history, s.requests)
    && AnswersOk(chains, s.history, s.requests, s.answers)
  }

  // ---------- how the history grows ----------

  // What the history gains concerns the acting call's own preparation.
  predicate Grows(h: History, h': History, actor: Option<nat>) {
    && (forall id :: id in h.started ==> id in h'.started && h'.started[id] == h.started[id])
    && (forall id :: id in h.frozen ==> id in h'.frozen && h'.frozen[id] == h.frozen[id])
    && (forall id :: id in h.kinds ==> id in h'.kinds && h'.kinds[id] == h.kinds[id])
    && (forall id :: id in h.kept ==> id in h'.kept && h'.kept[id] == h.kept[id])
    && (forall rid :: rid in h.born ==> rid in h'.born && h'.born[rid] == h.born[rid])
    && (forall rid :: rid in h'.born ==> rid in h.born || actor == Some(rid))
    && (forall id :: id in h.tainted ==> id in h'.tainted)
    && (forall id :: id in h'.kinds ==> id in h.kinds || Owns(h', actor, id))
    && (forall id :: id in h'.tainted ==> id in h.tainted || Owns(h', actor, id))
    && (forall a, b :: a in h'.born && b in h'.born && h'.born[a] == h'.born[b] ==> a == b)
  }

  predicate Owns(h: History, actor: Option<nat>, id: string) {
    actor.Some? && actor.value in h.born && h.born[actor.value] == id
  }

  lemma KnownKeeps(chains: Chains, h: History, h': History, actor: Option<nat>, p: Preparation, expires: nat)
    requires Known(chains, h, p, expires) && Grows(h, h', actor)
    ensures Known(chains, h', p, expires)
  {}

  lemma WorkKeeps(chains: Chains, h: History, h': History, actor: Option<nat>, rid: nat, w: Work)
    requires WorkOk(chains, h, rid, w) && Grows(h, h', actor) && actor != Some(rid)
    ensures WorkOk(chains, h', rid, w)
    ensures w.Id() in h'.frozen && h'.frozen[w.Id()] == h.frozen[w.Id()]
    ensures w.Id() in h'.kinds <==> w.Id() in h.kinds
    ensures w.Id() in h.kinds ==> h'.kinds[w.Id()] == h.kinds[w.Id()]
    ensures !w.recheck ==> (w.Id() in h'.tainted <==> w.Id() in h.tainted)
    ensures w.recheck ==> w.Id() in h.kinds
    ensures w.Id() in h.frozen && TermsOf(h', !w.recheck, w.Id()) == TermsOf(h, !w.recheck, w.Id())
  {
    hide FieldsOk, StoredShape;
  }

  lemma DecidingKeeps(chains: Chains, h: History, h': History, actor: Option<nat>, rid: nat, pc: Progress)
    requires Deciding(pc) && DecidingOk(chains, h, rid, pc) && Grows(h, h', actor) && actor != Some(rid)
    ensures DecidingOk(chains, h', rid, pc)
  {
    WorkKeeps(chains, h, h', actor, rid, pc.work);
  }

  lemma BuiltKeeps(chains: Chains, h: History, h': History, actor: Option<nat>, rid: nat, w: Work)
    requires BuiltOk(chains, h, rid, w) && Grows(h, h', actor) && actor != Some(rid)
    ensures BuiltOk(chains, h', rid, w)
  {
    WorkKeeps(chains, h, h', actor, rid, w);
  }

  lemma CheckedKeeps(chains: Chains, h: History, h': History, actor: Option<nat>, rid: nat, w: Work, answer: Response,
                     checkedAt: nat)
    requires CheckedOk(chains, h, rid, w, answer, checkedAt) && Grows(h, h', actor) && actor != Some(rid)
    requires HistoryOk(h')
    ensures CheckedOk(chains, h', rid, w, answer, checkedAt)
  {
    hide WorkOk, Grows, FieldsOk, StoredShape, OneAuthorization, TermsOf, KeptOk;
    WorkKeeps(chains, h, h', actor, rid, w);
  }

  lemma LookedKeeps(chains: Chains, h: History, h': History, actor: Option<nat>, l: Progress)
    requires l.Looked? && LookedOk(chains, h, l) && Grows(h, h', actor)
    ensures LookedOk(chains, h', l)
  {
    if l.prep.Some? { KnownKeeps(chains, h, h', actor, l.prep.value.value, l.prep.value.expires); }
  }

  lemma ProgressKeeps(chains: Chains, h: History, h': History, actor: Option<nat>, rid: nat, pc: Progress)
    requires ProgressOk(chains, h, rid, pc) && Grows(h, h', actor) && actor != Some(rid)
    requires HistoryOk(h')
    ensures ProgressOk(chains, h', rid, pc)
  {
    if Deciding(pc) { DecidingKeeps(chains, h, h', actor, rid, pc); }
    else if pc.Looked? { LookedKeeps(chains, h, h', actor, pc); }
    else if pc.ApprovalBuilt? { BuiltKeeps(chains, h, h', actor, rid, pc.work); }
    else if pc.Checked? { CheckedKeeps(chains, h, h', actor, rid, pc.work, pc.answer, pc.checkedAt); }
  }

  lemma IssuedKeeps(chains: Chains, h: History, h': History, actor: Option<nat>, a: Issued)
    requires IssuedOk(chains, h, a) && Grows(h, h', actor) && actor != Some(a.rid)
    ensures IssuedOk(chains, h', a)
  {}

  // Everything the other calls and the store rely on survives a growing history.
  lemma GrowthKeeps(chains: Chains, s: State, h': History, actor: Option<nat>)
    requires Inv(chains, s) && Grows(s.history, h', actor) && HistoryOk(h')
    requires actor.Some? ==> actor.value in s.requests && !s.requests[actor.value].Answered?
    ensures PreparationsOk(chains, h', s.store.preparations)
    ensures RequestsOk(chains, h', s.requests, actor) && BornOk(h', s.requests)
    ensures AnswersOk(chains, h', s.requests, s.answers)
    ensures QuotesOk(h', s.store.quotes) && LatchOk(h', s.store.quotes, s.marks) && MarksOk(h', s.marks)
    ensures h'.tainted == s.history.tainted ==> TaintOk(h', s.marks)
  {
    forall id | id in s.store.preparations ensures StoredOk(chains, h', id, s.store.preparations[id]) {
      assert StoredOk(chains, s.history, id, s.store.preparations[id]);
      KnownKeeps(chains, s.history, h', actor, s.store.preparations[id].value, s.store.preparations[id].expires);
    }
    forall rid | rid in s.requests && actor != Some(rid) ensures ProgressOk(chains, h', rid, s.requests[rid]) {
      ProgressKeeps(chains, s.history, h', actor, rid, s.requests[rid]);
    }
    forall a | a in s.answers ensures IssuedOk(chains, h', a) {
      IssuedKeeps(chains, s.history, h', actor, a);
    }
  }

  // The acting call moves on.
  lemma Resume(chains: Chains, h: History, requests: map<nat, Progress>, answers: seq<Issued>, rid: nat, pc: Progress)
    requires RequestsOk(chains, h, requests, Some(rid)) && BornOk(h, requests) && ProgressOk(chains, h, rid, pc)
    requires AnswersOk(chains, h, requests, answers) && (rid in requests ==> !requests[rid].Answered?)
    ensures RequestsOk(chains, h, requests[rid := pc], None) && BornOk(h, requests[rid := pc])
    ensures AnswersOk(chains, h, requests[rid := pc], answers)
  {
    hide ProgressOk, IssuedOk;
  }

  // ---------- the steps ----------

  // A call that moves forward and leaves store, history and answers alone.
  lemma LocalStep(chains: Chains, s: State, rid: nat, pc: Progress)
    requires Inv(chains, s) && ProgressOk(chains, s.history, rid, pc)
    requires rid in s.requests ==> !s.requests[rid].Answered?
    ensures Inv(chains, Set(s, rid, pc))
  {
    hide ProgressOk, PreparationsOk, HistoryOk, LatchOk, QuotesOk, MarksOk, TaintOk, AnswersOk, BornOk;
    Resume(chains, s.history, s.requests, s.answers, rid, pc);
  }

  lemma PruneStep(chains: Chains, s: State, now: nat)
    requires Inv(chains, s)
    ensures Inv(chains, s.(store := Pruned(s.store, now)))
  {
    hide StoredOk, HistoryOk, MarksOk, TaintOk, RequestsOk, AnswersOk;
    LiveSize(s.store.quotes, now);
    LiveSize(s.store.preparations, now);
  }

  // A quote ID that was never used before: nothing was latched under it.
  lemma QuoteInserted(h: History, quotes: Table<QuoteRecord>, marks: seq<Mark>, id: string, record: QuoteRecord,
                      searchStart: nat, victim: Option<string>)
    requires HistoryOk(h) && QuotesOk(h, quotes) && LatchOk(h, quotes, marks) && id != "" && id !in h.started
    requires record.approvals == {}
    ensures
      var h' := h.(started := h.started[id := searchStart]);
      var quotes' := Inserted(quotes, id, Entry(record, searchStart + RETENTION), victim);
      HistoryOk(h') && Grows(h, h', None) && QuotesOk(h', quotes') && LatchOk(h', quotes', marks)
  {
    hide HistoryOk, QuotesOk, LatchOk, Grows, Inserted;
    SearchRecorded(h, id, searchStart);
    QuoteKept(h, quotes, id, record, searchStart, victim);
    LatchesKept(h, quotes, marks, id, record, searchStart, victim);
  }

  lemma SearchRecorded(h: History, id: string, searchStart: nat)
    requires HistoryOk(h) && id !in h.started
    ensures var h' := h.(started := h.started[id := searchStart]); HistoryOk(h') && Grows(h, h', None)
  {
    hide KeptOk;
  }

  lemma QuoteKept(h: History, quotes: Table<QuoteRecord>, id: string, record: QuoteRecord, searchStart: nat,
                  victim: Option<string>)
    requires QuotesOk(h, quotes) && id != "" && id !in h.started && record.approvals == {}
    ensures QuotesOk(h.(started := h.started[id := searchStart]),
                     Inserted(quotes, id, Entry(record, searchStart + RETENTION), victim))
  {}

  lemma LatchesKept(h: History, quotes: Table<QuoteRecord>, marks: seq<Mark>, id: string, record: QuoteRecord,
                    searchStart: nat, victim: Option<string>)
    requires QuotesOk(h, quotes) && LatchOk(h, quotes, marks) && id !in h.started && record.approvals == {}
    ensures LatchOk(h.(started := h.started[id := searchStart]),
                    Inserted(quotes, id, Entry(record, searchStart + RETENTION), victim), marks)
  {
    hide Recorded;
  }

  lemma SaveQuoteStep(chains: Chains, s: State, search: QuoteRequest, final: QuoteFinal, searchStart: nat, now: nat,
                      victim: Option<string>)
    requires Inv(chains, s)
    ensures Inv(chains, ApplySaveQuote(s, search, final, searchStart, now, victim))
  {
    hide HistoryOk, Grows, QuotesOk, LatchOk, MarksOk, TaintOk, PreparationsOk, RequestsOk, BornOk, AnswersOk, Live, Inserted,
      Evictable;
    var s' := ApplySaveQuote(s, search, final, searchStart, now, victim);
    if s' != s {
      PruneStep(chains, s, now);
      var live := Pruned(s.store, now);
      var record := QuoteRecord(search, final, {});
      InsertedFacts(live.quotes, final.quoteId, Entry(record, searchStart + RETENTION), victim);
      QuoteInserted(s.history, live.quotes, s.marks, final.quoteId, record, searchStart, victim);
      GrowthKeeps(chains, s.(store := live), s'.history, None);
    }
  }

  lemma LookupOk(chains: Chains, h: History, store: StoreState, rid: nat, request: PrepareRequest, now: nat)
    requires QuotesOk(h, store.quotes) && PreparationsOk(chains, h, store.preparations)
    requires rid !in h.born && ValidRequest(request)
    requires forall id :: id in store.quotes ==> now < store.quotes[id].expires
    requires "" !in store.preparations
    ensures ProgressOk(chains, h, rid, Lookup(request, now, store))
  {
    if request.preparationId in store.preparations {
      assert StoredOk(chains, h, request.preparationId, store.preparations[request.preparationId]);
    }
  }

  lemma NoEmptyId(chains: Chains, h: History, preparations: Table<Preparation>)
    requires HistoryOk(h) && PreparationsOk(chains, h, preparations)
    ensures "" !in preparations
  {
    forall id | id in preparations ensures id != "" {
      assert StoredOk(chains, h, id, preparations[id]);
    }
  }

  lemma LookupStep(chains: Chains, s: State, rid: nat, now: nat)
    requires Inv(chains, s) && At(s, rid).Arrived?
    ensures Inv(chains, Apply(chains, s, DoLookup(rid, now)))
  {
    hide HistoryOk, QuotesOk, LatchOk, MarksOk, TaintOk, PreparationsOk, BornOk, AnswersOk, LookedOk, DecidingOk, Lookup;
    PruneStep(chains, s, now);
    var s' := s.(store := Pruned(s.store, now));
    NoEmptyId(chains, s.history, s'.store.preparations);
    LookupOk(chains, s.history, s'.store, rid, At(s, rid).request, now);
    LocalStep(chains, s', rid, Lookup(At(s, rid).request, now, s'.store));
  }

  lemma AdmitFirst(chains: Chains, h: History, rid: nat, quoteId: string, quoteExpires: nat, p: Preparation, expires: nat,
                   snapshot: Snapshot, reading: Reading, now: nat)
    requires InFlight(chains, h, rid, p, expires) && NoApproval(p.response) && !p.approval
    requires p.response.terms.preparationId !in h.tainted && h.frozen[p.response.terms.preparationId].quoteId == quoteId
    requires quoteId in h.started && quoteExpires == h.started[quoteId] + RETENTION
    ensures ProgressOk(chains, h, rid, Admit(false, quoteId, quoteExpires, p, expires, snapshot, reading, now))
  {}

  lemma AdmitRecheck(chains: Chains, h: History, rid: nat, p: Preparation, expires: nat, snapshot: Snapshot,
                     reading: Reading, now: nat)
    requires rid !in h.born && Known(chains, h, p, expires)
    ensures ProgressOk(chains, h, rid, Admit(true, "", 0, p, expires, snapshot, reading, now))
  {}

  // A build under a fresh ID.
  lemma BuildGrows(chains: Chains, h: History, rid: nat, l: Progress, p: Preparation)
    requires HistoryOk(h) && l.Looked? && l.quote.Some? && rid !in h.born && LookedOk(chains, h, l)
    requires p.response.terms.preparationId != "" && p.response.terms.preparationId !in h.frozen
    requires NoApproval(p.response) && p.response.transaction.None?
    ensures
      var id := p.response.terms.preparationId;
      var f := Frozen(l.request.quoteId, p.chain, p.plan, p.response.terms, l.now + RETENTION);
      var h' := h.(frozen := h.frozen[id := f], born := h.born[rid := id]);
      && HistoryOk(h') && Grows(h, h', Some(rid)) && id !in h'.tainted && id in h'.frozen && h'.frozen[id] == f
      && InFlight(chains, h', rid, p, l.now + RETENTION)
  {
    hide KeptOk, LookedOk, InFlight;
    assert h.started[l.request.quoteId] + 2 * RETENTION > l.now + RETENTION && l.request.quoteId in h.started by {
      LookedInTime(chains, h, l);
    }
    BuildInFlight(chains, h, rid, l, p);
  }

  lemma LookedInTime(chains: Chains, h: History, l: Progress)
    requires l.Looked? && l.quote.Some? && LookedOk(chains, h, l)
    ensures l.request.quoteId in h.started && l.quote.value.expires == h.started[l.request.quoteId] + RETENTION
    ensures l.now < l.quote.value.expires
  {
    hide Known;
  }

  lemma BuildInFlight(chains: Chains, h: History, rid: nat, l: Progress, p: Preparation)
    requires HistoryOk(h) && l.Looked?
    requires p.response.terms.preparationId !in h.frozen && NoApproval(p.response) && p.response.transaction.None?
    ensures
      var id := p.response.terms.preparationId;
      var f := Frozen(l.request.quoteId, p.chain, p.plan, p.response.terms, l.now + RETENTION);
      InFlight(chains, h.(frozen := h.frozen[id := f], born := h.born[rid := id]), rid, p, l.now + RETENTION)
  {
    hide KeptOk;
  }

  lemma BuildStep(chains: Chains, s: State, rid: nat, input: BuildInput, reading: Reading, now: nat)
    requires Inv(chains, s)
    ensures Inv(chains, ApplyBuild(chains, s, rid, input, reading, now))
  {
    hide HistoryOk, Grows, QuotesOk, LatchOk, MarksOk, TaintOk, PreparationsOk, BornOk, AnswersOk, LookedOk, DecidingOk, Admit,
      InFlight;
    var s' := ApplyBuild(chains, s, rid, input, reading, now);
    var l := At(s, rid);
    if s' != s {
      assert ProgressOk(chains, s.history, rid, l);
      if s'.history == s.history {
        LocalStep(chains, s, rid, s'.requests[rid]);
      } else {
        var p := Built(l, input, reading.snapshot.value).value;
        BuildGrows(chains, s.history, rid, l, p);
        LookedInTime(chains, s.history, l);
        GrowthKeeps(chains, s, s'.history, Some(rid));
        AdmitFirst(chains, s'.history, rid, l.request.quoteId, l.quote.value.expires, p, l.now + RETENTION,
                   reading.snapshot.value, reading, now);
        Resume(chains, s'.history, s.requests, s.answers, rid, s'.requests[rid]);
      }
    }
  }

  lemma ReadStep(chains: Chains, s: State, rid: nat, reading: Reading, now: nat)
    requires Inv(chains, s)
    ensures Inv(chains, ApplyRead(chains, s, rid, reading, now))
  {
    hide HistoryOk, QuotesOk, LatchOk, MarksOk, TaintOk, PreparationsOk, BornOk, AnswersOk, DecidingOk, Admit, Known;
    var s' := ApplyRead(chains, s, rid, reading, now);
    if s' != s {
      if UsableSnapshot(chains, At(s, rid), reading) {
        AdmitRecheck(chains, s.history, rid, At(s, rid).prep.value.value, At(s, rid).prep.value.expires,
                     reading.snapshot.value, reading, now);
      }
      LocalStep(chains, s, rid, s'.requests[rid]);
    }
  }

  // The latch: a mark taints the marking call's own preparation if the key was required before.
  // A call's own, unanswered preparation.
  predicate Unclassified(h: History, rid: nat, id: string) {
    rid in h.born && h.born[rid] == id && id in h.frozen && id !in h.kinds
  }

  lemma FirstWorkIsUnclassified(chains: Chains, h: History, rid: nat, w: Work)
    requires !w.recheck && WorkOk(chains, h, rid, w)
    ensures Unclassified(h, rid, w.Id())
  {
    hide Matches;
  }

  lemma TaintGrows(h: History, rid: nat, id: string)
    requires HistoryOk(h) && Unclassified(h, rid, id)
    ensures var h' := h.(tainted := h.tainted + {id}); HistoryOk(h') && Grows(h, h', Some(rid))
  {
    hide KeptOk;
  }

  lemma NothingGrows(h: History, rid: nat)
    requires HistoryOk(h)
    ensures Grows(h, h, Some(rid))
  {}

  lemma MarkGrows(chains: Chains, s: State, rid: nat, w: Work, key: Key, required: bool, now: nat)
    requires HistoryOk(s.history) && !w.recheck && WorkOk(chains, s.history, rid, w)
    ensures Grows(s.history, Marked(s, rid, w, key, required, now).0.history, Some(rid))
    ensures HistoryOk(Marked(s, rid, w, key, required, now).0.history)
  {
    hide WorkOk, HistoryOk, Grows, Live, Latched, Unclassified;
    FirstWorkIsUnclassified(chains, s.history, rid, w);
    TaintGrows(s.history, rid, w.Id());
    NothingGrows(s.history, rid);
  }

  lemma LatchStep(chains: Chains, s: State, rid: nat, w: Work, key: Key, required: bool, now: nat)
    requires HistoryOk(s.history) && QuotesOk(s.history, s.store.quotes) && LatchOk(s.history, s.store.quotes, s.marks)
    requires !w.recheck && WorkOk(chains, s.history, rid, w)
    ensures
      var s' := Marked(s, rid, w, key, required, now).0;
      LatchOk(s'.history, s'.store.quotes, s'.marks) && QuotesOk(s'.history, s'.store.quotes)
  {
    hide FieldsOk, AnswerShape, StoredShape, Matches;
    var s' := Marked(s, rid, w, key, required, now).0;
    RecordedStays(s.marks, s'.marks[|s.marks|]);
    assert w.quoteId in s.history.started;
    forall m | m in s'.marks && m.known && m.required && m.quoteId in s'.store.quotes
      ensures m.key in s'.store.quotes[m.quoteId].value.approvals {
      assert m.quoteId in s.store.quotes;
      if m in s.marks {
        assert m.key in s.store.quotes[m.quoteId].value.approvals;
      }
    }
    forall id, k | id in s'.store.quotes && k in s'.store.quotes[id].value.approvals ensures Recorded(s'.marks, id, k) {
      assert id in s.store.quotes;
      if k in s.store.quotes[id].value.approvals {
        assert Recorded(s.marks, id, k);
      } else {
        assert s'.marks[|s.marks|].key == k;
      }
    }
  }

  lemma RecordedStays(marks: seq<Mark>, m: Mark)
    ensures forall id, key :: Recorded(marks, id, key) ==> Recorded(marks + [m], id, key)
  {
    forall id, key | Recorded(marks, id, key) ensures Recorded(marks + [m], id, key) {
      var i :| 0 <= i < |marks| && marks[i].known && marks[i].required && marks[i].quoteId == id && marks[i].key == key;
      assert (marks + [m])[i] == marks[i];
    }
  }

  lemma MarkedLateStays(marks: seq<Mark>, m: Mark)
    ensures forall id :: MarkedLate(marks, id) ==> MarkedLate(marks + [m], id)
  {
    forall id | MarkedLate(marks, id) ensures MarkedLate(marks + [m], id) {
      var i, j :| 0 <= i < j < |marks| && Late(marks, i, j) && marks[j].preparationId == id;
      assert Late(marks + [m], i, j);
    }
  }

  lemma TaintStep(chains: Chains, s: State, rid: nat, w: Work, key: Key, required: bool, now: nat)
    requires MarksOk(s.history, s.marks) && TaintOk(s.history, s.marks) && LatchOk(s.history, s.store.quotes, s.marks)
    requires !w.recheck && WorkOk(chains, s.history, rid, w)
    ensures
      var s' := Marked(s, rid, w, key, required, now).0;
      MarksOk(s'.history, s'.marks) && TaintOk(s'.history, s'.marks)
  {
    hide FieldsOk, AnswerShape, StoredShape, Matches;
    var s' := Marked(s, rid, w, key, required, now).0;
    forall i, j | 0 <= i < j < |s'.marks| && Late(s'.marks, i, j) ensures s'.marks[j].preparationId in s'.history.tainted {
      assert s'.marks[i] == s.marks[i] && s.marks[i] in s.marks;
      if j < |s.marks| { assert Late(s.marks, i, j); }
    }
    MarkedLateStays(s.marks, s'.marks[|s.marks|]);
    if s'.history != s.history {
      assert Recorded(s.marks, w.quoteId, key);
      var i :| 0 <= i < |s.marks| && s.marks[i].known && s.marks[i].required
        && s.marks[i].quoteId == w.quoteId && s.marks[i].key == key;
      assert Late(s'.marks, i, |s.marks|) && s'.marks[|s.marks|].preparationId == w.Id();
    }
  }

  // Latching a key changes neither the number of quotes nor their lifetimes.
  lemma MarkedSize(s: State, rid: nat, w: Work, key: Key, required: bool, now: nat)
    requires |s.store.quotes| <= STORE_LIMIT
    ensures |Marked(s, rid, w, key, required, now).0.store.quotes| <= STORE_LIMIT
    ensures Marked(s, rid, w, key, required, now).0.store.preparations == Live(s.store.preparations, now)
  {
    LiveSize(s.store.quotes, now);
    var live, after := Live(s.store.quotes, now), Marked(s, rid, w, key, required, now).0.store.quotes;
    assert after.Keys == live.Keys;
    assert |after| == |after.Keys| && |live| == |live.Keys|;
  }

  lemma MarkedKeeps(chains: Chains, s: State, rid: nat, w: Work, key: Key, required: bool, now: nat, pc: Progress)
    requires Inv(chains, s) && rid in s.requests && !s.requests[rid].Answered?
    requires !w.recheck && WorkOk(chains, s.history, rid, w)
    requires ProgressOk(chains, Marked(s, rid, w, key, required, now).0.history, rid, pc)
    ensures Inv(chains, Set(Marked(s, rid, w, key, required, now).0, rid, pc))
  {
    hide HistoryOk, Grows, QuotesOk, LatchOk, MarksOk, TaintOk, PreparationsOk, BornOk, RequestsOk, AnswersOk, ProgressOk, WorkOk,
      Live, Latched;
    var s' := Marked(s, rid, w, key, required, now).0;
    PruneStep(chains, s, now);
    var pruned := s.(store := Pruned(s.store, now));
    MarkGrows(chains, s, rid, w, key, required, now);
    GrowthKeeps(chains, pruned, s'.history, Some(rid));
    LatchStep(chains, s, rid, w, key, required, now);
    TaintStep(chains, s, rid, w, key, required, now);
    MarkedSize(s, rid, w, key, required, now);
    Resume(chains, s'.history, s.requests, s.answers, rid, pc);
  }

  lemma AllowanceMarkOk(chains: Chains, s: State, rid: nat, w: Work, now: nat)
    requires ProgressOk(chains, s.history, rid, AllowanceRead(w))
    ensures
      var r := Marked(s, rid, w, AllowanceKey(w.p), w.short, now);
      ProgressOk(chains, r.0.history, rid, AllowanceMarked(w.(p := w.p.(approval := r.1)), r.2))
  {}

  lemma PermissionMarkOk(chains: Chains, s: State, rid: nat, w: Work, required: bool, key: Key, now: nat)
    requires ProgressOk(chains, s.history, rid, PermissionRead(w, required))
    ensures
      var r := Marked(s, rid, w, key, required, now);
      ProgressOk(chains, r.0.history, rid,
                 PermissionMarked(w.(p := w.p.(approval := w.p.approval || r.1)), required, r.2))
  {}

  lemma MarkStep(chains: Chains, s: State, rid: nat, now: nat)
    requires Inv(chains, s)
    ensures Inv(chains, ApplyMark(s, rid, now))
  {
    hide HistoryOk, QuotesOk, LatchOk, MarksOk, TaintOk, PreparationsOk, BornOk, AnswersOk, WorkOk, Marked;
    var pc := At(s, rid);
    if pc.AllowanceRead? {
      var w := pc.work;
      var r := Marked(s, rid, w, AllowanceKey(w.p), w.short, now);
      AllowanceMarkOk(chains, s, rid, w, now);
      MarkedKeeps(chains, s, rid, w, AllowanceKey(w.p), w.short, now,
                  AllowanceMarked(w.(p := w.p.(approval := r.1)), r.2));
    } else if pc.PermissionRead? && pc.work.p.plan.permission.Some? {
      var w := pc.work;
      var key := PermissionKey(w.p, w.p.plan.permission.value);
      var r := Marked(s, rid, w, key, pc.required, now);
      PermissionMarkOk(chains, s, rid, w, pc.required, key, now);
      MarkedKeeps(chains, s, rid, w, key, pc.required, now,
                  PermissionMarked(w.(p := w.p.(approval := w.p.approval || r.1)), pc.required, r.2));
    }
  }

  lemma SettleOk(chains: Chains, h: History, rid: nat, pc: Progress, now: nat)
    requires (pc.AllowanceMarked? || pc.PermissionMarked?) && ProgressOk(chains, h, rid, pc)
    ensures ProgressOk(chains, h, rid, SettleMark(pc, now))
  {}

  // The ERC-20 approval a call may answer with.
  lemma Erc20Ok(chains: Chains, h: History, rid: nat, w: Work)
    requires Unanswered(chains, h, rid, w) && (w.recheck ==> w.p.approval)
    ensures BuiltOk(chains, h, rid, w.(response := Erc20Answer(chains, w)))
  {}

  lemma AllowanceOk(chains: Chains, h: History, rid: nat, pc: Progress, permissionRequired: Option<bool>)
    requires pc.AllowanceSettled? && ProgressOk(chains, h, rid, pc)
    ensures ProgressOk(chains, h, rid, BranchAllowance(chains, pc.work, permissionRequired))
  {
    hide BuiltOk, Unanswered, Erc20Answer;
    if pc.work.short && (pc.work.recheck ==> pc.work.p.approval) { Erc20Ok(chains, h, rid, pc.work); }
  }

  // The Permit2 permission a call may answer with: never after an ERC-20 approval came first.
  lemma PermitOk(chains: Chains, h: History, rid: nat, w: Work)
    requires Unanswered(chains, h, rid, w) && w.p.plan.permission.Some?
    requires if w.recheck then w.p.approval && (w.p.response.approvalTransaction.Some? ==> w.p.response.permission.Some?)
             else !w.p.approval
    ensures BuiltOk(chains, h, rid, w.(response := PermissionAnswer(chains, w, w.p.plan.permission.value)))
  {}

  lemma PermissionOk(chains: Chains, h: History, rid: nat, pc: Progress)
    requires pc.PermissionSettled? && ProgressOk(chains, h, rid, pc)
    ensures ProgressOk(chains, h, rid, BranchPermission(chains, pc.work, pc.required))
  {
    hide BuiltOk, Unanswered, PermissionAnswer;
    if BranchPermission(chains, pc.work, pc.required).ApprovalBuilt? { PermitOk(chains, h, rid, pc.work); }
  }

  lemma ConfirmApprovalOk(chains: Chains, h: History, rid: nat, pc: Progress, canonical: bool, now: nat)
    requires pc.ApprovalBuilt? && ProgressOk(chains, h, rid, pc)
    ensures ProgressOk(chains, h, rid, ConfirmApproval(pc.work, canonical, now))
  {
    hide ApprovalTransaction, Permission;
  }

  lemma ReadyOk(chains: Chains, h: History, rid: nat, w: Work, output: string, now: nat)
    requires HistoryOk(h) && Unanswered(chains, h, rid, w) && !w.p.approval && now < w.expires
    ensures CheckedOk(chains, h, rid, w, ReadyAnswer(w, output), now)
  {}

  lemma ConfirmReadyOk(chains: Chains, h: History, rid: nat, pc: Progress, output: Option<string>, canonical: bool, now: nat)
    requires HistoryOk(h) && pc.Cleared? && ProgressOk(chains, h, rid, pc)
    ensures ProgressOk(chains, h, rid, ConfirmReady(pc.work, output, canonical, now))
  {
    hide HistoryOk, Unanswered, CheckedOk, ReadyAnswer;
    if ConfirmReady(pc.work, output, canonical, now).Checked? { ReadyOk(chains, h, rid, pc.work, output.value, now); }
  }

  // The first save fixes the kind of a preparation; a later one is of the same kind.
  function Classified(h: History, id: string, answer: Response, terms: Terms): History {
    if id in h.kinds then h else h.(kinds := h.kinds[id := KindOf(answer)], kept := h.kept[id := terms])
  }

  lemma ClassifiedGrows(chains: Chains, h: History, rid: nat, w: Work, answer: Response, checkedAt: nat, handover: Handover)
    requires HistoryOk(h) && CheckedOk(chains, h, rid, w, answer, checkedAt)
    ensures
      var h' := Classified(h, w.Id(), answer, SavedForm(w, answer, handover).response.terms);
      HistoryOk(h') && Grows(h, h', Some(rid))
  {
    hide WorkOk, HistoryOk, Grows, AnswerReady, StoredShape, OneAuthorization, Unclassified, KindOf;
    NothingGrows(h, rid);
    if w.Id() !in h.kinds {
      FirstAnswerIsFirst(chains, h, rid, w, answer, checkedAt);
      SavedTermsAreFrozen(chains, h, rid, w, answer, checkedAt, handover);
      KindGrows(h, rid, w.Id(), KindOf(answer), SavedForm(w, answer, handover).response.terms);
    }
  }

  lemma FirstAnswerIsFirst(chains: Chains, h: History, rid: nat, w: Work, answer: Response, checkedAt: nat)
    requires CheckedOk(chains, h, rid, w, answer, checkedAt) && w.Id() !in h.kinds
    ensures Unclassified(h, rid, w.Id())
    ensures KindOf(answer) == SwapKind ==> w.Id() !in h.tainted
  {
    hide Matches, FieldsOk, AnswerShape, StoredShape, NoApproval;
  }

  // The first form saved is the frozen one, but for the selection of a ready one.
  lemma SavedTermsAreFrozen(
      chains: Chains, h: History, rid: nat, w: Work, answer: Response, checkedAt: nat, handover: Handover)
    requires CheckedOk(chains, h, rid, w, answer, checkedAt) && w.Id() !in h.kinds
    ensures KeptOk(h.frozen[w.Id()], KindOf(answer), SavedForm(w, answer, handover).response.terms)
  {
    hide StoredShape, ApprovalTransaction, Permission;
  }

  lemma KindGrows(h: History, rid: nat, id: string, kind: Kind, terms: Terms)
    requires HistoryOk(h) && Unclassified(h, rid, id) && (kind == SwapKind ==> id !in h.tainted)
    requires KeptOk(h.frozen[id], kind, terms)
    ensures
      var h' := h.(kinds := h.kinds[id := kind], kept := h.kept[id := terms]);
      HistoryOk(h') && Grows(h, h', Some(rid))
  {
    hide KeptOk, HistoryOk, Grows, Unclassified;
    KindFits(h, rid, id, kind, terms);
    KindAdds(h, rid, id, kind, terms);
  }

  lemma KindAdds(h: History, rid: nat, id: string, kind: Kind, terms: Terms)
    requires HistoryOk(h) && Unclassified(h, rid, id)
    ensures Grows(h, h.(kinds := h.kinds[id := kind], kept := h.kept[id := terms]), Some(rid))
  {
    hide KeptOk;
  }

  lemma KindFits(h: History, rid: nat, id: string, kind: Kind, terms: Terms)
    requires HistoryOk(h) && Unclassified(h, rid, id) && (kind == SwapKind ==> id !in h.tainted)
    requires KeptOk(h.frozen[id], kind, terms)
    ensures HistoryOk(h.(kinds := h.kinds[id := kind], kept := h.kept[id := terms]))
  {
    hide KeptOk;
  }

  lemma SavedOk(chains: Chains, h: History, rid: nat, w: Work, answer: Response, checkedAt: nat, handover: Handover)
    requires HistoryOk(h) && CheckedOk(chains, h, rid, w, answer, checkedAt)
    ensures
      var form := SavedForm(w, answer, handover);
      var h' := Classified(h, w.Id(), answer, form.response.terms);
      && StoredOk(chains, h', w.Id(), Entry(form, w.expires))
      && IssuedOk(chains, h', Issued(rid, answer, checkedAt, w.short))
  {
    hide ApprovalTransaction, Permission;
    assert answer.terms == TermsOf(h, !w.recheck, w.Id());
  }

  lemma PreparationInserted(chains: Chains, h: History, preparations: Table<Preparation>, id: string, e: Entry<Preparation>,
                            victim: Option<string>)
    requires PreparationsOk(chains, h, preparations) && StoredOk(chains, h, id, e)
    ensures PreparationsOk(chains, h, Inserted(preparations, id, e, victim))
  {
    hide StoredOk;
  }

  lemma AnswerAppended(chains: Chains, h: History, requests: map<nat, Progress>, answers: seq<Issued>, a: Issued)
    requires AnswersOk(chains, h, requests, answers) && IssuedOk(chains, h, a)
    requires a.rid in requests
    ensures AnswersOk(chains, h, requests[a.rid := Answered(a.response)], answers + [a])
  {
    hide IssuedOk;
  }

  lemma SaveStep(chains: Chains, s: State, rid: nat, now: nat, victim: Option<string>, handover: Handover)
    requires Inv(chains, s)
    ensures Inv(chains, ApplySave(s, rid, now, victim, handover))
  {
    hide HistoryOk, Grows, QuotesOk, LatchOk, MarksOk, TaintOk, PreparationsOk, BornOk, AnswersOk, CheckedOk, IssuedOk, StoredOk,
      Live, Inserted, Evictable, KindOf;
    var s' := ApplySave(s, rid, now, victim, handover);
    var pc := At(s, rid);
    if s' != s {
      var w, id, live := pc.work, pc.work.Id(), Pruned(s.store, now);
      PruneStep(chains, s, now);
      assert ProgressOk(chains, s.history, rid, pc);
      var form := SavedForm(w, pc.answer, handover);
      ClassifiedGrows(chains, s.history, rid, w, pc.answer, pc.checkedAt, handover);
      SavedOk(chains, s.history, rid, w, pc.answer, pc.checkedAt, handover);
      GrowthKeeps(chains, s.(store := live), s'.history, Some(rid));
      InsertedFacts(live.preparations, id, Entry(form, w.expires), victim);
      PreparationInserted(chains, s'.history, live.preparations, id, Entry(form, w.expires), victim);
      Resume(chains, s'.history, s.requests, s.answers, rid, Answered(pc.answer));
      AnswerAppended(chains, s'.history, s.requests, s.answers, Issued(rid, pc.answer, pc.checkedAt, w.short));
    }
  }

  lemma ProgressAt(chains: Chains, s: State, rid: nat)
    requires Inv(chains, s)
    ensures HistoryOk(s.history) && ProgressOk(chains, s.history, rid, At(s, rid))
    ensures At(s, rid) != Stopped(Unspecified) ==> rid in s.requests
  {
    hide ProgressOk, PreparationsOk, HistoryOk, LatchOk, QuotesOk, MarksOk, TaintOk, AnswersOk, BornOk;
    if rid !in s.requests { StoppedOk(chains, s.history, rid); }
  }

  lemma StoppedOk(chains: Chains, h: History, rid: nat)
    ensures ProgressOk(chains, h, rid, Stopped(Unspecified))
  {}

  lemma FreshOk(chains: Chains, s: State, rid: nat, request: PrepareRequest)
    requires Inv(chains, s) && rid !in s.requests
    ensures ProgressOk(chains, s.history, rid, if ValidRequest(request) then Arrived(request) else Stopped(Unspecified))
  {
    hide RequestsOk, AnswersOk, PreparationsOk, HistoryOk, MarksOk, TaintOk, LatchOk, QuotesOk;
  }

  lemma ApplyKeepsInv(chains: Chains, s: State, step: Step)
    requires Inv(chains, s)
    ensures Inv(chains, Apply(chains, s, step))
  {
    hide Inv, ProgressOk, HistoryOk, ApplySaveQuote, ApplyBuild, ApplyRead, ApplyMark, ApplySave, ValidRequest, SettleMark,
      BranchAllowance, BranchPermission, ConfirmApproval, ConfirmReady, Lookup, Pruned;
    match step {
      case SaveQuote(search, final, searchStart, now, victim) =>
        SaveQuoteStep(chains, s, search, final, searchStart, now, victim);
      case Receive(rid, request) =>
        if rid !in s.requests {
          FreshOk(chains, s, rid, request);
          LocalStep(chains, s, rid, if ValidRequest(request) then Arrived(request) else Stopped(Unspecified));
        }
      case DoLookup(rid, now) => if At(s, rid).Arrived? { LookupStep(chains, s, rid, now); }
      case DoBuild(rid, input, reading, now) => BuildStep(chains, s, rid, input, reading, now);
      case DoRead(rid, reading, now) => ReadStep(chains, s, rid, reading, now);
      case DoMark(rid, now) => MarkStep(chains, s, rid, now);
      case DoSave(rid, now, victim, handover) => SaveStep(chains, s, rid, now, victim, handover);
      case DoSettle(rid, now) =>
        ProgressAt(chains, s, rid);
        if At(s, rid).AllowanceMarked? || At(s, rid).PermissionMarked? {
          SettleOk(chains, s.history, rid, At(s, rid), now);
          LocalStep(chains, s, rid, SettleMark(At(s, rid), now));
        }
      case DoAllowance(rid, permissionRequired) =>
        ProgressAt(chains, s, rid);
        if At(s, rid).AllowanceSettled? {
          AllowanceOk(chains, s.history, rid, At(s, rid), permissionRequired);
          LocalStep(chains, s, rid, BranchAllowance(chains, At(s, rid).work, permissionRequired));
        }
      case DoPermission(rid) =>
        ProgressAt(chains, s, rid);
        if At(s, rid).PermissionSettled? {
          PermissionOk(chains, s.history, rid, At(s, rid));
          LocalStep(chains, s, rid, BranchPermission(chains, At(s, rid).work, At(s, rid).required));
        }
      case DoConfirmApproval(rid, canonical, now) =>
        ProgressAt(chains, s, rid);
        if At(s, rid).ApprovalBuilt? {
          ConfirmApprovalOk(chains, s.history, rid, At(s, rid), canonical, now);
          LocalStep(chains, s, rid, ConfirmApproval(At(s, rid).work, canonical, now));
        }
      case DoConfirmReady(rid, output, canonical, now) =>
        ProgressAt(chains, s, rid);
        if At(s, rid).Cleared? {
          ConfirmReadyOk(chains, s.history, rid, At(s, rid), output, canonical, now);
          LocalStep(chains, s, rid, ConfirmReady(At(s, rid).work, output, canonical, now));
        }
    }
  }

  // Every reachable state of every interleaving satisfies the invariant.
  lemma {:induction false} RunInv(chains: Chains, steps: seq<Step>)
    ensures Inv(chains, Run(chains, steps))
  {
    if steps != [] {
      RunInv(chains, steps[..|steps| - 1]);
      ApplyKeepsInv(chains, Run(chains, steps[..|steps| - 1]), steps[|steps| - 1]);
    }
  }
}
