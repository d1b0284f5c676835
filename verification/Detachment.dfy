// No outside reference reaches the store: builders, simulators and callers may overwrite every message
// they hold, the ones they gave to the store and the ones it gave to them, and a later lookup still
// returns the terms that were saved.
module Detachment {
  import opened Messages
  import opened Retention
  import opened QuoteStore

  // Someone overwrites every message of a set.
  method Overwrite<T>(held: set<Message<T>>, with: T)
    modifies held
    ensures forall m :: m in held ==> m.value == with
  {
    var left := held;
    while left != {}
      invariant left <= held
      invariant forall m :: m in held && m !in left ==> m.value == with
    {
      var m :| m in left;
      left := left - {m};
      m.value := with;
    }
  }

  // Everything a holder of a preparation can reach is overwritten with whatever it likes.
  method Tamper(p: PreparationCell, transaction: Transaction, permission: PermissionPlan, checks: SimulationChecks,
                response: Response, handover: Handover)
    modifies PreparationObjects(p)
  {
    Overwrite({p.transaction}, transaction);
    if p.permission != null { p.permission.value := permission; }
    Overwrite({p.checks}, checks);
    Overwrite({p.response}, response);
    if p.selection != null { p.selection.value := handover; }
  }

  method SavedTermsSurvive(store: Store, p: PreparationCell, expires: nat, clock: nat, now: nat, again: nat,
                           transaction: Transaction, permission: PermissionPlan, checks: SimulationChecks,
                           response: Response, handover: Handover)
    returns (later: Option<Entry<PreparationCell>>)
    requires store.Valid() && store !in PreparationObjects(p) && store.Repr() !! PreparationObjects(p)
    requires p.response.value.terms.preparationId != "" && now < expires && again < expires
    modifies store, PreparationObjects(p)
    ensures store.Valid()
    ensures later.Some? && PreparationValue(later.value.value) == old(PreparationValue(p)) && later.value.expires == expires
  {
    hide HoldsQuotes, HoldsPreparations, Inserted, Evictable, PreparationValue;
    ghost var id := p.response.value.terms.preparationId;
    ghost var entry := Entry(PreparationValue(p), expires);
    var key := p.response.value.terms.preparationId;
    ghost var live := Pruned(store.Contents, clock).preparations;
    var victim := store.SavePreparation(p, expires, clock);
    InsertedPresent(live, id, entry, victim);
    Tamper(p, transaction, permission, checks, response, handover);
    assert store.Contents.preparations[id] == entry;
    var _, first := store.Lookup("", key, now);
    Tamper(first.value.value, transaction, permission, checks, response, handover);
    var _, second := store.Lookup("", key, again);
    later := second;
  }

  lemma InsertedPresent<T>(m: Table<T>, id: string, e: Entry<T>, victim: Option<string>)
    ensures id in Inserted(m, id, e, victim) && Inserted(m, id, e, victim)[id] == e
  {}

  // ---------- any script ----------

  // An operation on the store, with the contents of the messages its caller passes.
  datatype Operation =
    | SaveQuote(request: QuoteRequest, final: QuoteFinal, searchStart: nat, clock: nat)
    | SavePreparation(p: Preparation, expires: nat, clock: nat)
    | Lookup(quoteId: string, preparationId: string, clock: nat)
    | MarkApproval(quoteId: string, key: Key, required: bool, clock: nat)

  // Saved identifiers are nonempty random text.
  predicate Named(op: Operation) {
    match op
    case SaveQuote(_, final, _, _) => final.quoteId != ""
    case SavePreparation(p, _, _) => p.response.terms.preparationId != ""
    case _ => true
  }

  // What an operation tells its caller: the terms found, or the earlier mark and whether the quote is known.
  datatype Told =
    | Silence
    | Found(quote: Option<(QuoteRequest, QuoteFinal, nat)>, prep: Option<Entry<Preparation>>)
    | MarkedBefore(previous: bool, known: bool)

  // The store as a value, on which no outside reference can act.
  function After(s: StoreState, op: Operation, victim: Option<string>): StoreState {
    var live := Pruned(s, op.clock);
    match op
    case SaveQuote(request, final, searchStart, _) =>
      var entry := Entry(QuoteRecord(request, final, {}), searchStart + RETENTION);
      live.(quotes := Inserted(live.quotes, final.quoteId, entry, victim))
    case SavePreparation(p, expires, _) =>
      live.(preparations := Inserted(live.preparations, p.response.terms.preparationId, Entry(p, expires), victim))
    case Lookup(_, _, _) => live
    case MarkApproval(quoteId, key, required, _) =>
      if quoteId in live.quotes && required then Latched(live, quoteId, key) else live
  }

  function Tells(s: StoreState, op: Operation): Told {
    var live := Pruned(s, op.clock);
    match op
    case Lookup(quoteId, preparationId, _) =>
      Found(if quoteId in live.quotes then
              var q := live.quotes[quoteId];
              Some((q.value.request, q.value.final, q.expires))
            else None,
            if preparationId in live.preparations then Some(live.preparations[preparationId]) else None)
    case MarkApproval(quoteId, key, _, _) =>
      var known := quoteId in live.quotes;
      MarkedBefore(known && key in live.quotes[quoteId].value.approvals, known)
    case _ => Silence
  }

  predicate FairVictim(s: StoreState, op: Operation, victim: Option<string>) {
    var live := Pruned(s, op.clock);
    match op
    case SaveQuote(_, _, _, _) => Evictable(live.quotes, victim)
    case SavePreparation(_, _, _) => Evictable(live.preparations, victim)
    case _ => victim.None?
  }

  // The store value and what was told, after each of the operations with the given evictions.
  ghost predicate Replays(states: seq<StoreState>, ops: seq<Operation>, victims: seq<Option<string>>, told: seq<Told>) {
    && |states| == |ops| + 1 && |victims| == |ops| && |told| == |ops|
    && forall i :: 0 <= i < |ops| ==>
         && FairVictim(states[i], ops[i], victims[i])
         && states[i + 1] == After(states[i], ops[i], victims[i]) && told[i] == Tells(states[i], ops[i])
  }

  predicate Bounded(s: StoreState) { |s.quotes| <= STORE_LIMIT && |s.preparations| <= STORE_LIMIT }

  lemma RoomAfterPruning(s: StoreState, now: nat)
    requires Bounded(s)
    ensures Bounded(Pruned(s, now))
  {
    LiveSize(s.quotes, now);
    LiveSize(s.preparations, now);
  }

  lemma StaysBounded(s: StoreState, op: Operation, victim: Option<string>)
    requires Bounded(s) && FairVictim(s, op, victim)
    ensures Bounded(After(s, op, victim))
  {
    hide Live, Inserted, Evictable;
    RoomAfterPruning(s, op.clock);
    var live := Pruned(s, op.clock);
    match op {
      case SaveQuote(request, final, searchStart, _) =>
        InsertedFacts(live.quotes, final.quoteId, Entry(QuoteRecord(request, final, {}), searchStart + RETENTION), victim);
      case SavePreparation(p, expires, _) =>
        InsertedFacts(live.preparations, p.response.terms.preparationId, Entry(p, expires), victim);
      case Lookup(_, _, _) =>
      case MarkApproval(quoteId, key, required, _) =>
        if quoteId in live.quotes && required {
          assert Latched(live, quoteId, key).quotes.Keys == live.quotes.Keys;
          assert |Latched(live, quoteId, key).quotes| == |Latched(live, quoteId, key).quotes.Keys|;
          assert |live.quotes| == |live.quotes.Keys|;
        }
    }
  }

  // No object of the set is the store or one of its own.
  ghost predicate Outside(held: set<object>, store: Store)
    reads store
  {
    held !! store.Repr() && store !in held
  }

  method PerformSaveQuote(store: Store, op: Operation, ghost held: set<object>)
    returns (ghost victim: Option<string>, ghost now: set<object>)
    requires op.SaveQuote? && Named(op) && store.Valid() && Bounded(store.Contents) && Outside(held, store)
    modifies store
    ensures store.Valid() && fresh(store.Repr() - old(store.Repr())) && Outside(now, store) && fresh(now - held)
    ensures FairVictim(old(store.Contents), op, victim) && store.Contents == After(old(store.Contents), op, victim)
  {
    hide Store.Valid, Pruned, Inserted, Evictable;
    RoomAfterPruning(store.Contents, op.clock);
    var r := new Message(op.request);
    var f := new Message(op.final);
    victim := store.SaveQuote(r, f, op.searchStart, op.clock);
    now := held + {r, f};
  }

  method PerformSavePreparation(store: Store, op: Operation, ghost held: set<object>)
    returns (ghost victim: Option<string>, ghost now: set<object>)
    requires op.SavePreparation? && Named(op) && store.Valid() && Bounded(store.Contents) && Outside(held, store)
    modifies store
    ensures store.Valid() && fresh(store.Repr() - old(store.Repr())) && Outside(now, store) && fresh(now - held)
    ensures FairVictim(old(store.Contents), op, victim) && store.Contents == After(old(store.Contents), op, victim)
  {
    hide Store.Valid, Pruned, Inserted, Evictable, PreparationValue;
    RoomAfterPruning(store.Contents, op.clock);
    var cell := CellOf(op.p);
    victim := store.SavePreparation(cell, op.expires, op.clock);
    now := held + PreparationObjects(cell);
  }

  method PerformLookup(store: Store, op: Operation, ghost held: set<object>)
    returns (ghost told: Told, ghost now: set<object>)
    requires op.Lookup? && store.Valid() && Outside(held, store)
    modifies store
    ensures store.Valid() && store.Repr() == old(store.Repr()) && Outside(now, store) && fresh(now - held)
    ensures store.Contents == After(old(store.Contents), op, None) && told == Tells(old(store.Contents), op)
  {
    hide Store.Valid, Live, PreparationValue;
    var q, p := store.Lookup(op.quoteId, op.preparationId, op.clock);
    told := Found(
      if q.Some? then Some((q.value.value.request.value, q.value.value.final.value, q.value.expires)) else None,
      if p.Some? then Some(Entry(PreparationValue(p.value.value), p.value.expires)) else None);
    now := held;
    if q.Some? { now := now + {q.value.value.request, q.value.value.final}; }
    if p.Some? { now := now + PreparationObjects(p.value.value); }
  }

  method PerformMark(store: Store, op: Operation) returns (ghost told: Told)
    requires op.MarkApproval? && store.Valid()
    modifies store, store.Repr()
    ensures store.Valid() && store.Repr() == old(store.Repr())
    ensures store.Contents == After(old(store.Contents), op, None) && told == Tells(old(store.Contents), op)
  {
    hide HoldsQuotes, HoldsPreparations, Live, Latched;
    QuotesHeld(store.quotes, store.Contents.quotes, store.QuoteRepr);
    var previous, known := store.MarkApproval(op.quoteId, op.key, op.required, op.clock);
    told := MarkedBefore(previous, known);
  }

  // One operation, with new messages; afterwards every object anyone holds is overwritten.
  method Perform(store: Store, op: Operation, ghost held: set<object>)
    returns (ghost victim: Option<string>, ghost told: Told, ghost now: set<object>)
    requires Named(op) && store.Valid() && Bounded(store.Contents) && Outside(held, store)
    modifies store, store.Repr(), held
    ensures store.Valid() && fresh(store.Repr() - old(store.Repr())) && Outside(now, store) && fresh(now - held)
    ensures Bounded(store.Contents) && FairVictim(old(store.Contents), op, victim)
    ensures store.Contents == After(old(store.Contents), op, victim) && told == Tells(old(store.Contents), op)
  {
    hide Store.Valid, After, FairVictim, Bounded;
    ghost var before := store.Contents;
    NoVictim(before, op);
    victim, told, now := None, Silence, held;
    if op.SaveQuote? {
      victim, now := PerformSaveQuote(store, op, held);
    } else if op.SavePreparation? {
      victim, now := PerformSavePreparation(store, op, held);
    } else if op.Lookup? {
      told, now := PerformLookup(store, op, held);
    } else {
      told := PerformMark(store, op);
    }
    StaysBounded(before, op, victim);
    modify now;
  }

  lemma NoVictim(s: StoreState, op: Operation)
    ensures op.Lookup? || op.MarkApproval? ==> FairVictim(s, op, None)
    ensures op.SaveQuote? || op.SavePreparation? ==> Tells(s, op) == Silence
  {}

  // Any number of operations in any order, with every message anyone ever gave to the store or got from
  // it overwritten after each of them: the store and what it tells are those of the value on which
  // nobody else can act.
  method SavedTermsSurviveAnything(store: Store, ops: seq<Operation>, ghost given: set<object>)
    returns (ghost states: seq<StoreState>, ghost victims: seq<Option<string>>, ghost told: seq<Told>)
    requires store.Valid() && Bounded(store.Contents) && Outside(given, store)
    requires forall op :: op in ops ==> Named(op)
    modifies store, store.Repr(), given
    ensures store.Valid() && Replays(states, ops, victims, told)
    ensures states[0] == old(store.Contents) && states[|ops|] == store.Contents
  {
    hide Store.Valid, After, Tells, FairVictim, Bounded;
    ghost var held := given;
    states, victims, told := [store.Contents], [], [];
    var i := 0;
    while i < |ops|
      invariant i <= |ops| && store.Valid() && Bounded(store.Contents) && Outside(held, store)
      invariant fresh(store.Repr() - old(store.Repr())) && fresh(held - given)
      invariant Replays(states, ops[..i], victims, told)
      invariant states[0] == old(store.Contents) && states[i] == store.Contents
    {
      ghost var victim, said, now := Perform(store, ops[i], held);
      held := now;
      states, victims, told := states + [store.Contents], victims + [victim], told + [said];
      i := i + 1;
    }
    assert ops[..i] == ops;
  }
}
