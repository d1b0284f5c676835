// The engine's in-memory store on the heap. Quotes and preparations are held as message objects that
// anyone with a reference could change in place; the store keeps its own copies and hands out others.
module QuoteStore {
  import opened Messages
  import opened Retention

  // A protobuf message, big integer or slice: an object with contents that can change in place.
  class Message<T> {
    var value: T

    constructor (value: T)
      ensures this.value == value
    {
      this.value := value;
    }
  }

  // The approvals map of a stored quote: the keys that are set to true.
  class Approvals {
    var keys: set<Key>

    constructor ()
      ensures keys == {}
    {
      keys := {};
    }
  }

  datatype QuoteCell = QuoteCell(request: Message<QuoteRequest>, final: Message<QuoteFinal>, approvals: Approvals)

  // selection: the route and allocations of the response, while they are still the strategy's own objects;
  // null once the response is a copy.
  datatype PreparationCell = PreparationCell(
    transaction: Message<Transaction>, spender: Address, permission: Message?<PermissionPlan>,
    checks: Message<SimulationChecks>, response: Message<Response>, selection: Message?<Handover>, chain: string,
    approval: bool)

  // What lookup returns of a quote: detached terms without the approval bookkeeping.
  datatype FoundQuote = FoundQuote(request: Message<QuoteRequest>, final: Message<QuoteFinal>)

  ghost function QuoteObjects(c: QuoteCell): set<object> {
    {c.request as object, c.final as object, c.approvals as object}
  }

  ghost function PreparationObjects(c: PreparationCell): set<object> {
    {c.transaction as object, c.checks as object, c.response as object}
    + (if c.permission == null then {} else {c.permission as object})
    + if c.selection == null then {} else {c.selection as object}
  }

  ghost function QuoteValue(c: QuoteCell): QuoteRecord
    reads c.request, c.final, c.approvals
  {
    QuoteRecord(c.request.value, c.final.value, c.approvals.keys)
  }

  ghost function PreparationValue(c: PreparationCell): Preparation
    reads c.transaction, c.checks, c.response, c.permission, c.selection
  {
    Preparation(
      Plan(c.transaction.value, c.spender, if c.permission == null then None else Some(c.permission.value),
           c.checks.value),
      ResponseOf(c.response, c.selection), c.chain, c.approval)
  }

  // The response a preparation reads as: its own fields, and the selection wherever that is.
  function ResponseOf(response: Message<Response>, selection: Message?<Handover>): Response
    reads response, selection
  {
    if selection == null then response.value
    else response.value.(terms := WithHandover(response.value.terms, selection.value))
  }

  // A table of cells whose objects are all in repr holds a table of values.
  ghost predicate HoldsQuotes(m: Table<QuoteCell>, values: Table<QuoteRecord>, repr: set<object>)
    reads repr
  {
    && m.Keys == values.Keys && "" !in m
    && (forall id :: id in m ==>
          QuoteObjects(m[id].value) <= repr && values[id] == Entry(QuoteValue(m[id].value), m[id].expires))
    && (forall a, b :: a in m && b in m && m[a].value.approvals == m[b].value.approvals ==> a == b)
  }

  ghost predicate HoldsPreparations(m: Table<PreparationCell>, values: Table<Preparation>, repr: set<object>)
    reads repr
  {
    && m.Keys == values.Keys && "" !in m
    && (forall id :: id in m ==>
          PreparationObjects(m[id].value) <= repr
          && values[id] == Entry(PreparationValue(m[id].value), m[id].expires))
  }

  lemma LiveQuotes(m: Table<QuoteCell>, values: Table<QuoteRecord>, repr: set<object>, now: nat)
    requires HoldsQuotes(m, values, repr)
    ensures HoldsQuotes(Live(m, now), Live(values, now), repr)
  {}

  lemma LivePreparations(m: Table<PreparationCell>, values: Table<Preparation>, repr: set<object>, now: nat)
    requires HoldsPreparations(m, values, repr)
    ensures HoldsPreparations(Live(m, now), Live(values, now), repr)
  {}

  lemma QuoteDropped(m: Table<QuoteCell>, values: Table<QuoteRecord>, repr: set<object>, id: string)
    requires HoldsQuotes(m, values, repr)
    ensures HoldsQuotes(m - {id}, values - {id}, repr) && |m| == |values|
    ensures Oldest(m, id) ==> Oldest(values, id)
  {
    assert |m| == |m.Keys| && |values| == |values.Keys|;
  }

  lemma PreparationDropped(m: Table<PreparationCell>, values: Table<Preparation>, repr: set<object>, id: string)
    requires HoldsPreparations(m, values, repr)
    ensures HoldsPreparations(m - {id}, values - {id}, repr) && |m| == |values|
    ensures Oldest(m, id) ==> Oldest(values, id)
  {
    assert |m| == |m.Keys| && |values| == |values.Keys|;
  }

  lemma NoEmptyQuote(m: Table<QuoteCell>, values: Table<QuoteRecord>, repr: set<object>)
    requires HoldsQuotes(m, values, repr)
    ensures "" !in m && |m| == |values|
  {
    assert |m| == |m.Keys| && |values| == |values.Keys|;
  }

  lemma NoEmptyPreparation(m: Table<PreparationCell>, values: Table<Preparation>, repr: set<object>)
    requires HoldsPreparations(m, values, repr)
    ensures "" !in m && |m| == |values|
  {
    assert |m| == |m.Keys| && |values| == |values.Keys|;
  }

  lemma QuotesHeld(m: Table<QuoteCell>, values: Table<QuoteRecord>, repr: set<object>)
    requires HoldsQuotes(m, values, repr)
    ensures m.Keys == values.Keys
    ensures forall id :: id in m ==>
              QuoteObjects(m[id].value) <= repr && values[id] == Entry(QuoteValue(m[id].value), m[id].expires)
  {}

  // No other quote shares a quote's approvals.
  lemma OwnApprovals(m: Table<QuoteCell>, values: Table<QuoteRecord>, repr: set<object>, id: string)
    requires HoldsQuotes(m, values, repr) && id in m
    ensures "" !in m && m[id].value.approvals in QuoteObjects(m[id].value)
    ensures forall other :: other in m && other != id ==> m[other].value.approvals != m[id].value.approvals
    ensures forall a, b :: a in m && b in m && m[a].value.approvals == m[b].value.approvals ==> a == b
  {}

  lemma Rehold(m: Table<QuoteCell>, values: Table<QuoteRecord>, repr: set<object>)
    requires m.Keys == values.Keys && "" !in m
    requires forall id :: id in m ==> QuoteObjects(m[id].value) <= repr
    requires forall id :: id in m ==> values[id] == Entry(QuoteValue(m[id].value), m[id].expires)
    requires forall a, b :: a in m && b in m && m[a].value.approvals == m[b].value.approvals ==> a == b
    ensures HoldsQuotes(m, values, repr)
  {}

  lemma PreparationsHeld(m: Table<PreparationCell>, values: Table<Preparation>, repr: set<object>)
    requires HoldsPreparations(m, values, repr)
    ensures m.Keys == values.Keys
    ensures forall id :: id in m ==> values[id] == Entry(PreparationValue(m[id].value), m[id].expires)
  {}

  lemma QuoteAdded(m: Table<QuoteCell>, values: Table<QuoteRecord>, repr: set<object>, id: string, e: Entry<QuoteCell>)
    requires HoldsQuotes(m, values, repr) && id != "" && e.value.approvals as object !in repr
    ensures HoldsQuotes(m[id := e], values[id := Entry(QuoteValue(e.value), e.expires)], repr + QuoteObjects(e.value))
  {}

  lemma PreparationAdded(m: Table<PreparationCell>, values: Table<Preparation>, repr: set<object>, id: string,
                         e: Entry<PreparationCell>)
    requires HoldsPreparations(m, values, repr) && id != ""
    ensures HoldsPreparations(m[id := e], values[id := Entry(PreparationValue(e.value), e.expires)],
                              repr + PreparationObjects(e.value))
  {}

  lemma CopyKeepsItsId(response: Message<Response>, selection: Message?<Handover>)
    ensures ResponseOf(response, selection).terms.preparationId == response.value.terms.preparationId
  {}

  method CloneOf<T>(m: Message<T>) returns (c: Message<T>)
    ensures fresh(c) && c.value == m.value
  {
    c := new Message(m.value);
  }

  method ClonePreparation(p: PreparationCell) returns (c: PreparationCell)
    ensures fresh(PreparationObjects(c)) && PreparationValue(c) == PreparationValue(p) == old(PreparationValue(p))
    ensures c.selection == null && c.response.value == ResponseOf(p.response, p.selection)
  {
    var response := CloneResponse(p.response, p.selection);
    var transaction := CloneOf(p.transaction);
    var permission: Message?<PermissionPlan> := null;
    if p.permission != null { permission := CloneOf(p.permission); }
    var checks := CloneOf(p.checks);
    c := p.(response := response, selection := null, transaction := transaction, permission := permission,
            checks := checks);
  }

  // The copy of a response copies the selection in it.
  method CloneResponse(response: Message<Response>, selection: Message?<Handover>) returns (c: Message<Response>)
    ensures fresh(c) && c.value == ResponseOf(response, selection)
  {
    c := new Message(ResponseOf(response, selection));
  }

  // New objects with the contents of a preparation.
  method CellOf(p: Preparation) returns (c: PreparationCell)
    ensures fresh(PreparationObjects(c)) && PreparationValue(c) == p
    ensures c.response.value.terms.preparationId == p.response.terms.preparationId
  {
    var transaction := new Message(p.plan.transaction);
    var permission: Message?<PermissionPlan> := null;
    if p.plan.permission.Some? { permission := new Message(p.plan.permission.value); }
    var checks := new Message(p.plan.checks);
    var response := new Message(p.response);
    var shared: bool := *;
    var selection: Message?<Handover> := null;
    if shared { selection := new Message(HandoverOf(p.response.terms)); }
    c := PreparationCell(transaction, p.plan.spender, permission, checks, response, selection, p.chain, p.approval);
  }

  // The deletion loop of prune over one table.
  method PruneTable<T>(m: Table<T>, now: nat) returns (live: Table<T>)
    ensures live == Live(m, now)
  {
    live := m;
    var pending := m.Keys;
    while pending != {}
      invariant pending <= m.Keys
      invariant live == map id | id in m && (id in pending || now < m[id].expires) :: m[id]
    {
      var id :| id in pending;
      pending := pending - {id};
      if now >= m[id].expires { live := live - {id}; }
    }
  }

  // The eviction scan. The empty string stands for "none yet", which is right because no stored ID is
  // empty.
  method FindOldest<T>(m: Table<T>) returns (oldest: string)
    requires m != map[] && "" !in m
    ensures Oldest(m, oldest)
  {
    oldest := "";
    var expiry := 0;
    var pending := m.Keys;
    while pending != {}
      invariant pending <= m.Keys
      invariant oldest == "" ==> pending == m.Keys
      invariant oldest != "" ==> oldest in m && expiry == m[oldest].expires
      invariant oldest != "" ==> forall id :: id in m && id !in pending ==> expiry <= m[id].expires
    {
      var id :| id in pending;
      pending := pending - {id};
      if oldest == "" || m[id].expires < expiry { oldest, expiry := id, m[id].expires; }
    }
  }

  class Store {
    var quotes: Table<QuoteCell>
    var preparations: Table<PreparationCell>
    ghost var Contents: StoreState
    ghost var QuoteRepr: set<object>
    ghost var PreparationRepr: set<object>

    // Every object the store owns.
    ghost function Repr(): set<object>
      reads this
    {
      QuoteRepr + PreparationRepr
    }

    // Every stored message is the store's own, and no two quotes share their approvals.
    ghost predicate Valid()
      reads this, Repr()
    {
      && this !in Repr() && QuoteRepr !! PreparationRepr
      && HoldsQuotes(quotes, Contents.quotes, QuoteRepr)
      && HoldsPreparations(preparations, Contents.preparations, PreparationRepr)
    }

    constructor ()
      ensures Valid() && fresh(Repr()) && Contents == StoreState(map[], map[])
    {
      quotes := map[];
      preparations := map[];
      Contents := StoreState(map[], map[]);
      QuoteRepr, PreparationRepr := {}, {};
    }

    method Prune(now: nat)
      requires Valid()
      modifies this`quotes, this`preparations, this`Contents
      ensures Valid() && Contents == Pruned(old(Contents), now)
      ensures quotes == Live(old(quotes), now) && preparations == Live(old(preparations), now)
    {
      hide HoldsQuotes, HoldsPreparations, Live;
      LiveQuotes(quotes, Contents.quotes, QuoteRepr, now);
      LivePreparations(preparations, Contents.preparations, PreparationRepr, now);
      quotes := PruneTable(quotes, now);
      preparations := PruneTable(preparations, now);
      Contents := Pruned(Contents, now);
    }

    // The head of both saves: prune, then make room in the table that is about to grow. The entry that
    // had to leave is the victim.
    method MakeQuoteRoom(clock: nat) returns (victim: Option<string>)
      requires Valid()
      modifies this`quotes, this`preparations, this`Contents
      ensures Valid() && Repr() == old(Repr())
      ensures
        var live := Pruned(old(Contents), clock);
        && (|live.quotes| <= STORE_LIMIT ==> Evictable(live.quotes, victim))
        && Contents == live.(quotes := if victim.Some? then live.quotes - {victim.value} else live.quotes)
    {
      hide HoldsQuotes, HoldsPreparations, Live, Oldest;
      Prune(clock);
      NoEmptyQuote(quotes, Contents.quotes, QuoteRepr);
      victim := None;
      if |quotes| >= STORE_LIMIT {
        var oldest := FindOldest(quotes);
        QuoteDropped(quotes, Contents.quotes, QuoteRepr, oldest);
        quotes := quotes - {oldest};
        Contents := Contents.(quotes := Contents.quotes - {oldest});
        victim := Some(oldest);
      }
    }

    method MakePreparationRoom(clock: nat) returns (victim: Option<string>)
      requires Valid()
      modifies this`quotes, this`preparations, this`Contents
      ensures Valid() && Repr() == old(Repr())
      ensures
        var live := Pruned(old(Contents), clock);
        && (|live.preparations| <= STORE_LIMIT ==> Evictable(live.preparations, victim))
        && Contents == live.(preparations :=
                               if victim.Some? then live.preparations - {victim.value} else live.preparations)
    {
      hide HoldsQuotes, HoldsPreparations, Live, Oldest;
      Prune(clock);
      NoEmptyPreparation(preparations, Contents.preparations, PreparationRepr);
      victim := None;
      if |preparations| >= STORE_LIMIT {
        var oldest := FindOldest(preparations);
        PreparationDropped(preparations, Contents.preparations, PreparationRepr, oldest);
        preparations := preparations - {oldest};
        Contents := Contents.(preparations := Contents.preparations - {oldest});
        victim := Some(oldest);
      }
    }

    // searchStart is when the search of the quote began, clock the time of the save.
    method SaveQuote(r: Message<QuoteRequest>, f: Message<QuoteFinal>, searchStart: nat, clock: nat)
      returns (victim: Option<string>)
      requires Valid() && f.value.quoteId != ""
      modifies this
      ensures Valid() && fresh(Repr() - old(Repr()))
      ensures
        var live := Pruned(old(Contents), clock);
        var entry := Entry(QuoteRecord(r.value, f.value, {}), searchStart + RETENTION);
        && (|live.quotes| <= STORE_LIMIT ==> Evictable(live.quotes, victim))
        && Contents == live.(quotes := Inserted(live.quotes, f.value.quoteId, entry, victim))
    {
      hide HoldsQuotes, HoldsPreparations, Live, Evictable;
      victim := MakeQuoteRoom(clock);
      var request := CloneOf(r);
      var final := CloneOf(f);
      var approvals := new Approvals();
      var entry := Entry(QuoteCell(request, final, approvals), searchStart + RETENTION);
      QuoteAdded(quotes, Contents.quotes, QuoteRepr, f.value.quoteId, entry);
      quotes := quotes[f.value.quoteId := entry];
      Contents := Contents.(quotes := Contents.quotes[f.value.quoteId := Entry(QuoteValue(entry.value), entry.expires)]);
      QuoteRepr := QuoteRepr + QuoteObjects(entry.value);
    }

    // Everything the caller passed is copied: the store keeps no reference to it.
    method SavePreparation(p: PreparationCell, expires: nat, clock: nat) returns (victim: Option<string>)
      requires Valid() && p.response.value.terms.preparationId != ""
      modifies this
      ensures Valid() && fresh(Repr() - old(Repr()))
      ensures
        var live := Pruned(old(Contents), clock);
        var id := p.response.value.terms.preparationId;
        && (|live.preparations| <= STORE_LIMIT ==> Evictable(live.preparations, victim))
        && Contents == live.(preparations :=
                               Inserted(live.preparations, id, Entry(PreparationValue(p), expires), victim))
    {
      hide HoldsQuotes, HoldsPreparations, Live, Evictable, PreparationValue, PreparationObjects, ResponseOf;
      CopyKeepsItsId(p.response, p.selection);
      victim := MakePreparationRoom(clock);
      var own := ClonePreparation(p);
      var id := own.response.value.terms.preparationId;
      PreparationAdded(preparations, Contents.preparations, PreparationRepr, id, Entry(own, expires));
      preparations := preparations[id := Entry(own, expires)];
      Contents := Contents.(preparations := Contents.preparations[id := Entry(PreparationValue(own), expires)]);
      PreparationRepr := PreparationRepr + PreparationObjects(own);
    }

    // Detached terms: every object returned is new, and the store's own objects stay inside.
    method Lookup(quoteId: string, preparationId: string, now: nat)
      returns (q: Option<Entry<FoundQuote>>, p: Option<Entry<PreparationCell>>)
      requires Valid()
      modifies this`quotes, this`preparations, this`Contents
      ensures Valid() && Repr() == old(Repr()) && Contents == Pruned(old(Contents), now)
      ensures q.Some? <==> quoteId in Contents.quotes
      ensures q.Some? ==>
                && fresh(q.value.value.request) && fresh(q.value.value.final)
                && q.value.expires == Contents.quotes[quoteId].expires
                && q.value.value.request.value == Contents.quotes[quoteId].value.request
                && q.value.value.final.value == Contents.quotes[quoteId].value.final
      ensures p.Some? <==> preparationId in Contents.preparations
      ensures p.Some? ==>
                && fresh(PreparationObjects(p.value.value)) && p.value.value.selection == null
                && Contents.preparations[preparationId] == Entry(PreparationValue(p.value.value), p.value.expires)
    {
      hide HoldsQuotes, HoldsPreparations, Live, PreparationValue, PreparationObjects, ResponseOf;
      Prune(now);
      q, p := None, None;
      if quoteId in quotes {
        QuotesHeld(quotes, Contents.quotes, QuoteRepr);
        var request := CloneOf(quotes[quoteId].value.request);
        var final := CloneOf(quotes[quoteId].value.final);
        q := Some(Entry(FoundQuote(request, final), quotes[quoteId].expires));
      }
      PreparationsHeld(preparations, Contents.preparations, PreparationRepr);
      QuotesHeld(quotes, Contents.quotes, QuoteRepr);
      if preparationId in preparations {
        var own := ClonePreparation(preparations[preparationId].value);
        p := Some(Entry(own, preparations[preparationId].expires));
      }
    }

    // Observe and record under one lock. Of the stored objects only the approvals of this quote change.
    method MarkApproval(quoteId: string, key: Key, required: bool, now: nat) returns (previous: bool, found: bool)
      requires Valid()
      modifies this`quotes, this`preparations, this`Contents
      modifies if quoteId in quotes then {quotes[quoteId].value.approvals} else {}
      ensures Valid() && Repr() == old(Repr())
      ensures
        var live := Pruned(old(Contents), now);
        && found == (quoteId in live.quotes)
        && previous == (found && key in live.quotes[quoteId].value.approvals)
        && Contents == if found && required then Latched(live, quoteId, key) else live
    {
      hide HoldsQuotes, HoldsPreparations;
      Prune(now);
      QuotesHeld(quotes, Contents.quotes, QuoteRepr);
      if quoteId !in quotes { return false, false; }
      previous, found := key in quotes[quoteId].value.approvals.keys, true;
      if required { Latch(quoteId, key); }
    }

    // The write of markApproval.
    method Latch(quoteId: string, key: Key)
      requires Valid() && quoteId in quotes && quoteId in Contents.quotes
      modifies this`Contents, quotes[quoteId].value.approvals
      ensures Valid() && Repr() == old(Repr())
      ensures Contents == Latched(old(Contents), quoteId, key)
    {
      hide HoldsPreparations, HoldsQuotes, Live, Pruned;
      QuotesHeld(quotes, Contents.quotes, QuoteRepr);
      OwnApprovals(quotes, Contents.quotes, QuoteRepr, quoteId);
      var approvals := quotes[quoteId].value.approvals;
      hide QuoteObjects;
      approvals.keys := approvals.keys + {key};
      Contents := Latched(Contents, quoteId, key);
      Rehold(quotes, Contents.quotes, QuoteRepr);
    }
  }
}
