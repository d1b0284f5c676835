// What the engine's in-memory store keeps: two tables of entries that expire, each with a size limit.
module Retention {
  import opened Messages

  const SECOND: nat := 1000000000
  const RETENTION: nat := 30 * SECOND
  const STORE_LIMIT: nat := 1024

  datatype Entry<+T> = Entry(value: T, expires: nat)

  type Table<T> = map<string, Entry<T>>

  // An approval key is the concatenation of fixed-width address texts.
  type Key = seq<Address>

  datatype QuoteRecord = QuoteRecord(request: QuoteRequest, final: QuoteFinal, approvals: set<Key>)

  datatype Preparation = Preparation(plan: Plan, response: Response, chain: string, approval: bool)

  datatype StoreState = StoreState(quotes: Table<QuoteRecord>, preparations: Table<Preparation>)

  function Live<T>(m: Table<T>, now: nat): Table<T> {
    map id | id in m && now < m[id].expires :: m[id]
  }

  function Pruned(s: StoreState, now: nat): StoreState {
    StoreState(Live(s.quotes, now), Live(s.preparations, now))
  }

  predicate Oldest<T>(m: Table<T>, id: string) {
    id in m && forall other :: other in m ==> m[id].expires <= m[other].expires
  }

  // Which entry a save into m may evict: none below the limit, otherwise any of the oldest.
  predicate Evictable<T>(m: Table<T>, victim: Option<string>) {
    if |m| < STORE_LIMIT then victim.None? else victim.Some? && Oldest(m, victim.value)
  }

  function Inserted<T>(m: Table<T>, id: string, e: Entry<T>, victim: Option<string>): Table<T> {
    (if victim.Some? then m - {victim.value} else m)[id := e]
  }

  function Latched(s: StoreState, quoteId: string, key: Key): StoreState
    requires quoteId in s.quotes
  {
    var q := s.quotes[quoteId];
    s.(quotes := s.quotes[quoteId := q.(value := q.value.(approvals := q.value.approvals + {key}))])
  }

  lemma LiveSize<T>(m: Table<T>, now: nat)
    ensures |Live(m, now)| <= |m|
  {
    var live := Live(m, now);
    assert live.Keys <= m.Keys;
    SubsetSize(live.Keys, m.Keys);
    assert |live| == |live.Keys| && |m| == |m.Keys|;
  }

  lemma SubsetSize<T>(a: set<T>, b: set<T>)
    requires a <= b
    ensures |a| <= |b|
  {
    assert b == a + (b - a);
  }

  // A save keeps the table within its limit and leaves the saved entry present. Whatever else was
  // live is still there, except at most one entry of minimal expiry of a full table.
  lemma InsertedFacts<T>(m: Table<T>, id: string, e: Entry<T>, victim: Option<string>)
    requires |m| <= STORE_LIMIT && Evictable(m, victim)
    ensures |Inserted(m, id, e, victim)| <= STORE_LIMIT
    ensures id in Inserted(m, id, e, victim) && Inserted(m, id, e, victim)[id] == e
    ensures forall other :: other in m && other != id && victim != Some(other) ==>
              other in Inserted(m, id, e, victim) && Inserted(m, id, e, victim)[other] == m[other]
    ensures forall lost :: lost in m && lost !in Inserted(m, id, e, victim) ==> |m| == STORE_LIMIT && Oldest(m, lost)
  {
    var kept := if victim.Some? then m - {victim.value} else m;
    assert victim.Some? ==> kept.Keys == m.Keys - {victim.value};
    assert Inserted(m, id, e, victim).Keys == kept.Keys + {id};
    assert |m| == |m.Keys| && |kept| == |kept.Keys|;
  }
}
