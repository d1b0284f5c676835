// The concurrent quote search. Workers pull jobs under a lock, quote them without it, send results
// in any order and pull again; the budget may expire at any moment. A run is any interleaving.
module SearchPool {
  import opened Messages
  import opened Enumeration
  import opened Sorting

  datatype Job = Job(kind: string, candidate: Candidate)

  datatype Source = Source(kind: string, candidates: seq<Candidate>)

  // What quoting a candidate at the pinned block says; Missing is not an error.
  datatype Answer = Missing | Failed(reason: string) | Found(route: Route)

  datatype Outcome = Nothing | Error(error: ProviderError) | Priced(route: Route)

  datatype Item = Item(index: nat, outcome: Outcome)

  // ---------- the shared queue of candidates ----------

  ghost function Jobs(sources: seq<Source>): seq<Job> {
    if sources == [] then [] else JobsOf(sources[0].kind, sources[0].candidates) + Jobs(sources[1..])
  }

  ghost function JobsOf(kind: string, candidates: seq<Candidate>): (js: seq<Job>)
    ensures |js| == |candidates|
    ensures forall i :: 0 <= i < |js| ==> js[i] == Job(kind, candidates[i])
  {
    seq(|candidates|, i requires 0 <= i < |candidates| => Job(kind, candidates[i]))
  }

  // The search's context: it may expire at any reading, and stays expired.
  class Context {
    var expired: bool

    constructor ()
      ensures !expired
    {
      expired := false;
    }

    method Err() returns (e: bool)
      modifies this
      ensures e == expired && (old(expired) ==> expired)
    {
      var now: bool := *;
      expired := expired || now;
      e := expired;
    }
  }

  // Each source is a candidate search; its Next has been proved to pop the head of its enumeration.
  class SearchCandidates {
    var sources: seq<Source>
    var index: nat

    constructor (usable: seq<Source>)
      ensures sources == usable && index == 0
    {
      sources, index := usable, 0;
    }

    // The context is read at every turn of the loop and again inside the source. A source that finds it
    // expired is dropped with its candidates; nothing is handed out from then on.
    method Next(context: Context) returns (r: Option<(nat, Job)>)
      modifies this, context
      ensures old(context.expired) ==> context.expired && r == None && sources == old(sources)
      ensures r == None ==> index == old(index) && (context.expired || Jobs(old(sources)) == [])
      ensures r.Some? ==>
                && Jobs(old(sources)) != [] && r == Some((old(index), Jobs(old(sources))[0]))
                && index == old(index) + 1 && Jobs(sources) == Jobs(old(sources))[1..]
      ensures !context.expired && Jobs(old(sources)) != [] ==> r.Some?
    {
      ghost var all := Jobs(sources);
      while sources != []
        invariant index == old(index) && (old(context.expired) ==> context.expired && sources == old(sources))
        invariant context.expired || Jobs(sources) == all
        decreases |sources|
      {
        var done := context.Err();
        if done { return None; }
        var source := sources[0];
        done := context.Err();
        if !done && source.candidates != [] {
          var candidate := source.candidates[0];
          sources := sources[0 := source.(candidates := source.candidates[1..])];
          assert JobsOf(source.kind, source.candidates) ==
                 [Job(source.kind, candidate)] + JobsOf(source.kind, source.candidates[1..]);
          assert all == [Job(source.kind, candidate)] + Jobs(sources);
          r := Some((index, Job(source.kind, candidate)));
          index := index + 1;
          return;
        }
        sources := sources[1..];
      }
      return None;
    }
  }

  // ---------- the worker pool ----------

  datatype Worker =
    | Quoting(index: nat, job: Job)
    | Sending(item: Item, last: bool)
    | Fetching
    | Stopped

  // launching: the spawning loop has not finished, so nothing is received yet.
  datatype State = State(
    pending: seq<Job>, index: nat, launching: bool, workers: seq<Worker>, collected: seq<Item>, closed: bool,
    expired: bool)

  datatype Step = Launch | Return(worker: nat) | Send(worker: nat) | Fetch(worker: nat) | Close | Expire

  datatype Search = Search(jobs: seq<Job>, answer: Job -> Answer, concurrency: nat)

  function Start(search: Search): State { State(search.jobs, 0, true, [], [], false, false) }

  function OutcomeOf(job: Job, answer: Answer): Outcome {
    match answer
    case Missing => Nothing
    case Failed(reason) => Error(ProviderError(job.kind, Some(job.candidate.routeId), reason))
    case Found(route) => Priced(route)
  }

  function OutOfTime(job: Job): Outcome {
    Error(ProviderError(job.kind, Some(job.candidate.routeId), "search budget expired"))
  }

  predicate Enabled(search: Search, s: State, step: Step) {
    match step
    case Launch => s.launching
    case Return(k) => k < |s.workers| && s.workers[k].Quoting?
    case Send(k) => !s.launching && k < |s.workers| && s.workers[k].Sending?
    case Fetch(k) => k < |s.workers| && s.workers[k].Fetching?
    case Close => !s.launching && !s.closed && forall w :: w in s.workers ==> w.Stopped?
    case Expire => !s.expired
  }

  function Apply(search: Search, s: State, step: Step): State
    requires Enabled(search, s, step)
  {
    match step
    case Launch =>
      if |s.workers| == search.concurrency || s.expired || s.pending == [] then s.(launching := false)
      else s.(pending := s.pending[1..], index := s.index + 1,
              workers := s.workers + [Quoting(s.index, s.pending[0])])
    case Return(k) =>
      var w := s.workers[k];
      var item := Item(w.index, if s.expired then OutOfTime(w.job) else OutcomeOf(w.job, search.answer(w.job)));
      s.(workers := s.workers[k := Sending(item, s.expired)])
    case Send(k) =>
      var w := s.workers[k];
      s.(workers := s.workers[k := if w.last then Stopped else Fetching], collected := s.collected + [w.item])
    case Fetch(k) =>
      if s.expired || s.pending == [] then s.(workers := s.workers[k := Stopped])
      else s.(pending := s.pending[1..], index := s.index + 1,
              workers := s.workers[k := Quoting(s.index, s.pending[0])])
    case Close => s.(closed := true)
    case Expire => s.(expired := true)
  }

  // A schedule may name steps that are not enabled; they do nothing.
  function Run(search: Search, steps: seq<Step>): State {
    if steps == [] then Start(search)
    else
      var s := Run(search, steps[..|steps| - 1]);
      var step := steps[|steps| - 1];
      if Enabled(search, s, step) then Apply(search, s, step) else s
  }

  // ---------- the invariant ----------

  function HeldBy(w: Worker): multiset<nat> {
    match w
    case Quoting(i, _) => multiset{i}
    case Sending(item, _) => multiset{item.index}
    case _ => multiset{}
  }

  function Held(ws: seq<Worker>): multiset<nat> {
    if ws == [] then multiset{} else HeldBy(ws[0]) + Held(ws[1..])
  }

  function Indices(items: seq<Item>): (r: seq<nat>)
    ensures |r| == |items| && forall i :: 0 <= i < |r| ==> r[i] == items[i].index
  {
    seq(|items|, i requires 0 <= i < |items| => items[i].index)
  }

  function Range(n: nat): (r: seq<nat>)
    ensures |r| == n && forall i :: 0 <= i < n ==> r[i] == i
  {
    seq(n, i => i)
  }

  // A result is what its candidate answered, or the budget's error once the budget has expired.
  predicate Sound(search: Search, s: State, item: Item) {
    && item.index < |search.jobs|
    && var job := search.jobs[item.index];
       || item.outcome == OutcomeOf(job, search.answer(job))
       || (s.expired && item.outcome == OutOfTime(job))
  }

  predicate SoundWorker(search: Search, s: State, w: Worker) {
    match w
    case Quoting(i, job) => i < |search.jobs| && job == search.jobs[i]
    case Sending(item, last) => Sound(search, s, item) && (last ==> s.expired)
    case Fetching => true
    case Stopped => s.expired || s.pending == []
  }

  // Every index handed out is held by one worker or has been collected, never both.
  predicate Accounted(s: State) {
    Held(s.workers) + multiset(Indices(s.collected)) == multiset(Range(s.index))
  }

  predicate Queue(search: Search, s: State) {
    s.index <= |search.jobs| && s.pending == search.jobs[s.index..]
  }

  predicate Pool(search: Search, s: State) {
    && |s.workers| <= search.concurrency
    && (s.launching ==> s.collected == [] && !s.closed)
    && (!s.launching ==> |s.workers| == search.concurrency || s.expired || s.pending == [])
    && (s.closed ==> forall w :: w in s.workers ==> w.Stopped?)
  }

  predicate Inv(search: Search, s: State) {
    && Queue(search, s)
    && Pool(search, s)
    && Accounted(s)
    && (forall w :: w in s.workers ==> SoundWorker(search, s, w))
    && (forall item :: item in s.collected ==> Sound(search, s, item))
  }

  lemma SumShift<T>(a: multiset<T>, b: multiset<T>, c: multiset<T>, d: multiset<T>, e: multiset<T>)
    requires b + c == d + e
    ensures a + b + c == a + d + e
  {
    assert a + b + c == a + (b + c) == a + (d + e);
  }

  lemma {:induction false} HeldUpdate(ws: seq<Worker>, k: nat, w: Worker)
    requires k < |ws|
    ensures Held(ws[k := w]) + HeldBy(ws[k]) == Held(ws) + HeldBy(w)
  {
    var us := ws[k := w];
    if k > 0 {
      HeldUpdate(ws[1..], k - 1, w);
      assert us[1..] == ws[1..][k - 1 := w];
      SumShift(HeldBy(ws[0]), Held(us[1..]), HeldBy(ws[k]), Held(ws[1..]), HeldBy(w));
    } else {
      assert us[1..] == ws[1..];
    }
  }

  lemma {:induction false} HeldAppend(ws: seq<Worker>, w: Worker)
    ensures Held(ws + [w]) == Held(ws) + HeldBy(w)
  {
    if ws != [] {
      HeldAppend(ws[1..], w);
      assert (ws + [w])[1..] == ws[1..] + [w];
    }
  }

  lemma RangeStep(n: nat)
    ensures multiset(Range(n + 1)) == multiset(Range(n)) + multiset{n}
  {
    assert Range(n + 1) == Range(n) + [n];
  }

  lemma IndicesAppend(items: seq<Item>, item: Item)
    ensures multiset(Indices(items + [item])) == multiset(Indices(items)) + multiset{item.index}
  {
    assert Indices(items + [item]) == Indices(items) + [item.index];
  }

  lemma {:induction false} HeldStopped(ws: seq<Worker>)
    requires forall w :: w in ws ==> w.Stopped?
    ensures Held(ws) == multiset{}
  {
    if ws != [] {
      assert ws[0] in ws;
      HeldStopped(ws[1..]);
    }
  }

  lemma LaunchAccounts(search: Search, s: State)
    requires Accounted(s) && s.launching
    ensures Accounted(Apply(search, s, Launch))
  {
    hide Indices, Range, Held;
    if |s.workers| != search.concurrency && !s.expired && s.pending != [] {
      HeldAppend(s.workers, Quoting(s.index, s.pending[0]));
      RangeStep(s.index);
    }
  }

  lemma SendAccounts(search: Search, s: State, k: nat)
    requires Accounted(s) && Enabled(search, s, Send(k))
    ensures Accounted(Apply(search, s, Send(k)))
  {
    hide Indices, Range, Held;
    var w := s.workers[k];
    var next := if w.last then Stopped else Fetching;
    HeldUpdate(s.workers, k, next);
    IndicesAppend(s.collected, w.item);
    assert Held(s.workers[k := next]) + multiset{w.item.index} == Held(s.workers);
  }

  lemma ReturnAccounts(search: Search, s: State, k: nat)
    requires Accounted(s) && Enabled(search, s, Return(k))
    ensures Accounted(Apply(search, s, Return(k)))
  {
    hide Indices, Range, Held, OutcomeOf, OutOfTime;
    var next := Apply(search, s, Return(k)).workers[k];
    HeldUpdate(s.workers, k, next);
    assert HeldBy(next) == HeldBy(s.workers[k]);
    SumCancel(Held(s.workers[k := next]), Held(s.workers), HeldBy(next));
  }

  lemma FetchAccounts(search: Search, s: State, k: nat)
    requires Accounted(s) && Enabled(search, s, Fetch(k))
    ensures Accounted(Apply(search, s, Fetch(k)))
  {
    hide Indices, Range, Held;
    var next := if s.expired || s.pending == [] then Stopped else Quoting(s.index, s.pending[0]);
    HeldUpdate(s.workers, k, next);
    assert Held(s.workers[k := next]) == Held(s.workers) + HeldBy(next);
    if next.Quoting? { RangeStep(s.index); }
  }

  lemma StepAccounts(search: Search, s: State, step: Step)
    requires Accounted(s) && Enabled(search, s, step)
    ensures Accounted(Apply(search, s, step))
  {
    hide Indices, Range, Held;
    match step
    case Launch => LaunchAccounts(search, s);
    case Return(k) => ReturnAccounts(search, s, k);
    case Send(k) => SendAccounts(search, s, k);
    case Fetch(k) => FetchAccounts(search, s, k);
    case Close =>
    case Expire =>
  }

  lemma StepQueue(search: Search, s: State, step: Step)
    requires Queue(search, s) && Enabled(search, s, step)
    ensures Queue(search, Apply(search, s, step))
  {}

  lemma StepPool(search: Search, s: State, step: Step)
    requires Pool(search, s) && Enabled(search, s, step)
    ensures Pool(search, Apply(search, s, step))
  {
    var t := Apply(search, s, step);
    if step.Fetch? || step.Return? || step.Send? { assert s.workers[step.worker] in s.workers; }
  }

  lemma StepWorkers(search: Search, s: State, step: Step)
    requires Queue(search, s) && Enabled(search, s, step)
    requires forall w :: w in s.workers ==> SoundWorker(search, s, w)
    ensures forall w :: w in Apply(search, s, step).workers ==> SoundWorker(search, Apply(search, s, step), w)
  {
    var t := Apply(search, s, step);
    forall w | w in t.workers ensures SoundWorker(search, t, w) {
      if w !in s.workers {
        if step.Return? || step.Send? { assert s.workers[step.worker] in s.workers; }
      } else {
        assert SoundWorker(search, s, w);
      }
    }
  }

  lemma StepCollected(search: Search, s: State, step: Step)
    requires Enabled(search, s, step)
    requires forall w :: w in s.workers ==> SoundWorker(search, s, w)
    requires forall item :: item in s.collected ==> Sound(search, s, item)
    ensures forall item :: item in Apply(search, s, step).collected ==> Sound(search, Apply(search, s, step), item)
  {
    if step.Send? { assert s.workers[step.worker] in s.workers; }
  }

  lemma {:induction false} RunInv(search: Search, steps: seq<Step>)
    ensures Inv(search, Run(search, steps))
  {
    if steps == [] {
      assert Held([]) == multiset{};
      assert Indices([]) == [] == Range(0);
    } else {
      RunInv(search, steps[..|steps| - 1]);
      var s, step := Run(search, steps[..|steps| - 1]), steps[|steps| - 1];
      hide Enabled, Apply, Queue, Pool, Accounted, SoundWorker, Sound;
      if Enabled(search, s, step) {
        StepQueue(search, s, step);
        StepPool(search, s, step);
        StepAccounts(search, s, step);
        StepWorkers(search, s, step);
        StepCollected(search, s, step);
      }
    }
  }

  // ---------- exactly once ----------

  function IndexOf(item: Item): int { item.index }

  // The results in index order, as they are ranked once the channel is closed.
  function Ordered(s: State): seq<Item> { SortBy(s.collected, IndexOf) }

  // Under any schedule and any expiry moment: the issued indices are a prefix of the candidates and
  // each has exactly one result, its own answer or the budget's error.
  lemma ExactlyOnce(search: Search, steps: seq<Step>)
    ensures var s := Run(search, steps);
            s.closed ==>
              && s.index <= |search.jobs| && |Ordered(s)| == s.index
              && (forall i :: 0 <= i < s.index ==> Ordered(s)[i].index == i && Sound(search, s, Ordered(s)[i]))
  {
    var s := Run(search, steps);
    RunInv(search, steps);
    if s.closed {
      HeldStopped(s.workers);
      SortFacts(s.collected, IndexOf);
      var sorted := Ordered(s);
      IndicesOfPermutation(sorted, s.collected);
      forall i, j | 0 <= i < j < |sorted| ensures Indices(sorted)[i] <= Indices(sorted)[j] {
        assert IndexOf(sorted[i]) <= IndexOf(sorted[j]);
      }
      SortedIsUnique(Indices(sorted), Range(s.index), (n: nat) => n as int);
      forall i | 0 <= i < s.index ensures sorted[i].index == i && Sound(search, s, sorted[i]) {
        assert Indices(sorted)[i] == Range(s.index)[i];
        SortMember(s.collected, IndexOf, sorted[i]);
      }
    }
  }

  lemma IndicesConcat(a: seq<Item>, b: seq<Item>)
    ensures Indices(a + b) == Indices(a) + Indices(b)
  {}

  lemma IndicesWithoutOne(items: seq<Item>, k: nat)
    requires k < |items|
    ensures multiset(Indices(items)) ==
            multiset(Indices(items[..k] + items[k + 1..])) + multiset{items[k].index}
  {
    assert Indices(items)[..k] == Indices(items[..k]) && Indices(items)[k + 1..] == Indices(items[k + 1..]);
    IndicesConcat(items[..k], items[k + 1..]);
    WithoutOne(Indices(items), k);
  }

  lemma IndicesWithoutHead(items: seq<Item>)
    requires items != []
    ensures multiset(Indices(items)) == multiset(Indices(items[1..])) + multiset{items[0].index}
  {
    IndicesWithoutOne(items, 0);
    assert items[..0] + items[1..] == items[1..];
  }

  lemma {:induction false} IndicesOfPermutation(a: seq<Item>, b: seq<Item>)
    requires multiset(a) == multiset(b)
    ensures multiset(Indices(a)) == multiset(Indices(b))
  {
    hide Indices;
    if a == [] {
      EmptyPermutation(b);
    } else {
      var k := FindHead(a, b);
      IndicesOfPermutation(a[1..], b[..k] + b[k + 1..]);
      IndicesWithoutHead(a);
      IndicesWithoutOne(b, k);
    }
  }

  // ---------- refinement ----------

  // Quoting the candidates one after another, in order.
  function Sequential(search: Search): (items: seq<Item>)
    ensures |items| == |search.jobs|
    ensures forall i :: 0 <= i < |items| ==>
              items[i] == Item(i, OutcomeOf(search.jobs[i], search.answer(search.jobs[i])))
  {
    seq(|search.jobs|, i requires 0 <= i < |search.jobs| =>
      Item(i, OutcomeOf(search.jobs[i], search.answer(search.jobs[i]))))
  }

  // A finished search whose budget never expired has an outcome for every candidate, and its
  // results are those of the sequential search, whatever the schedule and the concurrency.
  lemma RefinesSequential(search: Search, steps: seq<Step>)
    requires search.concurrency >= 1
    ensures var s := Run(search, steps);
            s.closed && !s.expired ==> s.index == |search.jobs| && Ordered(s) == Sequential(search)
  {
    var s := Run(search, steps);
    RunInv(search, steps);
    ExactlyOnce(search, steps);
    if s.closed && !s.expired {
      AllIssued(search, s);
      assert Ordered(s) == Sequential(search);
    }
  }

  lemma AllIssued(search: Search, s: State)
    requires Inv(search, s) && search.concurrency >= 1 && s.closed && !s.expired
    ensures s.pending == [] && s.index == |search.jobs|
  {
    if s.workers != [] {
      assert s.workers[0] in s.workers;
      assert SoundWorker(search, s, s.workers[0]);
    }
  }

  // ---------- progress ----------

  function Weight(w: Worker): nat {
    match w
    case Quoting(_, _) => 3
    case Sending(_, _) => 2
    case Fetching => 1
    case Stopped => 0
  }

  function Weights(ws: seq<Worker>): nat {
    if ws == [] then 0 else Weight(ws[0]) + Weights(ws[1..])
  }

  function Measure(search: Search, s: State): int {
    3 * |s.pending| + Weights(s.workers) + (search.concurrency - |s.workers|) +
    (if s.launching then 1 else 0) + (if s.closed then 0 else 1) + (if s.expired then 0 else 1)
  }

  lemma {:induction false} WeightsUpdate(ws: seq<Worker>, k: nat, w: Worker)
    requires k < |ws|
    ensures Weights(ws[k := w]) + Weight(ws[k]) == Weights(ws) + Weight(w)
  {
    var us := ws[k := w];
    if k > 0 {
      WeightsUpdate(ws[1..], k - 1, w);
      assert us[1..] == ws[1..][k - 1 := w];
    } else {
      assert us[1..] == ws[1..];
    }
  }

  lemma {:induction false} WeightsAppend(ws: seq<Worker>, w: Worker)
    ensures Weights(ws + [w]) == Weights(ws) + Weight(w)
  {
    if ws != [] {
      WeightsAppend(ws[1..], w);
      assert (ws + [w])[1..] == ws[1..] + [w];
    }
  }

  // Every step makes the search smaller, so no schedule runs forever.
  lemma StepDecreases(search: Search, s: State, step: Step)
    requires Inv(search, s) && Enabled(search, s, step)
    ensures 0 <= Measure(search, Apply(search, s, step)) < Measure(search, s)
  {
    hide Accounted, SoundWorker, Sound, Queue;
    var t := Apply(search, s, step);
    StepPool(search, s, step);
    match step
    case Launch => if t.index != s.index { WeightsAppend(s.workers, t.workers[|s.workers|]); }
    case Return(k) => WeightsUpdate(s.workers, k, t.workers[k]);
    case Send(k) => WeightsUpdate(s.workers, k, t.workers[k]);
    case Fetch(k) => WeightsUpdate(s.workers, k, t.workers[k]);
    case Close =>
    case Expire =>
  }

  // An unfinished search always has a step to take, without help from the clock.
  lemma NeverStuck(search: Search, s: State) returns (step: Step)
    requires Inv(search, s) && !s.closed
    ensures Enabled(search, s, step) && !step.Expire?
  {
    if s.launching {
      step := Launch;
    } else if w :| w in s.workers && !w.Stopped? {
      var k :| 0 <= k < |s.workers| && s.workers[k] == w;
      step := match w case Quoting(_, _) => Return(k) case Sending(_, _) => Send(k) case _ => Fetch(k);
    } else {
      step := Close;
    }
  }

  // From every reachable state some schedule finishes the search without the budget expiring on it.
  lemma {:induction false} AlwaysFinishes(search: Search, steps: seq<Step>) returns (more: seq<Step>)
    ensures Run(search, steps + more).closed
    ensures Run(search, steps + more).expired == Run(search, steps).expired
    decreases Measure(search, Run(search, steps))
  {
    var s := Run(search, steps);
    RunInv(search, steps);
    if s.closed {
      more := [];
      assert steps + more == steps;
    } else {
      var step := NeverStuck(search, s);
      StepDecreases(search, s, step);
      assert (steps + [step])[..|steps|] == steps;
      var rest := AlwaysFinishes(search, steps + [step]);
      more := [step] + rest;
      assert steps + more == steps + [step] + rest;
    }
  }

  // ---------- after the budget ----------

  // Once the budget has expired no candidate is handed out, a quote that comes back counts as the budget's error,
  // whatever it says, and its worker stops.
  lemma ExpiredStep(search: Search, s: State, step: Step)
    requires s.expired && Enabled(search, s, step)
    ensures
      var t := Apply(search, s, step);
      && t.expired && t.index == s.index && t.pending == s.pending
      && (step.Return? ==>
            var w := s.workers[step.worker];
            t.workers[step.worker]
            == Sending(Item(w.index, Error(ProviderError(w.job.kind, Some(w.job.candidate.routeId), "search budget expired"))),
                       true))
      && (step.Fetch? || (step.Send? && s.workers[step.worker].last) ==> t.workers[step.worker].Stopped?)
  {}

  lemma {:induction false} NothingIssuedAfterExpiry(search: Search, steps: seq<Step>, k: nat)
    requires k <= |steps| && Run(search, steps[..k]).expired
    ensures Run(search, steps).expired && Run(search, steps).index == Run(search, steps[..k]).index
  {
    hide Apply, Enabled;
    if k == |steps| {
      assert steps[..k] == steps;
    } else {
      var init := steps[..|steps| - 1];
      assert init[..k] == steps[..k];
      NothingIssuedAfterExpiry(search, init, k);
      if Enabled(search, Run(search, init), steps[|steps| - 1]) {
        ExpiredStep(search, Run(search, init), steps[|steps| - 1]);
      }
    }
  }

  // A quote that comes back in time counts as what it says.
  lemma TimelyReturn(search: Search, s: State, k: nat)
    requires !s.expired && Enabled(search, s, Return(k))
    ensures
      var (w, t) := (s.workers[k], Apply(search, s, Return(k)));
      && t.workers[k].Sending? && !t.workers[k].last && t.workers[k].item.index == w.index
      && t.workers[k].item.outcome ==
         match search.answer(w.job)
         case Missing => Nothing
         case Failed(reason) => Error(ProviderError(w.job.kind, Some(w.job.candidate.routeId), reason))
         case Found(route) => Priced(route)
  {}

  // ---------- concurrency ----------

  function Quotes(ws: seq<Worker>): nat {
    if ws == [] then 0 else (if ws[0].Quoting? then 1 else 0) + Quotes(ws[1..])
  }

  lemma {:induction false} QuotesBound(ws: seq<Worker>)
    ensures Quotes(ws) <= |ws|
  {
    if ws != [] { QuotesBound(ws[1..]); }
  }

  lemma BoundedConcurrency(search: Search, steps: seq<Step>)
    ensures Quotes(Run(search, steps).workers) <= search.concurrency
  {
    RunInv(search, steps);
    QuotesBound(Run(search, steps).workers);
  }
}
