// The engine's stateful candidate searches: the fee iterator over several deployments and the
// Slipstream closure with its once-only origin check, both against the plain enumeration.
module Candidates {
  import opened Messages
  import opened Sorting
  import opened Enumeration

  // ---------- positions of the odometer ----------

  // The wheels never rest past their last notch.
  predicate Placed(d: Deployment, middles: seq<Address>, direct: nat, middle: nat, first: nat, second: nat) {
    && direct <= |d.selectors|
    && middle <= |middles|
    && (middle < |middles| ==> first < |d.selectors| && second < |d.selectors|)
    && (middle == |middles| ==> first == 0 && second == 0)
  }

  ghost function Ahead(d: Deployment, middles: seq<Address>, direct: nat, middle: nat, first: nat, second: nat)
    : seq<Path>
    requires Placed(d, middles, direct, middle, first, second)
  {
    DirectFrom(d, direct) +
    if middle == |middles| then []
    else SecondsFrom(d, middles[middle], first, second) + FirstsFrom(d, middles[middle], first + 1) +
         MiddlesFrom(d, middles, middle + 1)
  }

  // With every wheel at zero, everything is ahead.
  lemma AheadAtStart(d: Deployment, middles: seq<Address>)
    requires middles == [] || d.selectors != []
    ensures Placed(d, middles, 0, 0, 0, 0)
    ensures Ahead(d, middles, 0, 0, 0, 0) == PathsOf(d, middles)
  {
    if middles != [] {
      assert FirstsFrom(d, middles[0], 0) == SecondsFrom(d, middles[0], 0, 0) + FirstsFrom(d, middles[0], 1);
    }
  }

  lemma AheadDirect(d: Deployment, middles: seq<Address>, direct: nat, middle: nat, first: nat, second: nat)
    requires Placed(d, middles, direct, middle, first, second) && direct < |d.selectors|
    ensures Ahead(d, middles, direct, middle, first, second) ==
            [Direct(d.id, d.selectors[direct])] + Ahead(d, middles, direct + 1, middle, first, second)
  {}

  lemma AheadAtEnd(d: Deployment, middles: seq<Address>)
    ensures Placed(d, middles, |d.selectors|, |middles|, 0, 0)
    ensures Ahead(d, middles, |d.selectors|, |middles|, 0, 0) == []
  {}

  lemma AheadVia(d: Deployment, middles: seq<Address>, middle: nat, first: nat, second: nat)
    requires Placed(d, middles, |d.selectors|, middle, first, second) && middle < |middles|
    ensures var n := |d.selectors|;
            var head := Via(d.id, d.selectors[first], middles[middle], d.selectors[second]);
            var here := Ahead(d, middles, n, middle, first, second);
            if second + 1 < n then
              Placed(d, middles, n, middle, first, second + 1) &&
              here == [head] + Ahead(d, middles, n, middle, first, second + 1)
            else if first + 1 < n then
              Placed(d, middles, n, middle, first + 1, 0) &&
              here == [head] + Ahead(d, middles, n, middle, first + 1, 0)
            else
              Placed(d, middles, n, middle + 1, 0, 0) &&
              here == [head] + Ahead(d, middles, n, middle + 1, 0, 0)
  {
    var n, m := |d.selectors|, middles[middle];
    var head := Via(d.id, d.selectors[first], m, d.selectors[second]);
    var later := FirstsFrom(d, m, first + 1) + MiddlesFrom(d, middles, middle + 1);
    assert DirectFrom(d, n) == [];
    assert Ahead(d, middles, n, middle, first, second) == SecondsFrom(d, m, first, second) + later;
    assert SecondsFrom(d, m, first, second) == [head] + SecondsFrom(d, m, first, second + 1);
    assert Ahead(d, middles, n, middle, first, second) == [head] + (SecondsFrom(d, m, first, second + 1) + later);
    if second + 1 < n {
      assert Ahead(d, middles, n, middle, first, second + 1) == SecondsFrom(d, m, first, second + 1) + later;
    } else if first + 1 < n {
      assert FirstsFrom(d, m, first + 1) == SecondsFrom(d, m, first + 1, 0) + FirstsFrom(d, m, first + 2);
      assert Ahead(d, middles, n, middle, first + 1, 0) == later;
    } else {
      assert FirstsFrom(d, m, first + 1) == [];
      if middle + 1 < |middles| {
        AheadAtStart(d, middles[middle + 1..]);
        assert FirstsFrom(d, middles[middle + 1], 0) ==
               SecondsFrom(d, middles[middle + 1], 0, 0) + FirstsFrom(d, middles[middle + 1], 1);
      }
      assert Ahead(d, middles, n, middle + 1, 0, 0) == later;
    }
  }

  lemma HeadFirst(head: Path, a: seq<Path>, b: seq<Path>)
    ensures [head] + a + b == [head] + (a + b) && ([head] + (a + b))[1..] == a + b
  {}

  // ---------- the configuration both searches are built from ----------

  // Intermediates are the configured tokens other than the pair itself, in text order.
  method Intermediates(tokens: seq<Address>, tokenIn: Address, tokenOut: Address, textOrder: Address -> int)
    returns (middles: seq<Address>)
    requires Distinct(tokens) && KeysApart(tokens, textOrder)
    ensures Increasing(middles, textOrder) && Distinct(middles)
    ensures forall a :: a in middles <==> a in tokens && a != tokenIn && a != tokenOut
  {
    var kept: seq<Address> := [];
    var i := 0;
    while i < |tokens|
      invariant i <= |tokens|
      invariant forall a :: a in kept <==> a in tokens[..i] && a != tokenIn && a != tokenOut
      invariant Distinct(kept)
    {
      var a := tokens[i];
      assert tokens[..i + 1] == tokens[..i] + [a];
      assert a !in tokens[..i];
      if a != tokenIn && a != tokenOut { kept := kept + [a]; }
      i := i + 1;
    }
    assert tokens[..|tokens|] == tokens;
    SortIncreasing(kept, textOrder);
    SortDistinct(kept, textOrder);
    forall a { SortMember(kept, textOrder, a); }
    middles := SortBy(kept, textOrder);
  }

  // A map's keys come out in any order; sorting makes the search order the same every time.
  method SortedKeys(configured: map<string, seq<int>>, textOrder: string -> int) returns (ids: seq<string>)
    requires forall a, b :: a in configured && b in configured && a != b ==> textOrder(a) != textOrder(b)
    ensures Increasing(ids, textOrder) && Distinct(ids)
    ensures forall id :: id in ids <==> id in configured
  {
    ids := [];
    var left := configured.Keys;
    while left != {}
      invariant left <= configured.Keys
      invariant forall id :: id in ids <==> id in configured && id !in left
      invariant Distinct(ids)
      decreases |left|
    {
      var id :| id in left;
      ids, left := ids + [id], left - {id};
    }
    SortIncreasing(ids, textOrder);
    SortDistinct(ids, textOrder);
    forall id { SortMember(ids, textOrder, id); }
    ids := SortBy(ids, textOrder);
  }

  function Ascending(selectors: seq<int>): seq<int> { SortBy(selectors, (x: int) => x) }

  // Deployments in text order of their identifiers, each with its selectors ascending.
  method OrderedDeployments(configured: map<string, seq<int>>, textOrder: string -> int)
    returns (ds: seq<Deployment>)
    requires forall id :: id in configured ==> Distinct(configured[id])
    requires forall a, b :: a in configured && b in configured && a != b ==> textOrder(a) != textOrder(b)
    ensures Configured(ds, configured, textOrder)
  {
    hide SortBy;
    var ids := SortedKeys(configured, textOrder);
    ds := [];
    while |ds| < |ids|
      invariant |ds| <= |ids|
      invariant forall j :: 0 <= j < |ds| ==> ds[j] == Deployment(ids[j], Ascending(configured[ids[j]]))
      invariant forall j :: 0 <= j < |ds| ==> Distinct(ds[j].selectors)
    {
      var id := ids[|ds|];
      assert id in ids;
      SortDistinct(configured[id], (x: int) => x);
      ds := ds + [Deployment(id, Ascending(configured[id]))];
    }
    ConfiguredFromIds(ds, ids, configured, textOrder);
  }

  // The one list a configuration is searched in.
  ghost predicate Configured(ds: seq<Deployment>, configured: map<string, seq<int>>, textOrder: string -> int) {
    && (forall i, j :: 0 <= i < j < |ds| ==> textOrder(ds[i].id) < textOrder(ds[j].id))
    && (forall id :: id in configured ==> exists j :: 0 <= j < |ds| && ds[j].id == id)
    && (forall j :: 0 <= j < |ds| ==>
          && ds[j].id in configured && ds[j].selectors == Ascending(configured[ds[j].id])
          && Distinct(ds[j].selectors))
  }

  lemma ConfiguredFromIds(
      ds: seq<Deployment>, ids: seq<string>, configured: map<string, seq<int>>, textOrder: string -> int)
    requires Increasing(ids, textOrder) && (forall id :: id in ids <==> id in configured) && |ds| == |ids|
    requires forall j :: 0 <= j < |ds| ==>
               ids[j] in configured && ds[j] == Deployment(ids[j], Ascending(configured[ids[j]]))
    requires forall j :: 0 <= j < |ds| ==> Distinct(ds[j].selectors)
    ensures Configured(ds, configured, textOrder)
  {
    hide Ascending;
    forall id | id in configured ensures exists j :: 0 <= j < |ds| && ds[j].id == id {
      assert id in ids;
      var j :| 0 <= j < |ids| && ids[j] == id;
      assert ds[j].id == id;
    }
  }

  // The selectors of each deployment are the configured ones, from the smallest up.
  lemma SelectorsAscend(ds: seq<Deployment>, configured: map<string, seq<int>>, textOrder: string -> int, k: nat)
    requires Configured(ds, configured, textOrder) && k < |ds|
    ensures ds[k].id in configured && multiset(ds[k].selectors) == multiset(configured[ds[k].id])
    ensures forall i, j :: 0 <= i < j < |ds[k].selectors| ==> ds[k].selectors[i] < ds[k].selectors[j]
  {
    SortFacts(configured[ds[k].id], (x: int) => x);
    var selectors := ds[k].selectors;
    forall i, j | 0 <= i < j < |selectors| ensures selectors[i] < selectors[j] {
      assert ((x: int) => x)(selectors[i]) <= ((x: int) => x)(selectors[j]);
    }
  }

  lemma NonemptySelectors(ds: seq<Deployment>, configured: map<string, seq<int>>, textOrder: string -> int)
    requires Configured(ds, configured, textOrder) && forall id :: id in configured ==> configured[id] != []
    ensures forall d :: d in ds ==> d.selectors != []
  {
    forall d | d in ds ensures d.selectors != [] {
      var j :| 0 <= j < |ds| && ds[j] == d;
      SortFacts(configured[ds[j].id], (x: int) => x);
    }
  }

  // ---------- the fee iterator ----------

  class CandidateIterator {
    var deployments: seq<Deployment>
    var intermediates: seq<Address>
    var tokenIn: Address
    var tokenOut: Address
    var deployment: nat
    var direct: nat
    var middle: nat
    var first: nat
    var second: nat
    var index: nat

    ghost predicate Valid()
      reads this
    {
      && (intermediates == [] || forall d :: d in deployments ==> d.selectors != [])
      && deployment <= |deployments|
      && (deployment < |deployments| ==>
            Placed(deployments[deployment], intermediates, direct, middle, first, second))
      && (deployment == |deployments| ==> direct == middle == first == second == 0)
    }

    ghost function Remaining(): seq<Path>
      requires Valid()
      reads this
    {
      if deployment == |deployments| then []
      else Ahead(deployments[deployment], intermediates, direct, middle, first, second) +
           PathsFrom(deployments, intermediates, deployment + 1)
    }

    constructor (configured: map<string, seq<int>>, tokens: seq<Address>, input: Address, output: Address,
                 textOrder: string -> int, hexOrder: Address -> int)
      requires forall id :: id in configured ==> Distinct(configured[id]) && configured[id] != []
      requires forall a, b :: a in configured && b in configured && a != b ==> textOrder(a) != textOrder(b)
      requires Distinct(tokens) && KeysApart(tokens, hexOrder)
      ensures Valid() && index == 0 && tokenIn == input && tokenOut == output
      ensures Remaining() == PathsFrom(deployments, intermediates, 0)
      ensures Increasing(intermediates, hexOrder) && Distinct(intermediates)
      ensures forall a :: a in intermediates <==> a in tokens && a != input && a != output
      ensures Configured(deployments, configured, textOrder)
    {
      hide Configured, PathsFrom, Ahead, Increasing, Distinct, KeysApart;
      var middles := Intermediates(tokens, input, output, hexOrder);
      var ordered := OrderedDeployments(configured, textOrder);
      NonemptySelectors(ordered, configured, textOrder);
      deployments, intermediates, tokenIn, tokenOut := ordered, middles, input, output;
      deployment, direct, middle, first, second, index := 0, 0, 0, 0, 0, 0;
      new;
      StartNext(PathsFrom(deployments, intermediates, 0));
    }

    // The head of what remains, under the next index; nothing once the search context is done.
    method Next(expired: bool, hex: Address -> string) returns (r: Option<(nat, Candidate)>)
      requires Valid()
      modifies this
      ensures Valid()
      ensures deployments == old(deployments) && intermediates == old(intermediates)
      ensures tokenIn == old(tokenIn) && tokenOut == old(tokenOut)
      ensures expired || old(Remaining()) == [] ==>
                r == None && Remaining() == old(Remaining()) && index == old(index)
      ensures !expired && old(Remaining()) != [] ==>
                && r == Some((old(index), CandidateOf(old(Remaining())[0], tokenIn, tokenOut, hex)))
                && Remaining() == old(Remaining())[1..] && index == old(index) + 1
    {
      hide *;
      if expired { return None; }
      ghost var all := Remaining();
      ghost var fixed := (deployments, intermediates, tokenIn, tokenOut, index);
      while deployment < |deployments|
        invariant Valid() && Remaining() == all
        invariant fixed == (deployments, intermediates, tokenIn, tokenOut, index)
        decreases |deployments| - deployment
      {
        if direct < |deployments[deployment].selectors| {
          var taken := TakeDirect(hex);
          return Some(taken);
        }
        if middle < |intermediates| {
          var taken := TakeVia(hex);
          return Some(taken);
        }
        Exhausted();
        deployment := deployment + 1;
        direct, middle, first, second := 0, 0, 0, 0;
        StartNext(all);
      }
      NothingLeft();
      return None;
    }

    method TakeDirect(hex: Address -> string) returns (r: (nat, Candidate))
      requires Valid() && deployment < |deployments| && direct < |deployments[deployment].selectors|
      modifies this`direct, this`index
      ensures Valid() && old(Remaining()) != [] && Remaining() == old(Remaining())[1..]
      ensures r == (old(index), CandidateOf(old(Remaining())[0], tokenIn, tokenOut, hex)) && index == old(index) + 1
    {
      hide DirectFrom, SecondsFrom, FirstsFrom, MiddlesFrom, PathsFrom, PathsOf, Ahead, CandidateOf;
      var d := deployments[deployment];
      var fee := d.selectors[direct];
      AheadDirect(d, intermediates, direct, middle, first, second);
      ghost var later := PathsFrom(deployments, intermediates, deployment + 1);
      direct := direct + 1;
      HeadFirst(Direct(d.id, fee), Ahead(d, intermediates, direct, middle, first, second), later);
      assert old(Remaining()) == [Direct(d.id, fee)] + Remaining();
      r := Take(CandidateOf(Direct(d.id, fee), tokenIn, tokenOut, hex));
    }

    method TakeVia(hex: Address -> string) returns (r: (nat, Candidate))
      requires Valid() && deployment < |deployments| && middle < |intermediates|
      requires direct >= |deployments[deployment].selectors|
      modifies this`middle, this`first, this`second, this`index
      ensures Valid() && old(Remaining()) != [] && Remaining() == old(Remaining())[1..]
      ensures r == (old(index), CandidateOf(old(Remaining())[0], tokenIn, tokenOut, hex)) && index == old(index) + 1
    {
      hide DirectFrom, SecondsFrom, FirstsFrom, MiddlesFrom, PathsFrom, PathsOf, Ahead, CandidateOf;
      var d := deployments[deployment];
      var a, b, via := d.selectors[first], d.selectors[second], intermediates[middle];
      AheadVia(d, intermediates, middle, first, second);
      second := second + 1;
      if second == |d.selectors| {
        second := 0;
        first := first + 1;
        if first == |d.selectors| {
          first := 0;
          middle := middle + 1;
        }
      }
      HeadFirst(Via(d.id, a, via, b), Ahead(d, intermediates, direct, middle, first, second),
                PathsFrom(deployments, intermediates, deployment + 1));
      assert old(Remaining()) == [Via(d.id, a, via, b)] + Remaining();
      r := Take(CandidateOf(Via(d.id, a, via, b), tokenIn, tokenOut, hex));
    }

    lemma NothingLeft()
      requires Valid() && deployment >= |deployments|
      ensures Remaining() == []
    {}

    // A deployment with no wheel left to turn is finished.
    lemma Exhausted()
      requires Valid() && deployment < |deployments|
      requires direct >= |deployments[deployment].selectors| && middle >= |intermediates|
      ensures deployment + 1 <= |deployments|
      ensures intermediates == [] || forall d :: d in deployments ==> d.selectors != []
      ensures Remaining() == PathsFrom(deployments, intermediates, deployment + 1)
    {
      AheadAtEnd(deployments[deployment], intermediates);
    }

    lemma StartNext(later: seq<Path>)
      requires intermediates == [] || forall d :: d in deployments ==> d.selectors != []
      requires deployment <= |deployments| && direct == middle == first == second == 0
      requires later == PathsFrom(deployments, intermediates, deployment)
      ensures Valid() && Remaining() == later
    {
      if deployment < |deployments| { AheadAtStart(deployments[deployment], intermediates); }
    }

    method Take(value: Candidate) returns (r: (nat, Candidate))
      modifies this`index
      ensures r == (old(index), value) && index == old(index) + 1
    {
      r := (index, value);
      index := index + 1;
    }
  }

  // ---------- the Slipstream search ----------

  class SlipstreamSearch {
    var source: Deployment
    var intermediates: seq<Address>
    var tokenIn: Address
    var tokenOut: Address
    var direct: nat
    var middle: nat
    var first: nat
    var second: nat
    var originChecked: bool
    var originError: Option<string>

    ghost predicate Valid()
      reads this
    {
      && (intermediates == [] || source.selectors != [])
      && Placed(source, intermediates, direct, middle, first, second)
      && (!originChecked ==> originError.None?)
    }

    ghost function Remaining(): seq<Path>
      requires Valid()
      reads this
    {
      Ahead(source, intermediates, direct, middle, first, second)
    }

    constructor (id: string, spacings: seq<int>, tokens: seq<Address>, input: Address, output: Address,
                 hexOrder: Address -> int)
      requires spacings != [] && Distinct(spacings)
      requires Distinct(tokens) && KeysApart(tokens, hexOrder)
      ensures Valid() && !originChecked && tokenIn == input && tokenOut == output
      ensures source == Deployment(id, SortBy(spacings, (x: int) => x)) && Distinct(source.selectors)
      ensures Increasing(intermediates, hexOrder) && Distinct(intermediates)
      ensures forall a :: a in intermediates <==> a in tokens && a != input && a != output
      ensures Remaining() == PathsOf(source, intermediates)
    {
      var middles := Intermediates(tokens, input, output, hexOrder);
      SortFacts(spacings, (x: int) => x);
      SortDistinct(spacings, (x: int) => x);
      source, intermediates := Deployment(id, SortBy(spacings, (x: int) => x)), middles;
      tokenIn, tokenOut := input, output;
      direct, middle, first, second := 0, 0, 0, 0;
      originChecked, originError := false, None;
      AheadAtStart(Deployment(id, SortBy(spacings, (x: int) => x)), middles);
    }

    method Next(expired: bool, hex: Address -> string) returns (r: Option<Candidate>)
      requires Valid()
      modifies this`direct, this`middle, this`first, this`second
      ensures Valid()
      ensures expired || old(Remaining()) == [] ==> r == None && Remaining() == old(Remaining())
      ensures !expired && old(Remaining()) != [] ==>
                && r == Some(CandidateOf(old(Remaining())[0], tokenIn, tokenOut, hex))
                && Remaining() == old(Remaining())[1..]
    {
      hide DirectFrom, SecondsFrom, FirstsFrom, MiddlesFrom, Ahead, CandidateOf;
      if expired { return None; }
      var n := |source.selectors|;
      if direct < n {
        var s := source.selectors[direct];
        AheadDirect(source, intermediates, direct, middle, first, second);
        direct := direct + 1;
        return Some(CandidateOf(Direct(source.id, s), tokenIn, tokenOut, hex));
      } else if middle < |intermediates| {
        var a, b, via := source.selectors[first], source.selectors[second], intermediates[middle];
        AheadVia(source, intermediates, middle, first, second);
        second := second + 1;
        if second == n {
          second := 0;
          first := first + 1;
          if first == n {
            first := 0;
            middle := middle + 1;
          }
        }
        return Some(CandidateOf(Via(source.id, a, via, b), tokenIn, tokenOut, hex));
      } else {
        AheadAtEnd(source, intermediates);
        return None;
      }
    }

    // The verdict every candidate of this search shares: the first call verifies the quote origin
    // (answer is what the chain would say at this call) and later calls reuse what it found.
    method CheckOrigin(answer: Option<string>) returns (error: Option<string>)
      requires Valid()
      modifies this`originChecked, this`originError
      ensures Valid() && originChecked && originError == error
      ensures error == (if old(originChecked) then old(originError) else answer)
    {
      if !originChecked {
        originError := answer;
        originChecked := true;
      }
      return originError;
    }

    // Any number of candidates, whatever the chain would have answered each of them: the origin is
    // verified once and every candidate gets the first verdict.
    method CheckOriginForAll(answers: seq<Option<string>>) returns (errors: seq<Option<string>>)
      requires Valid() && !originChecked
      modifies this`originChecked, this`originError
      ensures Valid() && |errors| == |answers|
      ensures forall i :: 0 <= i < |errors| ==> errors[i] == answers[0]
    {
      errors := [];
      while |errors| < |answers|
        invariant Valid() && |errors| <= |answers|
        invariant originChecked <==> errors != []
        invariant errors != [] ==> originError == answers[0]
        invariant forall i :: 0 <= i < |errors| ==> errors[i] == answers[0]
      {
        var error := CheckOrigin(answers[|errors|]);
        errors := errors + [error];
      }
    }
  }
}
