// The balances a swap must leave alone, computed twice: the engine's preserved probes and the
// terminal's receipt obligations are the same set.
module Protection {
  import opened Messages
  import opened Sorting
  import opened PathQuotes
  import opened Paths
  import opened Policy
  import opened Executor
  import opened Routers
  import A = Accounting
  import opened Agreement

  // The caller's own input and output.
  function Own(p: Terms): set<BalanceProbe> {
    {BalanceProbe(p.tokenIn, p.recipient), BalanceProbe(p.tokenOut, p.recipient)}
  }

  // ---------- one route ----------

  lemma MembersConcat<T>(a: seq<T>, b: seq<T>)
    ensures Members(a + b) == Members(a) + Members(b)
  {}

  lemma TokenTouchesAre(p: Terms, token: Address, executor: Address, router: Address)
    ensures Members(TokenTouches(p, token, executor, router)) ==
            Pairs([token], [p.recipient, executor, router]) - Own(p)
  {
    var probes := TokenTouches(p, token, executor, router);
    assert probes == Kept(p, token, executor) + Kept(p, token, router) + Kept(p, token, p.recipient);
    forall b: BalanceProbe
      ensures b in Members(probes) <==> b in Pairs([token], [p.recipient, executor, router]) - Own(p)
    {
      assert b in Members(probes) <==>
             b in Kept(p, token, executor) || b in Kept(p, token, router) || b in Kept(p, token, p.recipient);
    }
  }

  lemma {:induction false} PathTouchesAre(p: Terms, tokens: seq<Address>, executor: Address, router: Address)
    ensures Members(PathTouches(p, tokens, executor, router)) ==
            Pairs(tokens, [p.recipient, executor, router]) - Own(p)
  {
    if tokens != [] {
      hide TokenTouches, Own, Members;
      var n := |tokens| - 1;
      PathTouchesAre(p, tokens[..n], executor, router);
      TokenTouchesAre(p, tokens[n], executor, router);
      MembersConcat(PathTouches(p, tokens[..n], executor, router), TokenTouches(p, tokens[n], executor, router));
      PairsStep(tokens, [p.recipient, executor, router]);
    }
  }

  lemma PairsStep(tokens: seq<Address>, owners: seq<Address>)
    requires tokens != []
    ensures Pairs(tokens, owners) == Pairs(tokens[..|tokens| - 1], owners) + Pairs([tokens[|tokens| - 1]], owners)
  {
    assert tokens == tokens[..|tokens| - 1] + [tokens[|tokens| - 1]];
  }

  // Leg by leg or token by token, a connected route covers the same pairs.
  lemma {:induction false} LegPairsArePathPairs(legs: seq<Leg>, owners: seq<Address>)
    requires legs != [] && Connected(legs)
    ensures LegPairs(legs, owners) == Pairs(Tokens(legs), owners)
  {
    var n := |legs| - 1;
    var last := legs[n];
    assert LegPairs(legs, owners) == LegPairs(legs[..n], owners) + Pairs([last.tokenIn, last.tokenOut], owners);
    if n == 0 {
      assert legs[..n] == [];
      assert Tokens(legs) == [last.tokenIn, last.tokenOut];
    } else {
      var init := legs[..n];
      forall i | 0 < i < |init| ensures init[i - 1].tokenOut == init[i].tokenIn {
        assert legs[i - 1].tokenOut == legs[i].tokenIn;
      }
      LegPairsArePathPairs(init, owners);
      assert Tokens(legs) == Tokens(init) + [last.tokenOut];
      assert Tokens(init)[n - 1 + 1] == init[n - 1].tokenOut;
      assert legs[n - 1].tokenOut == legs[n].tokenIn;
      assert last.tokenIn in Tokens(init);
      PairsCovered(Tokens(init), last.tokenIn, last.tokenOut, owners);
    }
  }

  lemma PairsCovered(tokens: seq<Address>, known: Address, token: Address, owners: seq<Address>)
    requires known in tokens
    ensures Pairs(tokens, owners) + Pairs([known, token], owners) == Pairs(tokens + [token], owners)
  {}

  // ---------- whole plans ----------

  // Both sides resolve an allocation's router alike.
  ghost predicate SameRouters(e: ExecutorTrust, allocations: seq<QuotedAllocation>, routers: map<string, Address>) {
    forall i :: 0 <= i < |allocations| ==>
      RouterOf(routers, allocations[i]) == RouterFor(e, allocations[i])
  }

  ghost predicate AllConnected(allocations: seq<QuotedAllocation>) {
    forall i :: 0 <= i < |allocations| ==>
      allocations[i].route.Some? && allocations[i].route.value.legs != [] && Connected(allocations[i].route.value.legs)
  }

  lemma {:induction false} PlanTouchesArePlanPairs(
      e: ExecutorTrust, p: Terms, allocations: seq<QuotedAllocation>, routers: map<string, Address>)
    requires SameRouters(e, allocations, routers) && AllConnected(allocations)
    ensures Members(PlanTouches(e, p, allocations)) ==
            PlanPairs(allocations, p.recipient, e.address, routers) - Own(p)
  {
    hide RouterOf, RouterFor, LegPairs, PathTouches, Own, Members, Tokens, Connected;
    if allocations != [] {
      var n := |allocations| - 1;
      var init, last := allocations[..n], allocations[n];
      assert SameRouters(e, init, routers) && AllConnected(init);
      PlanTouchesArePlanPairs(e, p, init, routers);
      var legs, router := last.route.value.legs, RouterFor(e, last);
      PathTouchesAre(p, Tokens(legs), e.address, router);
      LegPairsArePathPairs(legs, [p.recipient, e.address, router]);
      MembersConcat(PlanTouches(e, p, init), AllocationTouches(e, p, last));
    } else {
      NoTouches(e, p);
    }
  }

  lemma NoTouches(e: ExecutorTrust, p: Terms)
    ensures Members(PlanTouches(e, p, [])) == {}
  {}

  // A plan of connected routes touches, for every token on the way, the balances of the recipient, the executor and
  // the router of the route, and no other; all but the recipient's own input and output.
  lemma {:induction false} TouchedExactly(e: ExecutorTrust, p: Terms, allocations: seq<QuotedAllocation>, b: BalanceProbe)
    requires AllConnected(allocations)
    ensures b in PlanTouches(e, p, allocations) <==>
            && !(b.owner == p.recipient && (b.token == p.tokenIn || b.token == p.tokenOut))
            && exists i :: 0 <= i < |allocations| && TouchedBy(e, p, allocations[i], b)
  {
    hide PathTouches, RouterFor, Tokens, Connected;
    if allocations != [] {
      var n := |allocations| - 1;
      var init, last := allocations[..n], allocations[n];
      assert AllConnected(init);
      TouchedExactly(e, p, init, b);
      PathTouchesAre(p, Tokens(last.route.value.legs), e.address, RouterFor(e, last));
      var late := AllocationTouches(e, p, last);
      assert b in Members(late) <==> b in late;
      assert b in PlanTouches(e, p, allocations) <==> b in PlanTouches(e, p, init) || b in late;
      TouchedByIsAPair(e, p, last, b);
      if exists i :: 0 <= i < |init| && TouchedBy(e, p, init[i], b) {
        var i :| 0 <= i < |init| && TouchedBy(e, p, init[i], b);
        assert TouchedBy(e, p, allocations[i], b);
      }
      if i :| 0 <= i < |allocations| && TouchedBy(e, p, allocations[i], b) {
        assert i < n ==> TouchedBy(e, p, init[i], b);
      }
    }
  }

  lemma TouchedByIsAPair(e: ExecutorTrust, p: Terms, a: QuotedAllocation, b: BalanceProbe)
    requires a.route.Some? && a.route.value.legs != []
    ensures TouchedBy(e, p, a, b) <==>
            b in Pairs(Tokens(a.route.value.legs), [p.recipient, e.address, RouterFor(e, a)])
  {
    var legs := a.route.value.legs;
    var tokens := Tokens(legs);
    if b.token in tokens {
      var k :| 0 <= k < |tokens| && tokens[k] == b.token;
      if k > 0 { assert tokens[k - 1 + 1] == legs[k - 1].tokenOut; }
    }
    if j :| 0 <= j < |legs| && b.token == legs[j].tokenOut { assert tokens[j + 1] == b.token; }
    assert tokens[0] == legs[0].tokenIn;
  }

  predicate TouchedBy(e: ExecutorTrust, p: Terms, a: QuotedAllocation, b: BalanceProbe) {
    && a.route.Some? && a.route.value.legs != []
    && (b.owner == p.recipient || b.owner == e.address
        || b.owner == (if a.route.value.deploymentId in e.venues then e.venues[a.route.value.deploymentId].router else 0))
    && (b.token == a.route.value.legs[0].tokenIn
        || exists j :: 0 <= j < |a.route.value.legs| && b.token == a.route.value.legs[j].tokenOut)
  }

  lemma RoutersMatch(chain: Chain, e: ExecutorTrust, allocations: seq<QuotedAllocation>)
    requires SameExecutor(chain, e)
    requires forall i :: 0 <= i < |allocations| ==> allocations[i].route.Some? && DeploymentOf(allocations[i]) in e.venues
    ensures SameRouters(e, allocations, RouterMap(chain, allocations))
  {
    forall i | 0 <= i < |allocations|
      ensures RouterOf(RouterMap(chain, allocations), allocations[i]) == RouterFor(e, allocations[i])
    {
      assert allocations[i].route.value.deploymentId in IdsOf(allocations);
    }
  }

  // For connected allocations of configured venues: the engine's preserved probes have no repeats,
  // leave out exactly the caller's input and output, and are the terminal's touched pairs; and every
  // hop's allowance from the executor to its router is listed for clearing.
  lemma ProtectedPairsAgree(chain: Chain, e: ExecutorTrust, p: Terms, plan: Plan)
    requires SameExecutor(chain, e) && ExecutorPlanFor(chain, p, plan) && AllConnected(p.allocations)
    requires forall i :: 0 <= i < |p.allocations| ==>
               DeploymentOf(p.allocations[i]) in e.venues &&
               Spans(p.allocations[i].route.value.legs, p.tokenIn, p.tokenOut)
    ensures Distinct(plan.checks.preserve)
    ensures Members(plan.checks.preserve) == Members(PlanTouches(e, p, p.allocations))
    ensures Members(plan.checks.preserve) !! Own(p) && Own(p) == {plan.checks.input, plan.checks.output}
    ensures forall a, leg :: a in p.allocations && leg in LegsOf(a) ==>
              AllowanceProbe(leg.tokenIn, e.address, RouterFor(e, a)) in plan.checks.clearAllowances
  {
    hide PlanPairs, PlanTouches, PackedAllocations, AmountOf, RouterMap, PlanClears, Connected, RouterOf, RouterFor;
    var routers := RouterMap(chain, p.allocations);
    RoutersMatch(chain, e, p.allocations);
    PlanTouchesArePlanPairs(e, p, p.allocations, routers);
    assert DeploymentOf(p.allocations[0]) in e.venues;
    DistinctTail(plan.checks.input, plan.checks.output, plan.checks.preserve);
    forall a, leg | a in p.allocations && leg in LegsOf(a)
      ensures AllowanceProbe(leg.tokenIn, e.address, RouterFor(e, a)) in plan.checks.clearAllowances
    {
      EveryHopIsCleared(p.allocations, e.address, routers, a, leg);
      var i :| 0 <= i < |p.allocations| && p.allocations[i] == a;
      assert RouterOf(routers, p.allocations[i]) == RouterFor(e, p.allocations[i]);
    }
  }

  lemma DistinctTail<T>(a: T, b: T, s: seq<T>)
    requires Distinct([a, b] + s)
    ensures Distinct(s)
  {
    var all := [a, b] + s;
    forall i, j | 0 <= i < j < |s| ensures s[i] != s[j] { assert all[i + 2] != all[j + 2]; }
  }

  // The intermediate tokens of a plan are the middle tokens of its two-legged routes.
  lemma {:induction false} IntermediatesExactly(allocations: seq<QuotedAllocation>, t: Address)
    requires forall i :: 0 <= i < |allocations| ==>
               allocations[i].route.Some? && 1 <= |allocations[i].route.value.legs| <= 2
    ensures t in PlanIntermediates(allocations) <==>
            exists i :: 0 <= i < |allocations| && MeetsAt(allocations[i], t)
  {
    hide AddIntermediates;
    if allocations != [] {
      var n := |allocations| - 1;
      var init, last := allocations[..n], allocations[n];
      IntermediatesExactly(init, t);
      MiddleAdded(PlanIntermediates(init), last.route.value.legs, t);
      if i :| 0 <= i < |init| && MeetsAt(init[i], t) { assert MeetsAt(allocations[i], t); }
      if i :| 0 <= i < |allocations| && MeetsAt(allocations[i], t) { assert i < n ==> MeetsAt(init[i], t); }
    }
  }

  predicate MeetsAt(a: QuotedAllocation, t: Address) {
    a.route.Some? && |a.route.value.legs| == 2 && a.route.value.legs[0].tokenOut == t
  }

  lemma MiddleAdded(seen: seq<Address>, legs: seq<Leg>, t: Address)
    requires 1 <= |legs| <= 2
    ensures t in AddIntermediates(seen, legs) <==> t in seen || (|legs| == 2 && t == legs[0].tokenOut)
  {
    if |legs| == 2 { assert |legs[1..]| == 1; }
  }

  // The intermediate balances the terminal also reports are among those it requires untouched.
  lemma {:induction false} IntermediatesAreTouched(e: ExecutorTrust, p: Terms, allocations: seq<QuotedAllocation>)
    requires AllConnected(allocations)
    requires forall i :: 0 <= i < |allocations| ==>
               NoCycle(Tokens(allocations[i].route.value.legs)) &&
               Spans(allocations[i].route.value.legs, p.tokenIn, p.tokenOut)
    ensures forall t :: t in PlanIntermediates(allocations) ==>
              BalanceProbe(t, e.address) in PlanTouches(e, p, allocations)
  {
    hide Spans, NoCycle, Tokens, PathTouches, RouterFor, AddIntermediates;
    if allocations != [] {
      var n := |allocations| - 1;
      var init, last := allocations[..n], allocations[n];
      assert AllConnected(init);
      forall i | 0 <= i < |init|
        ensures NoCycle(Tokens(init[i].route.value.legs)) && Spans(init[i].route.value.legs, p.tokenIn, p.tokenOut)
      {
        assert init[i] == allocations[i];
      }
      IntermediatesAreTouched(e, p, init);
      forall t | t in PlanIntermediates(allocations)
        ensures BalanceProbe(t, e.address) in PlanTouches(e, p, allocations)
      {
        if t !in PlanIntermediates(init) {
          NewIntermediate(e, p, PlanIntermediates(init), last.route.value.legs, RouterFor(e, last), t);
        }
      }
    }
  }

  lemma NewIntermediate(
      e: ExecutorTrust, p: Terms, seen: seq<Address>, legs: seq<Leg>, router: Address, t: Address)
    requires legs != [] && Spans(legs, p.tokenIn, p.tokenOut) && NoCycle(Tokens(legs))
    requires t !in seen && t in AddIntermediates(seen, legs)
    ensures BalanceProbe(t, e.address) in PathTouches(p, Tokens(legs), e.address, router)
  {
    var tokens := Tokens(legs);
    assert |legs| == 2;
    assert legs[1..][1..] == [] && |legs[1..]| == 1;
    assert t == legs[0].tokenOut;
    assert tokens[0 + 1] == t && tokens[0] == p.tokenIn && tokens[1 + 1] == p.tokenOut;
    PathTouchesAre(p, tokens, e.address, router);
    assert t in tokens;
    assert BalanceProbe(t, e.address) in Pairs(tokens, [p.recipient, e.address, router]);
    assert BalanceProbe(t, e.address) in Members(PathTouches(p, tokens, e.address, router));
  }

  // ---------- direct routes ----------

  // A direct route's two sides match outright, so the simulation and the receipt check agree on it.
  lemma DirectProtectionMatches(d: DirectPreparer, p: Terms, amountIn: nat, minimum: nat)
    requires p.route.Some? && Routable(d.encoder, p.route.value.legs)
    requires p.route.value.legs[0].tokenIn == p.tokenIn
    requires p.route.value.legs[|p.route.value.legs| - 1].tokenOut == p.tokenOut
    ensures A.Matching(
              DirectPlan(d, p).checks,
              A.Obligations(p.tokenIn, p.tokenOut, p.recipient, amountIn, minimum,
                            Intermediate(p.route.value.legs, d.target), []))
  {
    hide PathBytes, RouterCall, AmountOf;
    var legs := p.route.value.legs;
    var here := Intermediate(legs, d.target);
    if |legs| == 2 { assert here == [BalanceProbe(legs[0].tokenOut, d.target)]; } else { assert here == []; }
  }
}
