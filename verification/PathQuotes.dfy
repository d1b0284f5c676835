// Quoting one path hop by hop at a pinned block. A hop's answer is a function of the pair, the
// amount going in and the selector: the block is pinned, so asking again gives the same answer.
module PathQuotes {
  import opened Messages
  import opened Numerals
  import opened Enumeration
  import opened Candidates

  // Missing: no pool, which is not an error.
  datatype HopQuote = Missing | Failed(reason: string) | Quoted(pool: Address, output: nat)

  type Provider = (Address, Address, nat, int) -> HopQuote

  datatype PathQuote = NoRoute | Broken(reason: string) | Complete(legs: seq<Leg>, output: nat)

  datatype SelectorKind = FeeKind | SpacingKind

  function SelectorOf(kind: SelectorKind, s: int): Selector {
    if kind.FeeKind? && s >= 0 then FeePips(s) else TickSpacing(s)
  }

  function LegOf(kind: SelectorKind, pool: Address, tokenIn: Address, tokenOut: Address, s: int): Leg {
    Leg(pool, tokenIn, tokenOut, SelectorOf(kind, s), false)
  }

  // The whole path read from its first hop.
  ghost function Along(kind: SelectorKind, quote: Provider, tokens: seq<Address>, selectors: seq<int>, amount: nat)
    : PathQuote
    requires |tokens| == |selectors| + 1
    decreases |selectors|
  {
    if selectors == [] then Complete([], amount)
    else
      match quote(tokens[0], tokens[1], amount, selectors[0])
      case Missing => NoRoute
      case Failed(reason) => Broken(reason)
      case Quoted(pool, output) =>
        After([LegOf(kind, pool, tokens[0], tokens[1], selectors[0])],
              Along(kind, quote, tokens[1..], selectors[1..], output))
  }

  ghost function After(legs: seq<Leg>, rest: PathQuote): PathQuote {
    if rest.Complete? then rest.(legs := legs + rest.legs) else rest
  }

  lemma AfterTwice(a: seq<Leg>, b: seq<Leg>, rest: PathQuote)
    ensures After(a, After(b, rest)) == After(a + b, rest)
  {
    if rest.Complete? { assert a + (b + rest.legs) == a + b + rest.legs; }
  }

  method QuotePath(kind: SelectorKind, quote: Provider, tokens: seq<Address>, selectors: seq<int>, amount: nat)
    returns (r: PathQuote)
    requires |tokens| == |selectors| + 1
    ensures r == Along(kind, quote, tokens, selectors, amount)
  {
    var output := amount;
    var legs: seq<Leg> := [];
    var i := 0;
    while i < |selectors|
      invariant i <= |selectors|
      invariant Along(kind, quote, tokens, selectors, amount) ==
                After(legs, Along(kind, quote, tokens[i..], selectors[i..], output))
    {
      ghost var rest := Along(kind, quote, tokens[i..], selectors[i..], output);
      assert tokens[i..][1..] == tokens[i + 1..] && selectors[i..][1..] == selectors[i + 1..];
      match quote(tokens[i], tokens[i + 1], output, selectors[i]) {
      case Missing => return NoRoute;
      case Failed(reason) => return Broken(reason);
      case Quoted(pool, next) =>
        var leg := LegOf(kind, pool, tokens[i], tokens[i + 1], selectors[i]);
        ghost var later := Along(kind, quote, tokens[i + 1..], selectors[i + 1..], next);
        assert rest == After([leg], later);
        AfterTwice(legs, [leg], later);
        output := next;
        legs := legs + [leg];
      }
      i := i + 1;
    }
    return Complete(legs, output);
  }

  // A complete quote follows its path: leg i swaps token i for token i + 1 under selector i.
  ghost predicate Follows(kind: SelectorKind, legs: seq<Leg>, tokens: seq<Address>, selectors: seq<int>) {
    && |tokens| == |selectors| + 1 && |legs| == |selectors|
    && forall i :: 0 <= i < |legs| ==>
         legs[i] == LegOf(kind, legs[i].pool, tokens[i], tokens[i + 1], selectors[i])
  }

  lemma {:induction false} CompleteFollowsItsPath(
      kind: SelectorKind, quote: Provider, tokens: seq<Address>, selectors: seq<int>, amount: nat)
    requires |tokens| == |selectors| + 1
    ensures var r := Along(kind, quote, tokens, selectors, amount);
            r.Complete? ==> Follows(kind, r.legs, tokens, selectors)
    decreases |selectors|
  {
    if selectors != [] {
      var hop := quote(tokens[0], tokens[1], amount, selectors[0]);
      if hop.Quoted? { CompleteFollowsItsPath(kind, quote, tokens[1..], selectors[1..], hop.output); }
    }
  }

  // Each hop is given what the hop before it gave: amounts[i] goes into hop i, for the first k hops of a path.
  ghost predicate Threads(quote: Provider, tokens: seq<Address>, selectors: seq<int>, amounts: seq<nat>, k: nat) {
    && k <= |selectors| && |tokens| == |selectors| + 1 && |amounts| == k + 1
    && forall i :: 0 <= i < k ==>
         var hop := quote(tokens[i], tokens[i + 1], amounts[i], selectors[i]);
         hop.Quoted? && hop.output == amounts[i + 1]
  }

  // A path is quoted completely if every hop, given the output of the hop before it, is; its legs are the pools
  // that answered, between the tokens of the path, under its selectors, and its output is the last hop's.
  lemma {:induction false} ThreadedIsComplete(
      kind: SelectorKind, quote: Provider, tokens: seq<Address>, selectors: seq<int>, amounts: seq<nat>)
    requires Threads(quote, tokens, selectors, amounts, |selectors|)
    ensures
      var r := Along(kind, quote, tokens, selectors, amounts[0]);
      && r.Complete? && r.output == amounts[|selectors|] && |r.legs| == |selectors|
      && forall i :: 0 <= i < |selectors| ==>
           && r.legs[i].pool == quote(tokens[i], tokens[i + 1], amounts[i], selectors[i]).pool
           && r.legs[i].tokenIn == tokens[i] && r.legs[i].tokenOut == tokens[i + 1] && !r.legs[i].hasV4PoolKey
           && (kind.FeeKind? && selectors[i] >= 0 ==> r.legs[i].selector == FeePips(selectors[i]))
           && (kind.SpacingKind? ==> r.legs[i].selector == TickSpacing(selectors[i]))
    decreases |selectors|
  {
    if selectors != [] {
      assert Threads(quote, tokens[1..], selectors[1..], amounts[1..], |selectors| - 1);
      ThreadedIsComplete(kind, quote, tokens[1..], selectors[1..], amounts[1..]);
    }
  }

  // Otherwise it ends as its first hop that is not: without a route where there is no pool, broken where the hop
  // failed.
  lemma {:induction false} EndsAtTheGap(
      kind: SelectorKind, quote: Provider, tokens: seq<Address>, selectors: seq<int>, amounts: seq<nat>, k: nat)
    requires k < |selectors| && Threads(quote, tokens, selectors, amounts, k)
    requires !quote(tokens[k], tokens[k + 1], amounts[k], selectors[k]).Quoted?
    ensures Along(kind, quote, tokens, selectors, amounts[0])
         == match quote(tokens[k], tokens[k + 1], amounts[k], selectors[k])
            case Failed(reason) => Broken(reason)
            case _ => NoRoute
    decreases |selectors|
  {
    if k > 0 {
      assert Threads(quote, tokens[1..], selectors[1..], amounts[1..], k - 1);
      EndsAtTheGap(kind, quote, tokens[1..], selectors[1..], amounts[1..], k - 1);
    }
  }

  // Every path is one of the two.
  lemma {:induction false} ThreadsAsFarAsItGoes(quote: Provider, tokens: seq<Address>, selectors: seq<int>, amount: nat)
    returns (amounts: seq<nat>, k: nat)
    requires |tokens| == |selectors| + 1
    ensures Threads(quote, tokens, selectors, amounts, k) && amounts[0] == amount
    ensures k < |selectors| ==> !quote(tokens[k], tokens[k + 1], amounts[k], selectors[k]).Quoted?
  {
    amounts, k := [amount], 0;
    while k < |selectors| && quote(tokens[k], tokens[k + 1], amounts[k], selectors[k]).Quoted?
      invariant Threads(quote, tokens, selectors, amounts, k) && amounts[0] == amount
    {
      amounts := amounts + [quote(tokens[k], tokens[k + 1], amounts[k], selectors[k]).output];
      k := k + 1;
    }
  }

  // A Slipstream candidate is quoted only if the search's shared origin check passed; answer is what
  // the chain would say about the origin if it were asked at this call.
  method QuoteSlipstream(search: SlipstreamSearch, answer: Option<string>, quote: Provider, c: Candidate, amount: nat)
    returns (r: PathQuote)
    requires search.Valid() && |c.tokens| == |c.selectors| + 1
    modifies search`originChecked, search`originError
    ensures search.Valid() && search.originChecked
    ensures search.originError == (if old(search.originChecked) then old(search.originError) else answer)
    ensures r == if search.originError.Some? then Broken(search.originError.value)
                 else Along(SpacingKind, quote, c.tokens, c.selectors, amount)
  {
    var error := search.CheckOrigin(answer);
    if error.Some? { return Broken(error.value); }
    r := QuotePath(SpacingKind, quote, c.tokens, c.selectors, amount);
  }

  // ---------- quoting an allocation again ----------

  datatype Requoted = Refused(reason: string) | Fresh(route: Route)

  function Tokens(legs: seq<Leg>): (tokens: seq<Address>)
    requires legs != []
    ensures |tokens| == |legs| + 1
    ensures tokens[0] == legs[0].tokenIn && forall i :: 0 <= i < |legs| ==> tokens[i + 1] == legs[i].tokenOut
  {
    [legs[0].tokenIn] + seq(|legs|, i requires 0 <= i < |legs| => legs[i].tokenOut)
  }

  lemma SameTokens(tokens: seq<Address>, legs: seq<Leg>)
    requires legs != [] && |tokens| == |legs| + 1 && tokens[0] == legs[0].tokenIn
    requires forall j :: 0 <= j < |legs| ==> tokens[j + 1] == legs[j].tokenOut
    ensures tokens == Tokens(legs)
  {
    forall j | 0 <= j < |tokens| ensures tokens[j] == Tokens(legs)[j] {
      if j > 0 { assert tokens[j - 1 + 1] == legs[j - 1].tokenOut; }
    }
  }

  // A leg without a fee reads as fee zero.
  function FeeOf(leg: Leg): nat { if leg.selector.FeePips? then leg.selector.fee else 0 }

  function Fees(legs: seq<Leg>): (fees: seq<int>)
    ensures |fees| == |legs|
    ensures forall i :: 0 <= i < |legs| ==> fees[i] == FeeOf(legs[i])
  {
    seq(|legs|, i requires 0 <= i < |legs| => FeeOf(legs[i]))
  }

  method PathOf(legs: seq<Leg>) returns (tokens: seq<Address>, fees: seq<int>)
    requires legs != []
    ensures tokens == Tokens(legs) && fees == Fees(legs)
  {
    tokens, fees := [legs[0].tokenIn], [];
    var i := 0;
    while i < |legs|
      invariant |fees| == i <= |legs| && |tokens| == i + 1 && tokens[0] == legs[0].tokenIn
      invariant forall j :: 0 <= j < i ==> tokens[j + 1] == legs[j].tokenOut
      invariant forall j :: 0 <= j < i ==> fees[j] == FeeOf(legs[j])
    {
      tokens := tokens + [legs[i].tokenOut];
      fees := fees + [FeeOf(legs[i])];
      i := i + 1;
    }
    SameTokens(tokens, legs);
  }

  predicate SamePools(a: seq<Leg>, b: seq<Leg>)
    requires |a| == |b|
  {
    forall i :: 0 <= i < |a| ==> a[i].pool == b[i].pool
  }

  method PoolsUnchanged(legs: seq<Leg>, stored: seq<Leg>) returns (same: bool)
    requires |legs| == |stored|
    ensures same == SamePools(legs, stored)
  {
    var i := 0;
    while i < |legs|
      invariant i <= |legs|
      invariant forall j :: 0 <= j < i ==> legs[j].pool == stored[j].pool
    {
      if legs[i].pool != stored[i].pool { return false; }
      i := i + 1;
    }
    return true;
  }

  // Quotes a stored route's own path for an amount; every pool must be the one already stored.
  method Requote(quote: Provider, route: Route, amount: nat, block: Block) returns (r: Requoted)
    requires route.legs != []
    ensures r.Fresh? <==> Requotable(quote, route, amount)
    ensures r.Fresh? ==>
              var again := Along(FeeKind, quote, Tokens(route.legs), Fees(route.legs), amount);
              r.route == route.(legs := again.legs, amountOut := Print(again.output), block := Some(block))
  {
    hide Along, SamePools, Print, Tokens, Fees;
    var tokens, fees := PathOf(route.legs);
    var quoted := QuotePath(FeeKind, quote, tokens, fees, amount);
    CompleteFollowsItsPath(FeeKind, quote, tokens, fees, amount);
    if !quoted.Complete? || quoted.output == 0 || quoted.output >= UINT256_LIMIT {
      return Refused("executor path could not be quoted");
    }
    var same := PoolsUnchanged(quoted.legs, route.legs);
    if !same { return Refused("executor path pool changed"); }
    return Fresh(route.(legs := quoted.legs, amountOut := Print(quoted.output), block := Some(block)));
  }

  ghost predicate Requotable(quote: Provider, route: Route, amount: nat)
    requires route.legs != []
  {
    var again := Along(FeeKind, quote, Tokens(route.legs), Fees(route.legs), amount);
    && again.Complete? && 0 < again.output < UINT256_LIMIT
    && |again.legs| == |route.legs| && SamePools(again.legs, route.legs)
  }

  // A route can be quoted again exactly if its own tokens and fees, hop after hop from the amount, lead all the
  // way, through the very pools it stores, to an output between one and the largest word.
  lemma RequotableExactly(quote: Provider, route: Route, amount: nat) returns (amounts: seq<nat>, k: nat)
    requires route.legs != []
    ensures Threads(quote, Tokens(route.legs), Fees(route.legs), amounts, k) && amounts[0] == amount
    ensures k < |route.legs| ==>
              !quote(Tokens(route.legs)[k], route.legs[k].tokenOut, amounts[k], FeeOf(route.legs[k])).Quoted?
    ensures Requotable(quote, route, amount) <==>
              && k == |route.legs| && 0 < amounts[k] < UINT256_LIMIT
              && forall i :: 0 <= i < |route.legs| ==>
                   HopAt(quote, route, amounts, i).Quoted? && HopAt(quote, route, amounts, i).pool == route.legs[i].pool
  {
    hide Along;
    amounts, k := ThreadsAsFarAsItGoes(quote, Tokens(route.legs), Fees(route.legs), amount);
    if k < |route.legs| {
      EndsAtTheGap(FeeKind, quote, Tokens(route.legs), Fees(route.legs), amounts, k);
    } else {
      ThreadedIsComplete(FeeKind, quote, Tokens(route.legs), Fees(route.legs), amounts);
      var again := Along(FeeKind, quote, Tokens(route.legs), Fees(route.legs), amount);
      forall i | 0 <= i < |route.legs|
        ensures HopAt(quote, route, amounts, i).Quoted? && HopAt(quote, route, amounts, i).pool == again.legs[i].pool {}
    }
  }

  // What a hop of a stored route answers for an amount.
  function HopAt(quote: Provider, route: Route, amounts: seq<nat>, i: nat): HopQuote
    requires i < |route.legs| && i < |amounts|
  {
    quote(Tokens(route.legs)[i], Tokens(route.legs)[i + 1], amounts[i], Fees(route.legs)[i])
  }

  // A fee route as a search quotes it, for paths of one hop or more.
  ghost predicate QuotedBySearch(quote: Provider, route: Route, tokens: seq<Address>, fees: seq<int>, amount: nat) {
    && |tokens| == |fees| + 1 && fees != [] && (forall f :: f in fees ==> f >= 0)
    && Along(FeeKind, quote, tokens, fees, amount) == Complete(route.legs, Value10(route.amountOut))
    && IsDecimal(route.amountOut) && route.amountOut == Print(Value(route.amountOut))
  }

  function Value10(s: string): nat { if AllDigits(s) then Value(s) else 0 }

  // Asking again at the same block for the same amount changes nothing but the block: the stored
  // legs name the path exactly, so the same hops are quoted.
  lemma RequoteRepeatsTheSearch(quote: Provider, route: Route, tokens: seq<Address>, fees: seq<int>, amount: nat)
    requires QuotedBySearch(quote, route, tokens, fees, amount)
    ensures route.legs != []
    ensures Tokens(route.legs) == tokens && Fees(route.legs) == fees
    ensures Requotable(quote, route, amount) <==> 0 < Value(route.amountOut) < UINT256_LIMIT
    ensures Along(FeeKind, quote, Tokens(route.legs), Fees(route.legs), amount).legs == route.legs
    ensures Print(Along(FeeKind, quote, Tokens(route.legs), Fees(route.legs), amount).output) == route.amountOut
  {
    CompleteFollowsItsPath(FeeKind, quote, tokens, fees, amount);
    assert route.legs[0].tokenIn == tokens[0];
    assert forall i :: 0 <= i < |fees| ==> fees[i] in fees;
    assert Tokens(route.legs) == tokens;
    assert Fees(route.legs) == fees;
  }
}
