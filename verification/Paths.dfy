// Packed route paths: 20-byte addresses with a 3-byte fee or two's-complement int24 spacing between
// them, as the engine appends them byte by byte and as the terminal's encodePacked writes them.
module Paths {
  import opened Messages
  import opened Numerals
  import opened PathQuotes

  const UINT24_LIMIT: nat := 0x1000000
  const UINT32_LIMIT: nat := 0x1_0000_0000
  const MIN_TICK_SPACING: int := -0x800000
  const MAX_TICK_SPACING: int := 0x7fffff

  function AddressBytes(a: Address): (b: seq<byte>)
    ensures |b| == 20
  {
    Digits(256, 20, a)
  }

  // ---------- the bytes a path stands for ----------

  function Packed(tokens: seq<Address>, raws: seq<nat>): seq<byte>
    requires |tokens| == |raws| + 1
    decreases |raws|
  {
    if raws == [] then AddressBytes(tokens[0])
    else AddressBytes(tokens[0]) + Digits(256, 3, raws[0]) + Packed(tokens[1..], raws[1..])
  }

  datatype Decoded = Decoded(tokens: seq<Address>, raws: seq<nat>)

  // Reads address | uint24 | address, then uint24 | address for each further hop.
  function Decode(path: seq<byte>): Option<Decoded>
    decreases |path|
  {
    if |path| < 20 then None
    else
      var token := FromDigits(256, path[..20]);
      if token >= ADDRESS_LIMIT then None
      else if |path| == 20 then Some(Decoded([token], []))
      else if |path| < 43 then None
      else
        match Decode(path[23..])
        case None => None
        case Some(rest) => Some(Decoded([token] + rest.tokens, [FromDigits(256, path[20..23])] + rest.raws))
  }

  lemma PowFacts()
    ensures Pow(256, 20) == ADDRESS_LIMIT && Pow(256, 3) == UINT24_LIMIT
  {
    assert Pow(256, 5) == 0x100_0000_0000;
    assert Pow(256, 10) == 0x100_0000_0000 * 0x100_0000_0000;
    assert Pow(256, 15) == 0x100_0000_0000 * 0x100_0000_0000 * 0x100_0000_0000;
  }

  lemma {:induction false} DecodePacked(tokens: seq<Address>, raws: seq<nat>)
    requires |tokens| == |raws| + 1 && forall r :: r in raws ==> r < UINT24_LIMIT
    ensures |Packed(tokens, raws)| == 20 + 23 * |raws|
    ensures Decode(Packed(tokens, raws)) == Some(Decoded(tokens, raws))
    decreases |raws|
  {
    hide Digits, FromDigits, Pow;
    PowFacts();
    DigitsRoundTrip(256, 20, tokens[0]);
    var path := Packed(tokens, raws);
    assert path[..20] == AddressBytes(tokens[0]) == Digits(256, 20, tokens[0]);
    if raws != [] {
      assert forall r :: r in raws[1..] ==> r in raws;
      DecodePacked(tokens[1..], raws[1..]);
      assert raws[0] in raws;
      DigitsRoundTrip(256, 3, raws[0]);
      assert path[20..23] == Digits(256, 3, raws[0]);
      assert path[23..] == Packed(tokens[1..], raws[1..]);
      assert tokens == [tokens[0]] + tokens[1..] && raws == [raws[0]] + raws[1..];
    } else {
      assert tokens == [tokens[0]];
    }
  }

  // ---------- int24 selectors ----------

  // uint32(spacing) & (1<<24 - 1) on a 32-bit integer.
  function Masked(spacing: int): nat
  {
    spacing % UINT32_LIMIT % UINT24_LIMIT
  }

  function SignExtended(raw: nat): int {
    if raw >= UINT24_LIMIT / 2 then raw - UINT24_LIMIT else raw
  }

  lemma MaskRoundTrip(spacing: int)
    requires MIN_TICK_SPACING <= spacing <= MAX_TICK_SPACING
    ensures Masked(spacing) < UINT24_LIMIT && SignExtended(Masked(spacing)) == spacing
  {}

  // byte(v>>16), byte(v>>8), byte(v) for a 32-bit v.
  function Low24(v: nat): seq<byte>
  {
    [v / 65536 % 256, v / 256 % 256, v % 256]
  }

  lemma Low24IsDigits(v: nat)
    requires v < UINT24_LIMIT
    ensures Low24(v) == Digits(256, 3, v)
  {
    assert Digits(256, 0, v / 256 / 256 / 256) == [];
    assert Digits(256, 1, v / 256 / 256) == [v / 256 / 256 % 256];
    assert Digits(256, 2, v / 256) == [v / 256 / 256 % 256, v / 256 % 256];
    assert v / 256 / 256 == v / 65536;
  }

  // ---------- what the engine packs ----------

  predicate FeeLeg(leg: Leg) { leg.selector.FeePips? && leg.selector.fee < FEE_LIMIT }

  predicate SpacingLeg(leg: Leg) {
    leg.selector.TickSpacing? && MIN_TICK_SPACING <= leg.selector.spacing <= MAX_TICK_SPACING
  }

  predicate Connected(legs: seq<Leg>) {
    forall i :: 0 < i < |legs| ==> legs[i - 1].tokenOut == legs[i].tokenIn
  }

  predicate FeeRoute(legs: seq<Leg>) {
    1 <= |legs| <= 2 && Connected(legs) && forall i :: 0 <= i < |legs| ==> FeeLeg(legs[i])
  }

  predicate SpacingRoute(legs: seq<Leg>) {
    1 <= |legs| <= 2 && Connected(legs) && forall i :: 0 <= i < |legs| ==> SpacingLeg(legs[i])
  }

  function FeesOf(legs: seq<Leg>): (r: seq<nat>)
    ensures |r| == |legs| && forall i :: 0 <= i < |r| ==> r[i] == FeeOf(legs[i])
  {
    seq(|legs|, i requires 0 <= i < |legs| => FeeOf(legs[i]))
  }

  function SpacingOf(leg: Leg): int { if leg.selector.TickSpacing? then leg.selector.spacing else 0 }

  function SpacingsOf(legs: seq<Leg>): (r: seq<int>)
    ensures |r| == |legs| && forall i :: 0 <= i < |r| ==> r[i] == SpacingOf(legs[i])
  {
    seq(|legs|, i requires 0 <= i < |legs| => SpacingOf(legs[i]))
  }

  function MaskedAll(spacings: seq<int>): (r: seq<nat>)
    ensures |r| == |spacings| && forall i :: 0 <= i < |r| ==> r[i] == Masked(spacings[i])
  {
    seq(|spacings|, i requires 0 <= i < |spacings| => Masked(spacings[i]))
  }

  lemma NoPrefix()
    ensures Prefix([], []) == []
  {}

  // One more leg: its input token and its three selector bytes.
  lemma PrefixGrows(tokens: seq<Address>, raws: seq<nat>, token: Address, raw: nat)
    requires |tokens| == |raws|
    ensures Prefix(tokens + [token], raws + [raw]) == Prefix(tokens, raws) + AddressBytes(token) + Digits(256, 3, raw)
  {
    assert (tokens + [token])[..|tokens|] == tokens && (raws + [raw])[..|raws|] == raws;
  }

  // The bytes appended so far: everything but the closing address.
  function Prefix(tokens: seq<Address>, raws: seq<nat>): seq<byte>
    requires |tokens| == |raws|
  {
    if raws == [] then []
    else Prefix(tokens[..|tokens| - 1], raws[..|raws| - 1]) +
         AddressBytes(tokens[|tokens| - 1]) + Digits(256, 3, raws[|raws| - 1])
  }

  lemma {:induction false} PrefixCloses(tokens: seq<Address>, raws: seq<nat>, last: Address)
    requires |tokens| == |raws| <= 2
    ensures Prefix(tokens, raws) + AddressBytes(last) == Packed(tokens + [last], raws)
  {
    hide Digits, AddressBytes;
    var all := tokens + [last];
    if |raws| == 1 {
      assert tokens[..0] == [] && raws[..0] == [];
      assert Prefix(tokens, raws) == AddressBytes(tokens[0]) + Digits(256, 3, raws[0]);
      assert all[1..] == [last] && raws[1..] == [];
    } else if |raws| == 2 {
      var t, r := tokens[..1], raws[..1];
      assert t[..0] == [] && r[..0] == [];
      assert Prefix(t, r) == AddressBytes(tokens[0]) + Digits(256, 3, raws[0]);
      assert all[1..][1..] == [last] && raws[1..][1..] == [];
      assert Packed(all[1..], raws[1..]) == AddressBytes(tokens[1]) + Digits(256, 3, raws[1]) + AddressBytes(last);
    } else {
      assert all == [last];
    }
  }

  // A path of one or two hops, byte by byte: each address most significant byte first in twenty bytes, each
  // selector in three.
  lemma PackedLayout(a: Address, b: Address, c: Address, first: nat, second: nat)
    requires first < UINT24_LIMIT && second < UINT24_LIMIT
    ensures Packed([a, b], [first])
         == AddressBytes(a) + [first / 65536, first / 256 % 256, first % 256] + AddressBytes(b)
    ensures Packed([a, b, c], [first, second])
         == AddressBytes(a) + [first / 65536, first / 256 % 256, first % 256] + AddressBytes(b)
            + [second / 65536, second / 256 % 256, second % 256] + AddressBytes(c)
    ensures FromDigits(256, AddressBytes(a)) == a && |AddressBytes(a)| == 20
  {
    hide Digits, FromDigits, AddressBytes, Pow;
    Low24IsDigits(first);
    Low24IsDigits(second);
    assert first / 65536 % 256 == first / 65536 && second / 65536 % 256 == second / 65536;
    assert [a, b][1..] == [b] && [first][1..] == [] && [a, b, c][1..] == [b, c] && [first, second][1..] == [second];
    assert [b, c][1..] == [c] && [second][1..] == [];
    assert Packed([b], []) == AddressBytes(b) && Packed([c], []) == AddressBytes(c);
    AddressReadsBack(a);
  }

  lemma AddressReadsBack(a: Address)
    ensures FromDigits(256, AddressBytes(a)) == a
  {
    hide Digits, FromDigits, Pow;
    PowFacts();
    DigitsRoundTrip(256, 20, a);
  }

  function TokensIn(legs: seq<Leg>): (r: seq<Address>)
    ensures |r| == |legs| && forall i :: 0 <= i < |r| ==> r[i] == legs[i].tokenIn
  {
    seq(|legs|, i requires 0 <= i < |legs| => legs[i].tokenIn)
  }

  lemma TokensOfConnected(legs: seq<Leg>)
    requires legs != [] && Connected(legs)
    ensures TokensIn(legs) + [legs[|legs| - 1].tokenOut] == Tokens(legs)
  {
    var a, b := TokensIn(legs) + [legs[|legs| - 1].tokenOut], Tokens(legs);
    forall i | 0 <= i < |a| ensures a[i] == b[i] {
      if 0 < i < |legs| { assert b[i - 1 + 1] == legs[i - 1].tokenOut; }
      if 0 < i == |legs| { assert b[i - 1 + 1] == legs[i - 1].tokenOut; }
    }
  }

  method V3Path(legs: seq<Leg>) returns (r: Result<seq<byte>>)
    ensures r.Ok? <==> FeeRoute(legs)
    ensures r.Ok? ==> r.value == Packed(Tokens(legs), FeesOf(legs))
  {
    hide Digits, Packed, Prefix, Low24, AddressBytes;
    if |legs| < 1 || |legs| > 2 { return Err("unsupported path"); }
    var path: seq<byte> := [];
    var i := 0;
    NoPrefix();
    while i < |legs|
      invariant i <= |legs|
      invariant forall j :: 0 <= j < i ==> FeeLeg(legs[j]) && (j > 0 ==> legs[j - 1].tokenOut == legs[j].tokenIn)
      invariant path == Prefix(TokensIn(legs[..i]), FeesOf(legs[..i]))
    {
      var leg := legs[i];
      if !leg.selector.FeePips? || leg.selector.fee >= 1000000 || (i > 0 && legs[i - 1].tokenOut != leg.tokenIn) {
        return Err("invalid path");
      }
      Low24IsDigits(leg.selector.fee);
      path := path + AddressBytes(leg.tokenIn);
      path := path + Low24(leg.selector.fee);
      PrefixGrows(TokensIn(legs[..i]), FeesOf(legs[..i]), leg.tokenIn, leg.selector.fee);
      assert TokensIn(legs[..i + 1]) == TokensIn(legs[..i]) + [leg.tokenIn];
      assert FeesOf(legs[..i + 1]) == FeesOf(legs[..i]) + [leg.selector.fee];
      i := i + 1;
    }
    assert legs[..i] == legs;
    path := path + AddressBytes(legs[|legs| - 1].tokenOut);
    PrefixCloses(TokensIn(legs), FeesOf(legs), legs[|legs| - 1].tokenOut);
    TokensOfConnected(legs);
    return Ok(path);
  }

  method SlipstreamPath(legs: seq<Leg>) returns (r: Result<seq<byte>>)
    ensures r.Ok? <==> SpacingRoute(legs)
    ensures r.Ok? ==> r.value == Packed(Tokens(legs), MaskedAll(SpacingsOf(legs)))
  {
    hide Digits, Packed, Prefix, Low24, AddressBytes, Masked;
    if |legs| < 1 || |legs| > 2 { return Err("unsupported path"); }
    var path: seq<byte> := [];
    var i := 0;
    NoPrefix();
    while i < |legs|
      invariant i <= |legs|
      invariant forall j :: 0 <= j < i ==>
                  SpacingLeg(legs[j]) && (j > 0 ==> legs[j - 1].tokenOut == legs[j].tokenIn)
      invariant path == Prefix(TokensIn(legs[..i]), MaskedAll(SpacingsOf(legs[..i])))
    {
      var leg := legs[i];
      if !leg.selector.TickSpacing? || leg.selector.spacing < MIN_TICK_SPACING ||
         leg.selector.spacing > MAX_TICK_SPACING || (i > 0 && legs[i - 1].tokenOut != leg.tokenIn) {
        return Err("invalid path");
      }
      MaskRoundTrip(leg.selector.spacing);
      var value := Masked(leg.selector.spacing);
      Low24IsDigits(value);
      path := path + AddressBytes(leg.tokenIn);
      path := path + Low24(value);
      PrefixGrows(TokensIn(legs[..i]), MaskedAll(SpacingsOf(legs[..i])), leg.tokenIn, value);
      assert TokensIn(legs[..i + 1]) == TokensIn(legs[..i]) + [leg.tokenIn];
      assert MaskedAll(SpacingsOf(legs[..i + 1])) == MaskedAll(SpacingsOf(legs[..i])) + [value];
      i := i + 1;
    }
    assert legs[..i] == legs;
    PrefixCloses(TokensIn(legs), MaskedAll(SpacingsOf(legs)), legs[|legs| - 1].tokenOut);
    TokensOfConnected(legs);
    return Ok(path + AddressBytes(legs[|legs| - 1].tokenOut));
  }

  // ---------- what the terminal packs ----------

  // numberToHex of a signed integer in three bytes, as encodePacked writes an int24.
  function Signed24(n: int): nat
    requires MIN_TICK_SPACING <= n <= MAX_TICK_SPACING
  {
    if n >= 0 then n else UINT24_LIMIT + n
  }

  function SignedWord(leg: Leg): nat { if SpacingLeg(leg) then Signed24(leg.selector.spacing) else 0 }

  // encodePacked flattens every leg's own input token and selector, then the last output token.
  function EncodePacked(legs: seq<Leg>, raws: seq<nat>): seq<byte>
    requires legs != [] && |raws| == |legs|
    decreases |legs|
  {
    AddressBytes(legs[0].tokenIn) + Digits(256, 3, raws[0]) +
    if |legs| == 1 then AddressBytes(legs[0].tokenOut) else EncodePacked(legs[1..], raws[1..])
  }

  function LocalV3Path(legs: seq<Leg>): Result<seq<byte>> {
    if legs == [] || exists i :: 0 <= i < |legs| && !legs[i].selector.FeePips? then
      Err("Invalid route terms.")
    else if exists i :: 0 <= i < |legs| && FeeOf(legs[i]) >= UINT24_LIMIT then Err("out of range")
    else Ok(EncodePacked(legs, seq(|legs|, i requires 0 <= i < |legs| => FeeOf(legs[i]))))
  }

  function LocalSlipstreamPath(legs: seq<Leg>): Result<seq<byte>> {
    if legs == [] || |legs| > 2 || exists i :: 0 <= i < |legs| && !SpacingLeg(legs[i]) then Err("Invalid route terms.")
    else Ok(EncodePacked(legs, seq(|legs|, i requires 0 <= i < |legs| => SignedWord(legs[i]))))
  }

  lemma {:induction false} EncodePackedIsPacked(legs: seq<Leg>, raws: seq<nat>)
    requires legs != [] && |raws| == |legs| && Connected(legs)
    ensures EncodePacked(legs, raws) == Packed(Tokens(legs), raws)
    decreases |legs|
  {
    hide Digits, AddressBytes;
    if |legs| == 1 {
      assert raws[1..] == [] && Tokens(legs)[1..] == [legs[0].tokenOut];
    } else {
      assert Connected(legs[1..]) by {
        forall i | 0 < i < |legs[1..]| ensures legs[1..][i - 1].tokenOut == legs[1..][i].tokenIn {
          assert legs[i + 1 - 1].tokenOut == legs[i + 1].tokenIn;
        }
      }
      EncodePackedIsPacked(legs[1..], raws[1..]);
      assert legs[1 - 1].tokenOut == legs[1].tokenIn;
      assert Tokens(legs)[1..] == Tokens(legs[1..]);
    }
  }

  // ---------- the two programs agree, and nothing is lost ----------

  // Every path the engine packs is the one the terminal packs, and decodes to its tokens and fees.
  lemma V3PathsAgree(legs: seq<Leg>)
    requires FeeRoute(legs)
    ensures LocalV3Path(legs) == Ok(Packed(Tokens(legs), FeesOf(legs)))
    ensures Decode(Packed(Tokens(legs), FeesOf(legs))) == Some(Decoded(Tokens(legs), FeesOf(legs)))
  {
    EncodePackedIsPacked(legs, FeesOf(legs));
    assert seq(|legs|, i requires 0 <= i < |legs| => FeeOf(legs[i])) == FeesOf(legs);
    forall i | 0 <= i < |legs| ensures FeesOf(legs)[i] < FEE_LIMIT { assert FeeLeg(legs[i]); }
    DecodePacked(Tokens(legs), FeesOf(legs));
  }

  lemma UnmaskAll(legs: seq<Leg>)
    requires SpacingRoute(legs)
    ensures forall r :: r in MaskedAll(SpacingsOf(legs)) ==> r < UINT24_LIMIT
    ensures forall i :: 0 <= i < |legs| ==> SignExtended(MaskedAll(SpacingsOf(legs))[i]) == SpacingsOf(legs)[i]
    ensures MaskedAll(SpacingsOf(legs)) == seq(|legs|, i requires 0 <= i < |legs| => SignedWord(legs[i]))
  {
    var raws := MaskedAll(SpacingsOf(legs));
    forall i | 0 <= i < |legs|
      ensures raws[i] == SignedWord(legs[i]) < UINT24_LIMIT && SignExtended(raws[i]) == SpacingsOf(legs)[i]
    {
      assert SpacingLeg(legs[i]);
      MaskRoundTrip(legs[i].selector.spacing);
    }
  }

  lemma SlipstreamPathsAgree(legs: seq<Leg>)
    requires SpacingRoute(legs)
    ensures LocalSlipstreamPath(legs) == Ok(Packed(Tokens(legs), MaskedAll(SpacingsOf(legs))))
    ensures var d := Decode(Packed(Tokens(legs), MaskedAll(SpacingsOf(legs))));
            && d == Some(Decoded(Tokens(legs), MaskedAll(SpacingsOf(legs))))
            && forall i :: 0 <= i < |legs| ==> SignExtended(d.value.raws[i]) == SpacingsOf(legs)[i]
  {
    hide Decode, Packed, SignExtended, Masked, SignedWord;
    UnmaskAll(legs);
    EncodePackedIsPacked(legs, MaskedAll(SpacingsOf(legs)));
    DecodePacked(Tokens(legs), MaskedAll(SpacingsOf(legs)));
  }

  // Routes over different tokens or selectors never share path bytes.
  lemma DistinctPathsDistinctBytes(a: seq<Leg>, b: seq<Leg>)
    requires FeeRoute(a) && FeeRoute(b) && Packed(Tokens(a), FeesOf(a)) == Packed(Tokens(b), FeesOf(b))
    ensures Tokens(a) == Tokens(b) && FeesOf(a) == FeesOf(b)
  {
    V3PathsAgree(a);
    V3PathsAgree(b);
  }

  lemma DistinctSpacingPathsDistinctBytes(a: seq<Leg>, b: seq<Leg>)
    requires SpacingRoute(a) && SpacingRoute(b)
    requires Packed(Tokens(a), MaskedAll(SpacingsOf(a))) == Packed(Tokens(b), MaskedAll(SpacingsOf(b)))
    ensures Tokens(a) == Tokens(b) && SpacingsOf(a) == SpacingsOf(b)
  {
    hide Decode, Packed, SignExtended, Masked, SpacingRoute, LocalSlipstreamPath, Tokens, MaskedAll, SpacingsOf;
    SlipstreamPathsAgree(a);
    SlipstreamPathsAgree(b);
    assert forall i :: 0 <= i < |a| ==> SpacingsOf(a)[i] == SpacingsOf(b)[i];
  }
}
