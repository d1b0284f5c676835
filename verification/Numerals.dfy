// Number text and fixed-width big-endian digits, shared by the amounts in messages, the packed
// route paths, the words in event logs and the route identifiers.
module Numerals {

  // ---------- fixed-width big-endian digits ----------

  function Pow(base: nat, n: nat): (r: nat)
    requires base > 0
    ensures r > 0
  {
    if n == 0 then 1 else base * Pow(base, n - 1)
  }

  function Digits(base: nat, width: nat, n: nat): (ds: seq<nat>)
    requires base > 1
    ensures |ds| == width
    ensures forall i :: 0 <= i < |ds| ==> ds[i] < base
  {
    if width == 0 then [] else Digits(base, width - 1, n / base) + [n % base]
  }

  function FromDigits(base: nat, ds: seq<nat>): nat
    requires base > 1
  {
    if ds == [] then 0 else FromDigits(base, ds[..|ds| - 1]) * base + ds[|ds| - 1]
  }

  // Writing a number into enough digits and reading it back returns it.
  lemma {:induction false} DigitsRoundTrip(base: nat, width: nat, n: nat)
    requires base > 1 && n < Pow(base, width)
    ensures FromDigits(base, Digits(base, width, n)) == n
  {
    if width > 0 {
      var ds := Digits(base, width, n);
      QuotientBound(base, Pow(base, width - 1), n);
      DigitsRoundTrip(base, width - 1, n / base);
      assert ds[..width - 1] == Digits(base, width - 1, n / base);
      DivisionFacts(base, n);
    }
  }

  lemma DivisionFacts(base: nat, n: nat)
    requires base > 1
    ensures n / base * base + n % base == n
  {}

  lemma QuotientBound(base: nat, bound: nat, n: nat)
    requires base > 1 && n < base * bound
    ensures n / base < bound
  {
    if n / base >= bound {
      assert base * (n / base) >= base * bound by { MulMonotone(base, bound, n / base); }
    }
  }

  lemma MulMonotone(k: nat, a: nat, b: nat)
    requires a <= b
    ensures k * a <= k * b
  {}

  // ---------- decimal text ----------

  predicate IsDigit(c: char) { '0' <= c <= '9' }

  predicate AllDigits(s: string) { forall i :: 0 <= i < |s| ==> IsDigit(s[i]) }

  // /^[0-9]+$/
  predicate IsDecimal(s: string) { s != "" && AllDigits(s) }

  // /^[1-9][0-9]*$/
  predicate IsPositiveInteger(s: string) { IsDecimal(s) && s[0] != '0' }

  function DigitChar(d: nat): char
    requires d < 10
  {
    '0' + d as char
  }

  function DigitValue(c: char): nat
    requires IsDigit(c)
  {
    (c - '0') as nat
  }

  // big.Int.String and strconv.FormatUint in base 10.
  function Print(n: nat): (s: string)
    ensures IsDecimal(s)
  {
    if n < 10 then [DigitChar(n)] else Print(n / 10) + [DigitChar(n % 10)]
  }

  // big.Int.SetString in base 10, strconv.ParseUint and BigInt, on digit text.
  function Value(s: string): nat
    requires AllDigits(s)
  {
    if s == "" then 0 else Value(s[..|s| - 1]) * 10 + DigitValue(s[|s| - 1])
  }

  lemma {:induction false} PrintRoundTrip(n: nat)
    ensures Value(Print(n)) == n
    ensures Print(n)[0] == '0' <==> n == 0
  {
    if n >= 10 {
      PrintRoundTrip(n / 10);
      assert Print(n)[..|Print(n)| - 1] == Print(n / 10);
    } else {
      assert Value([]) == 0;
      assert Print(n)[..0] == "";
    }
  }

  // Canonical text is the text the engine itself writes, so comparing texts compares numbers.
  lemma {:induction false} CanonicalText(s: string)
    requires IsPositiveInteger(s)
    ensures Value(s) > 0 && Print(Value(s)) == s
  {
    var init := s[..|s| - 1];
    if |s| == 1 {
      assert Value(init) == 0;
      assert s == [s[0]];
    } else {
      assert init[0] == s[0];
      CanonicalText(init);
      assert s == init + [s[|s| - 1]];
    }
  }

  lemma PrintInjective(a: nat, b: nat)
    requires Print(a) == Print(b)
    ensures a == b
  {
    PrintRoundTrip(a);
    PrintRoundTrip(b);
  }
}
