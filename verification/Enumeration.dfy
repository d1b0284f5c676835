// What the two odometers enumerate: for one deployment, every direct path and every two-hop path
// through a configured intermediate token, named by route identifiers.
module Enumeration {
  import opened Messages
  import opened Numerals
  import opened Sorting

  // A path before it is named: its selectors are fees or tick spacings.
  datatype Path =
    | Direct(deployment: string, selector: int)
    | Via(deployment: string, first: int, middle: Address, second: int)

  datatype Deployment = Deployment(id: string, selectors: seq<int>)

  datatype Candidate = Candidate(routeId: string, deployment: string, tokens: seq<Address>, selectors: seq<int>)

  // ---------- the nested comprehension, from any position of the odometer ----------

  function DirectFrom(d: Deployment, k: nat): seq<Path>
    requires k <= |d.selectors|
    decreases |d.selectors| - k
  {
    if k == |d.selectors| then [] else [Direct(d.id, d.selectors[k])] + DirectFrom(d, k + 1)
  }

  function SecondsFrom(d: Deployment, middle: Address, i: nat, j: nat): seq<Path>
    requires i < |d.selectors| && j <= |d.selectors|
    decreases |d.selectors| - j
  {
    if j == |d.selectors| then []
    else [Via(d.id, d.selectors[i], middle, d.selectors[j])] + SecondsFrom(d, middle, i, j + 1)
  }

  function FirstsFrom(d: Deployment, middle: Address, i: nat): seq<Path>
    requires i <= |d.selectors|
    decreases |d.selectors| - i
  {
    if i == |d.selectors| then [] else SecondsFrom(d, middle, i, 0) + FirstsFrom(d, middle, i + 1)
  }

  function MiddlesFrom(d: Deployment, middles: seq<Address>, k: nat): seq<Path>
    requires k <= |middles|
    decreases |middles| - k
  {
    if k == |middles| then [] else FirstsFrom(d, middles[k], 0) + MiddlesFrom(d, middles, k + 1)
  }

  // Every path of one deployment, in the order it is searched.
  function PathsOf(d: Deployment, middles: seq<Address>): seq<Path> {
    DirectFrom(d, 0) + MiddlesFrom(d, middles, 0)
  }

  function PathsFrom(ds: seq<Deployment>, middles: seq<Address>, k: nat): seq<Path>
    requires k <= |ds|
    decreases |ds| - k
  {
    if k == |ds| then [] else PathsOf(ds[k], middles) + PathsFrom(ds, middles, k + 1)
  }

  // ---------- what is enumerated ----------

  predicate Searched(p: Path, d: Deployment, middles: seq<Address>) {
    && p.deployment == d.id
    && match p
       case Direct(_, s) => s in d.selectors
       case Via(_, a, m, b) => a in d.selectors && m in middles && b in d.selectors
  }

  lemma {:induction false} DirectMembers(d: Deployment, k: nat, p: Path)
    requires k <= |d.selectors|
    ensures |DirectFrom(d, k)| == |d.selectors| - k
    ensures p in DirectFrom(d, k) <==> p.Direct? && p.deployment == d.id && p.selector in d.selectors[k..]
    decreases |d.selectors| - k
  {
    if k < |d.selectors| {
      DirectMembers(d, k + 1, p);
      assert d.selectors[k..] == [d.selectors[k]] + d.selectors[k + 1..];
    }
  }

  lemma {:induction false} SecondsMembers(d: Deployment, middle: Address, i: nat, j: nat, p: Path)
    requires i < |d.selectors| && j <= |d.selectors|
    ensures |SecondsFrom(d, middle, i, j)| == |d.selectors| - j
    ensures p in SecondsFrom(d, middle, i, j) <==>
            p.Via? && p.deployment == d.id && p.first == d.selectors[i] && p.middle == middle &&
            p.second in d.selectors[j..]
    decreases |d.selectors| - j
  {
    if j < |d.selectors| {
      SecondsMembers(d, middle, i, j + 1, p);
      assert d.selectors[j..] == [d.selectors[j]] + d.selectors[j + 1..];
    }
  }

  lemma {:induction false} FirstsMembers(d: Deployment, middle: Address, i: nat, p: Path)
    requires i <= |d.selectors|
    ensures |FirstsFrom(d, middle, i)| == (|d.selectors| - i) * |d.selectors|
    ensures p in FirstsFrom(d, middle, i) <==>
            p.Via? && p.deployment == d.id && p.first in d.selectors[i..] && p.middle == middle &&
            p.second in d.selectors
    decreases |d.selectors| - i
  {
    if i < |d.selectors| {
      SecondsMembers(d, middle, i, 0, p);
      FirstsMembers(d, middle, i + 1, p);
      assert d.selectors[i..] == [d.selectors[i]] + d.selectors[i + 1..];
      assert d.selectors[0..] == d.selectors;
    }
  }

  lemma {:induction false} MiddlesMembers(d: Deployment, middles: seq<Address>, k: nat, p: Path)
    requires k <= |middles|
    ensures |MiddlesFrom(d, middles, k)| == (|middles| - k) * (|d.selectors| * |d.selectors|)
    ensures p in MiddlesFrom(d, middles, k) <==>
            p.Via? && p.deployment == d.id && p.first in d.selectors && p.middle in middles[k..] &&
            p.second in d.selectors
    decreases |middles| - k
  {
    if k < |middles| {
      FirstsMembers(d, middles[k], 0, p);
      MiddlesMembers(d, middles, k + 1, p);
      assert middles[k..] == [middles[k]] + middles[k + 1..];
      assert d.selectors[0..] == d.selectors;
    }
  }

  // n + m * n * n paths, exactly the searched ones.
  lemma EnumerationIsExact(d: Deployment, middles: seq<Address>, p: Path)
    ensures |PathsOf(d, middles)| == |d.selectors| + |middles| * (|d.selectors| * |d.selectors|)
    ensures p in PathsOf(d, middles) <==> Searched(p, d, middles)
  {
    DirectMembers(d, 0, p);
    MiddlesMembers(d, middles, 0, p);
    assert d.selectors[0..] == d.selectors && middles[0..] == middles;
  }

  // ---------- in which order ----------

  lemma {:induction false} DirectAt(d: Deployment, k: nat, x: nat)
    requires k + x < |d.selectors|
    ensures |DirectFrom(d, k)| == |d.selectors| - k && DirectFrom(d, k)[x] == Direct(d.id, d.selectors[k + x])
    decreases |d.selectors| - k
  {
    DirectMembers(d, k, Direct(d.id, 0));
    if x > 0 { DirectAt(d, k + 1, x - 1); }
  }

  lemma {:induction false} SecondAt(d: Deployment, middle: Address, i: nat, j: nat, x: nat)
    requires i < |d.selectors| && j + x < |d.selectors|
    ensures |SecondsFrom(d, middle, i, j)| == |d.selectors| - j
    ensures SecondsFrom(d, middle, i, j)[x] == Via(d.id, d.selectors[i], middle, d.selectors[j + x])
    decreases |d.selectors| - j
  {
    SecondsMembers(d, middle, i, j, Direct(d.id, 0));
    if x > 0 { SecondAt(d, middle, i, j + 1, x - 1); }
  }

  lemma {:induction false} FirstAt(d: Deployment, middle: Address, i: nat, x: nat, j: nat)
    requires i + x < |d.selectors| && j < |d.selectors|
    ensures x * |d.selectors| + j < |FirstsFrom(d, middle, i)| == (|d.selectors| - i) * |d.selectors|
    ensures FirstsFrom(d, middle, i)[x * |d.selectors| + j] == Via(d.id, d.selectors[i + x], middle, d.selectors[j])
    decreases |d.selectors| - i
  {
    hide SecondsFrom;
    var n := |d.selectors|;
    FirstsMembers(d, middle, i, Direct(d.id, 0));
    SecondAt(d, middle, i, 0, j);
    if x > 0 {
      FirstAt(d, middle, i + 1, x - 1, j);
      assert x * n + j == n + ((x - 1) * n + j);
    }
  }

  // The paths through one middle token are a block of their own; size is how many there are.
  lemma {:induction false} MiddleAt(d: Deployment, middles: seq<Address>, k: nat, m: nat, x: nat, size: nat)
    requires k + m < |middles| && size == |d.selectors| * |d.selectors| && x < size
    ensures |FirstsFrom(d, middles[k + m], 0)| == size && m * size + x < |MiddlesFrom(d, middles, k)|
    ensures MiddlesFrom(d, middles, k)[m * size + x] == FirstsFrom(d, middles[k + m], 0)[x]
    decreases |middles| - k
  {
    hide FirstsFrom;
    FirstsMembers(d, middles[k], 0, Direct(d.id, 0));
    if m > 0 {
      MiddleAt(d, middles, k + 1, m - 1, x, size);
      assert m * size + x == size + ((m - 1) * size + x);
    }
  }

  // The order of the search: first the direct paths by selector, then, middle token by middle token, the pairs of
  // selectors, the second turning faster than the first.
  lemma PathsInOrder(d: Deployment, middles: seq<Address>, m: nat, i: nat, j: nat)
    requires i < |d.selectors| && j < |d.selectors|
    ensures |PathsOf(d, middles)| >= |d.selectors| && PathsOf(d, middles)[i] == Direct(d.id, d.selectors[i])
    ensures
      var n := |d.selectors|;
      m < |middles| ==>
        && n + (m * (n * n) + (i * n + j)) < |PathsOf(d, middles)|
        && PathsOf(d, middles)[n + (m * (n * n) + (i * n + j))] == Via(d.id, d.selectors[i], middles[m], d.selectors[j])
  {
    hide DirectFrom, MiddlesFrom, FirstsFrom;
    var n := |d.selectors|;
    DirectAt(d, 0, i);
    if m < |middles| {
      FirstAt(d, middles[m], 0, i, j);
      MiddleAt(d, middles, 0, m, i * n + j, n * n);
    }
  }

  // ---------- each once ----------

  lemma {:induction false} DirectDistinct(d: Deployment, k: nat)
    requires k <= |d.selectors| && Distinct(d.selectors)
    ensures Distinct(DirectFrom(d, k))
    decreases |d.selectors| - k
  {
    if k < |d.selectors| {
      DirectDistinct(d, k + 1);
      var head := Direct(d.id, d.selectors[k]);
      DirectMembers(d, k + 1, head);
      DistinctConcat([head], DirectFrom(d, k + 1));
    }
  }

  lemma {:induction false} SecondsDistinct(d: Deployment, middle: Address, i: nat, j: nat)
    requires i < |d.selectors| && j <= |d.selectors| && Distinct(d.selectors)
    ensures Distinct(SecondsFrom(d, middle, i, j))
    decreases |d.selectors| - j
  {
    if j < |d.selectors| {
      SecondsDistinct(d, middle, i, j + 1);
      var head := Via(d.id, d.selectors[i], middle, d.selectors[j]);
      SecondsMembers(d, middle, i, j + 1, head);
      DistinctConcat([head], SecondsFrom(d, middle, i, j + 1));
    }
  }

  lemma {:induction false} FirstsDistinct(d: Deployment, middle: Address, i: nat)
    requires i <= |d.selectors| && Distinct(d.selectors)
    ensures Distinct(FirstsFrom(d, middle, i))
    decreases |d.selectors| - i
  {
    if i < |d.selectors| {
      SecondsDistinct(d, middle, i, 0);
      FirstsDistinct(d, middle, i + 1);
      forall p | p in SecondsFrom(d, middle, i, 0) ensures p !in FirstsFrom(d, middle, i + 1) {
        SecondsMembers(d, middle, i, 0, p);
        FirstsMembers(d, middle, i + 1, p);
      }
      DistinctConcat(SecondsFrom(d, middle, i, 0), FirstsFrom(d, middle, i + 1));
    }
  }

  lemma {:induction false} MiddlesDistinct(d: Deployment, middles: seq<Address>, k: nat)
    requires k <= |middles| && Distinct(d.selectors) && Distinct(middles)
    ensures Distinct(MiddlesFrom(d, middles, k))
    decreases |middles| - k
  {
    if k < |middles| {
      FirstsDistinct(d, middles[k], 0);
      MiddlesDistinct(d, middles, k + 1);
      forall p | p in FirstsFrom(d, middles[k], 0) ensures p !in MiddlesFrom(d, middles, k + 1) {
        FirstsMembers(d, middles[k], 0, p);
        MiddlesMembers(d, middles, k + 1, p);
      }
      DistinctConcat(FirstsFrom(d, middles[k], 0), MiddlesFrom(d, middles, k + 1));
    }
  }

  lemma EachPathOnce(d: Deployment, middles: seq<Address>)
    requires Distinct(d.selectors) && Distinct(middles)
    ensures Distinct(PathsOf(d, middles))
  {
    DirectDistinct(d, 0);
    MiddlesDistinct(d, middles, 0);
    forall p | p in DirectFrom(d, 0) ensures p !in MiddlesFrom(d, middles, 0) {
      DirectMembers(d, 0, p);
      MiddlesMembers(d, middles, 0, p);
    }
    DistinctConcat(DirectFrom(d, 0), MiddlesFrom(d, middles, 0));
  }

  lemma {:induction false} PathsFromMembers(ds: seq<Deployment>, middles: seq<Address>, k: nat, p: Path)
    requires k <= |ds|
    ensures p in PathsFrom(ds, middles, k) <==> exists d :: d in ds[k..] && Searched(p, d, middles)
    decreases |ds| - k
  {
    if k < |ds| {
      PathsFromMembers(ds, middles, k + 1, p);
      EnumerationIsExact(ds[k], middles, p);
      assert ds[k..] == [ds[k]] + ds[k + 1..];
      if Searched(p, ds[k], middles) { assert ds[k] in ds[k..]; }
    }
  }

  // Deployments under distinct identifiers with distinct selectors: every path of a chain once.
  lemma {:induction false} EachChainPathOnce(ds: seq<Deployment>, middles: seq<Address>, k: nat)
    requires k <= |ds| && Distinct(middles) && forall d :: d in ds ==> Distinct(d.selectors)
    requires forall i, j :: 0 <= i < j < |ds| ==> ds[i].id != ds[j].id
    ensures Distinct(PathsFrom(ds, middles, k))
    decreases |ds| - k
  {
    if k < |ds| {
      EachPathOnce(ds[k], middles);
      EachChainPathOnce(ds, middles, k + 1);
      forall p | p in PathsOf(ds[k], middles) ensures p !in PathsFrom(ds, middles, k + 1) {
        EnumerationIsExact(ds[k], middles, p);
        PathsFromMembers(ds, middles, k + 1, p);
      }
      DistinctConcat(PathsOf(ds[k], middles), PathsFrom(ds, middles, k + 1));
    }
  }

  // ---------- route identifiers ----------

  // %d of a fee or of a tick spacing.
  function PrintInt(n: int): string {
    if n < 0 then "-" + Print(-n) else Print(n)
  }

  // The text of an address is left to the caller: any injective text without a colon will do.
  function RouteId(p: Path, hex: Address -> string): string {
    match p
    case Direct(id, s) => id + ":" + PrintInt(s)
    case Via(id, a, m, b) => id + ":" + PrintInt(a) + ":" + hex(m) + ":" + PrintInt(b)
  }

  function CandidateOf(p: Path, tokenIn: Address, tokenOut: Address, hex: Address -> string): Candidate {
    match p
    case Direct(id, s) => Candidate(RouteId(p, hex), id, [tokenIn, tokenOut], [s])
    case Via(id, a, m, b) => Candidate(RouteId(p, hex), id, [tokenIn, m, tokenOut], [a, b])
  }

  // What a candidate is called and which way it goes: the deployment, then the selectors with the middle token
  // between them, joined by colons.
  lemma NamedAsWritten(id: string, a: nat, m: Address, b: nat, tokenIn: Address, tokenOut: Address, hex: Address -> string)
    ensures CandidateOf(Direct(id, a), tokenIn, tokenOut, hex)
         == Candidate(id + ":" + Print(a), id, [tokenIn, tokenOut], [a])
    ensures CandidateOf(Via(id, a, m, b), tokenIn, tokenOut, hex)
         == Candidate(id + ":" + Print(a) + ":" + hex(m) + ":" + Print(b), id, [tokenIn, m, tokenOut], [a, b])
  {}

  predicate NoColon(s: string) { ':' !in s }

  ghost predicate HexText(hex: Address -> string) {
    && (forall a :: NoColon(hex(a)))
    && (forall a, b :: hex(a) == hex(b) ==> a == b)
  }

  lemma PrintIntSign(n: int)
    ensures PrintInt(n) != "" && (PrintInt(n)[0] == '-' <==> n < 0)
    ensures NoColon(PrintInt(n))
  {}

  lemma PrintIntInjective(a: int, b: int)
    requires PrintInt(a) == PrintInt(b)
    ensures a == b
  {
    PrintIntSign(a);
    PrintIntSign(b);
    if a < 0 {
      assert PrintInt(a)[1..] == Print(-a) && PrintInt(b)[1..] == Print(-b);
      PrintInjective(-a, -b);
    } else {
      PrintInjective(a, b);
    }
  }

  // A colon-free head can be read off the text before the first colon.
  lemma SplitAtColon(a: string, b: string, x: string, y: string)
    requires NoColon(a) && NoColon(b) && a + ":" + x == b + ":" + y
    ensures a == b && x == y
  {
    var s, t := a + ":" + x, b + ":" + y;
    assert s[|a|] == ':' && t[|b|] == ':';
    assert forall i :: 0 <= i < |a| ==> s[i] == a[i] && s[i] != ':';
    assert forall i :: 0 <= i < |b| ==> t[i] == b[i] && t[i] != ':';
    assert |a| == |b|;
    assert a == s[..|a|] && b == t[..|b|];
    assert x == s[|a| + 1..] && y == t[|b| + 1..];
  }

  function Rest(p: Path, hex: Address -> string): string {
    match p
    case Direct(id, s) => PrintInt(s)
    case Via(id, a, m, b) => PrintInt(a) + ":" + (hex(m) + ":" + PrintInt(b))
  }

  lemma RouteIdSplit(p: Path, hex: Address -> string)
    ensures RouteId(p, hex) == p.deployment + ":" + Rest(p, hex)
  {
    if p.Via? {
      var id, a, h, b := p.deployment, PrintInt(p.first), hex(p.middle), PrintInt(p.second);
      assert id + ":" + a + ":" + h + ":" + b == id + ":" + (a + ":" + (h + ":" + b));
    }
  }

  lemma RestInjective(p: Path, q: Path, hex: Address -> string)
    requires HexText(hex) && p.deployment == q.deployment && Rest(p, hex) == Rest(q, hex)
    ensures p == q
  {
    match (p, q)
    case (Direct(_, s), Direct(_, t)) => PrintIntInjective(s, t);
    case (Via(_, a, m, b), Via(_, c, n, d)) =>
      PrintIntSign(a);
      PrintIntSign(c);
      SplitAtColon(PrintInt(a), PrintInt(c), hex(m) + ":" + PrintInt(b), hex(n) + ":" + PrintInt(d));
      SplitAtColon(hex(m), hex(n), PrintInt(b), PrintInt(d));
      PrintIntInjective(a, c);
      PrintIntInjective(b, d);
    case (Direct(_, s), Via(_, a, m, b)) => DirectIsNotVia(s, a, hex(m) + ":" + PrintInt(b));
    case (Via(_, a, m, b), Direct(_, s)) => DirectIsNotVia(s, a, hex(m) + ":" + PrintInt(b));
  }

  lemma DirectIsNotVia(s: int, a: int, tail: string)
    ensures PrintInt(s) != PrintInt(a) + ":" + tail
  {
    PrintIntSign(s);
    var via := PrintInt(a) + ":" + tail;
    assert via[|PrintInt(a)|] == ':';
    assert ':' in via;
  }

  // Two paths share a route identifier only when they are the same path of the same deployment.
  lemma RouteIdInjective(p: Path, q: Path, hex: Address -> string)
    requires HexText(hex) && NoColon(p.deployment) && NoColon(q.deployment)
    requires RouteId(p, hex) == RouteId(q, hex)
    ensures p == q
  {
    RouteIdSplit(p, hex);
    RouteIdSplit(q, hex);
    SplitAtColon(p.deployment, q.deployment, Rest(p, hex), Rest(q, hex));
    RestInjective(p, q, hex);
  }

  function Named(ps: seq<Path>, tokenIn: Address, tokenOut: Address, hex: Address -> string): (cs: seq<Candidate>)
    ensures |cs| == |ps|
    ensures forall i :: 0 <= i < |cs| ==> cs[i] == CandidateOf(ps[i], tokenIn, tokenOut, hex)
  {
    if ps == [] then [] else [CandidateOf(ps[0], tokenIn, tokenOut, hex)] + Named(ps[1..], tokenIn, tokenOut, hex)
  }

  ghost predicate RouteIdsApart(cs: seq<Candidate>) {
    forall i, j :: 0 <= i < j < |cs| ==> cs[i].routeId != cs[j].routeId
  }

  // All route identifiers of a chain, fee and tick-spacing deployments together, are pairwise distinct.
  lemma ChainRouteIdsApart(
      ds: seq<Deployment>, middles: seq<Address>, tokenIn: Address, tokenOut: Address, hex: Address -> string)
    requires HexText(hex) && Distinct(middles)
    requires forall d :: d in ds ==> Distinct(d.selectors) && NoColon(d.id)
    requires forall i, j :: 0 <= i < j < |ds| ==> ds[i].id != ds[j].id
    ensures RouteIdsApart(Named(PathsFrom(ds, middles, 0), tokenIn, tokenOut, hex))
  {
    var ps := PathsFrom(ds, middles, 0);
    var cs := Named(ps, tokenIn, tokenOut, hex);
    EachChainPathOnce(ds, middles, 0);
    forall i, j | 0 <= i < j < |cs| ensures cs[i].routeId != cs[j].routeId {
      PathsFromMembers(ds, middles, 0, ps[i]);
      PathsFromMembers(ds, middles, 0, ps[j]);
      if cs[i].routeId == cs[j].routeId { RouteIdInjective(ps[i], ps[j], hex); }
    }
  }
}
