// The remote simulation bundle: every balance probe, the swap, the same probes again and the
// allowance queries run as one sequence of calls, and the answers are judged by position.
module Bundle {
  import opened Messages

  datatype Input = BalanceOf(owner: Address) | AllowanceOf(owner: Address, spender: Address) | SwapData(data: Calldata)

  // One call of the bundle; sender, block, value and gas are the same for all of them.
  datatype BundleCall = BundleCall(to: Address, input: Input)

  // One reply: the call it answers for, whether the rest of its evidence (status, network, block
  // header, transaction index, trace) matches the request, and the decoded word, if there is one.
  datatype Reply = Reply(call: BundleCall, evidence: bool, word: Option<nat>)

  datatype Fault = Evidence | InputAmount | MinimumOutput | ProtectedBalance | Allowance

  datatype Judgement = Passed(output: int) | Fault(fault: Fault)

  function Balances(checks: SimulationChecks): (ps: seq<BalanceProbe>)
    ensures |ps| == 2 + |checks.preserve|
  {
    [checks.input, checks.output] + checks.preserve
  }

  function BalanceCall(p: BalanceProbe): BundleCall { BundleCall(p.token, BalanceOf(p.owner)) }

  function AllowanceCall(p: AllowanceProbe): BundleCall { BundleCall(p.token, AllowanceOf(p.owner, p.spender)) }

  // Position by position: probes, swap, probes, allowances.
  ghost predicate Laid(calls: seq<BundleCall>, tx: Transaction, checks: SimulationChecks) {
    var ps, n := Balances(checks), |checks.preserve| + 2;
    && |calls| == 2 * n + 1 + |checks.clearAllowances|
    && (forall i :: 0 <= i < n ==> calls[i] == BalanceCall(ps[i]))
    && calls[n] == BundleCall(tx.to, SwapData(tx.data))
    && (forall i :: 0 <= i < n ==> calls[n + 1 + i] == BalanceCall(ps[i]))
    && (forall i :: 0 <= i < |checks.clearAllowances| ==>
          calls[2 * n + 1 + i] == AllowanceCall(checks.clearAllowances[i]))
  }

  method LayOut(tx: Transaction, checks: SimulationChecks) returns (calls: seq<BundleCall>, count: nat)
    ensures Laid(calls, tx, checks) && count == |checks.preserve| + 2
  {
    var balances := Balances(checks);
    var probes: seq<BundleCall> := [];
    var i := 0;
    while i < |balances|
      invariant |probes| == i <= |balances|
      invariant forall j :: 0 <= j < i ==> probes[j] == BalanceCall(balances[j])
    {
      probes := probes + [BalanceCall(balances[i])];
      i := i + 1;
    }
    calls := probes;
    calls := calls + [BundleCall(tx.to, SwapData(tx.data))];
    calls := calls + probes;
    ghost var base := calls;
    i := 0;
    while i < |checks.clearAllowances|
      invariant i <= |checks.clearAllowances| && |calls| == |base| + i
      invariant forall j :: 0 <= j < |base| ==> calls[j] == base[j]
      invariant forall j :: 0 <= j < i ==> calls[|base| + j] == AllowanceCall(checks.clearAllowances[j])
    {
      calls := calls + [AllowanceCall(checks.clearAllowances[i])];
      i := i + 1;
    }
    return calls, |probes|;
  }

  // ---------- judging the replies ----------

  predicate Answers(reply: Reply, call: BundleCall, isSwap: bool) {
    reply.call == call && reply.evidence && (isSwap || reply.word.Some?)
  }

  predicate Evident(replies: seq<Reply>, calls: seq<BundleCall>, n: nat) {
    && |replies| == |calls|
    && forall i :: 0 <= i < |replies| ==> Answers(replies[i], calls[i], i == n)
  }

  function WordAt(replies: seq<Reply>, i: nat): nat
    requires i < |replies|
  {
    if replies[i].word.Some? then replies[i].word.value else 0
  }

  predicate Preserved(replies: seq<Reply>, n: nat) {
    && |replies| >= 2 * n + 1
    && forall i :: 2 <= i < n ==> WordAt(replies, n + 1 + i) == WordAt(replies, i)
  }

  predicate Cleared(replies: seq<Reply>, n: nat) {
    forall i :: 2 * n + 1 <= i < |replies| ==> WordAt(replies, i) == 0
  }

  // What the replies must show, in the order the faults are reported.
  function Judged(replies: seq<Reply>, calls: seq<BundleCall>, n: nat, amount: nat, minimum: nat): Judgement
    requires n >= 2 && |calls| >= 2 * n + 1
  {
    if !Evident(replies, calls, n) then Judgement.Fault(Evidence)
    else if WordAt(replies, 0) - WordAt(replies, n + 1) != amount then Judgement.Fault(InputAmount)
    else if WordAt(replies, n + 2) - WordAt(replies, 1) < minimum then Judgement.Fault(MinimumOutput)
    else if !Preserved(replies, n) then Judgement.Fault(ProtectedBalance)
    else if !Cleared(replies, n) then Judgement.Fault(Allowance)
    else Passed(WordAt(replies, n + 2) - WordAt(replies, 1))
  }

  // Reads the words out by position; the swap's own reply carries none.
  method ReadWords(replies: seq<Reply>, calls: seq<BundleCall>, n: nat) returns (ok: bool, values: array<int>)
    ensures ok == Evident(replies, calls, n)
    ensures ok ==> values.Length == |calls| && forall j :: 0 <= j < |calls| && j != n ==> values[j] == WordAt(replies, j)
  {
    values := new int[|calls|](_ => 0);
    if |replies| != |calls| { return false, values; }
    var i := 0;
    while i < |replies|
      invariant i <= |replies|
      invariant forall j :: 0 <= j < i ==> Answers(replies[j], calls[j], j == n)
      invariant forall j :: 0 <= j < i && j != n ==> values[j] == WordAt(replies, j)
    {
      var reply := replies[i];
      if reply.call != calls[i] || !reply.evidence { return false, values; }
      if i != n {
        if reply.word.None? { return false, values; }
        values[i] := reply.word.value;
      }
      i := i + 1;
    }
    return true, values;
  }

  method Judge(replies: seq<Reply>, calls: seq<BundleCall>, n: nat, amount: nat, minimum: nat) returns (r: Judgement)
    requires n >= 2 && |calls| >= 2 * n + 1
    ensures r == Judged(replies, calls, n, amount, minimum)
  {
    hide WordAt, Answers;
    var ok, values := ReadWords(replies, calls, n);
    if !ok { return Judgement.Fault(Evidence); }
    var after := n + 1;
    var consumed: int := values[0] - values[after];
    var output: int := values[after + 1] - values[1];
    if consumed != amount { return Judgement.Fault(InputAmount); }
    if output < minimum { return Judgement.Fault(MinimumOutput); }
    var i := 2;
    while i < n
      invariant 2 <= i <= n
      invariant forall j :: 2 <= j < i ==> WordAt(replies, n + 1 + j) == WordAt(replies, j)
    {
      if values[after + i] != values[i] { return Judgement.Fault(ProtectedBalance); }
      i := i + 1;
    }
    i := after + n;
    while i < |calls|
      invariant after + n <= i <= |calls|
      invariant forall j :: after + n <= j < i ==> WordAt(replies, j) == 0
    {
      if values[i] != 0 { return Judgement.Fault(Allowance); }
      i := i + 1;
    }
    return Passed(output);
  }

  // Whoever answers, a bundle passes exactly if every call got the reply of that very call with its evidence and,
  // but for the swap, a word; and the words say that the input fell by the amount and the output rose by at
  // least the minimum, that every preserved balance reads the same before and after, and that every
  // allowance reads zero.
  lemma PassedExactly(
      calls: seq<BundleCall>, tx: Transaction, checks: SimulationChecks, replies: seq<Reply>, amount: nat, minimum: nat,
      output: int)
    requires Laid(calls, tx, checks)
    ensures
      var n := |checks.preserve| + 2;
      Judged(replies, calls, n, amount, minimum) == Passed(output) <==>
        && |replies| == |calls|
        && (forall i :: 0 <= i < |calls| ==> replies[i].call == calls[i] && replies[i].evidence)
        && (forall i :: 0 <= i < |calls| && i != n ==> replies[i].word.Some?)
        && replies[0].word.value == replies[n + 1].word.value + amount
        && output == replies[n + 2].word.value - replies[1].word.value >= minimum
        && (forall i :: 2 <= i < n ==> replies[i].word == replies[n + 1 + i].word)
        && (forall i :: 2 * n + 1 <= i < |calls| ==> replies[i].word == Some(0))
  {
    var n := |checks.preserve| + 2;
    EvidentExactly(replies, calls, n);
    if Evident(replies, calls, n) { WordsExactly(replies, n); }
  }

  lemma EvidentExactly(replies: seq<Reply>, calls: seq<BundleCall>, n: nat)
    ensures Evident(replies, calls, n) <==>
            && |replies| == |calls|
            && (forall i :: 0 <= i < |calls| ==> replies[i].call == calls[i] && replies[i].evidence)
            && (forall i :: 0 <= i < |calls| && i != n ==> replies[i].word.Some?)
  {
    if Evident(replies, calls, n) {
      forall i | 0 <= i < |calls|
        ensures replies[i].call == calls[i] && replies[i].evidence && (i != n ==> replies[i].word.Some?) {
        assert Answers(replies[i], calls[i], i == n);
      }
    }
  }

  lemma WordsExactly(replies: seq<Reply>, n: nat)
    requires n >= 2 && |replies| >= 2 * n + 1
    requires forall i :: 0 <= i < |replies| && i != n ==> replies[i].word.Some?
    ensures Preserved(replies, n) <==> forall i :: 2 <= i < n ==> replies[i].word == replies[n + 1 + i].word
    ensures Cleared(replies, n) <==> forall i :: 2 * n + 1 <= i < |replies| ==> replies[i].word == Some(0)
    ensures forall i :: 0 <= i < |replies| && i != n ==> WordAt(replies, i) == replies[i].word.value
  {
    if Preserved(replies, n) {
      forall i | 2 <= i < n ensures replies[i].word == replies[n + 1 + i].word {
        assert WordAt(replies, n + 1 + i) == WordAt(replies, i);
      }
    }
    if Cleared(replies, n) {
      forall i | 2 * n + 1 <= i < |replies| ensures replies[i].word == Some(0) {
        assert WordAt(replies, i) == 0;
      }
    }
  }

  // ---------- an honest service ----------

  // Token state as the queries read it.
  datatype World = World(balance: (Address, Address) -> nat, allowance: (Address, Address, Address) -> nat)

  function Read(w: World, call: BundleCall): Option<nat> {
    match call.input
    case BalanceOf(owner) => Some(w.balance(call.to, owner))
    case AllowanceOf(owner, spender) => Some(w.allowance(call.to, owner, spender))
    case SwapData(_) => None
  }

  // Runs the calls in sequence; only the swap, which succeeds, changes state.
  function Honest(calls: seq<BundleCall>, swap: nat, before: World, after: World): (rs: seq<Reply>)
    ensures |rs| == |calls|
    ensures forall i :: 0 <= i < |rs| ==>
              rs[i] == Reply(calls[i], true, Read(if i <= swap then before else after, calls[i]))
  {
    seq(|calls|, i requires 0 <= i < |calls| =>
      Reply(calls[i], true, Read(if i <= swap then before else after, calls[i])))
  }

  function Balance(w: World, p: BalanceProbe): nat { w.balance(p.token, p.owner) }

  // What execution promises about the world it runs in.
  ghost predicate Fair(checks: SimulationChecks, before: World, after: World, amount: nat, minimum: nat) {
    && Balance(before, checks.input) - Balance(after, checks.input) == amount
    && Balance(after, checks.output) - Balance(before, checks.output) >= minimum
    && Unchanged(before, after, checks.preserve)
    && (forall a :: a in checks.clearAllowances ==> after.allowance(a.token, a.owner, a.spender) == 0)
  }

  // For any probes and allowances: the bundle passes exactly when the swap consumes the amount,
  // delivers the minimum, leaves every preserved balance and ends with every listed allowance clear.
  lemma BundleProvesFairness(
      calls: seq<BundleCall>, tx: Transaction, checks: SimulationChecks, before: World, after: World, amount: nat,
      minimum: nat)
    requires Laid(calls, tx, checks)
    ensures var n := |checks.preserve| + 2;
            var r := Judged(Honest(calls, n, before, after), calls, n, amount, minimum);
            && (r.Passed? <==> Fair(checks, before, after, amount, minimum))
            && (r.Passed? ==> r.output == Balance(after, checks.output) - Balance(before, checks.output))
            && r != Judgement.Fault(Evidence)
  {
    var n := |checks.preserve| + 2;
    var rs := Honest(calls, n, before, after);
    LaidRepliesAnswer(calls, tx, checks, before, after);
    PreservedMeansUnchanged(calls, tx, checks, before, after);
    ClearedMeansZero(calls, tx, checks, before, after);
    var ps := Balances(checks);
    assert calls[0] == BalanceCall(ps[0]) && calls[1] == BalanceCall(ps[1]);
    assert calls[n + 1 + 0] == BalanceCall(ps[0]) && calls[n + 1 + 1] == BalanceCall(ps[1]);
  }

  lemma LaidRepliesAnswer(
      calls: seq<BundleCall>, tx: Transaction, checks: SimulationChecks, before: World, after: World)
    requires Laid(calls, tx, checks)
    ensures Evident(Honest(calls, |checks.preserve| + 2, before, after), calls, |checks.preserve| + 2)
  {
    var n := |checks.preserve| + 2;
    var rs := Honest(calls, n, before, after);
    forall i | 0 <= i < |rs| ensures Answers(rs[i], calls[i], i == n) {
      if n < i < 2 * n + 1 {
        assert calls[n + 1 + (i - n - 1)] == BalanceCall(Balances(checks)[i - n - 1]);
      } else if i > n {
        assert calls[2 * n + 1 + (i - 2 * n - 1)] == AllowanceCall(checks.clearAllowances[i - 2 * n - 1]);
      }
    }
  }

  lemma ProbeWords(
      calls: seq<BundleCall>, tx: Transaction, checks: SimulationChecks, before: World, after: World, k: nat)
    requires Laid(calls, tx, checks) && k < |checks.preserve| + 2
    ensures var n := |checks.preserve| + 2;
            var rs := Honest(calls, n, before, after);
            && |rs| >= 2 * n + 1
            && WordAt(rs, k) == Balance(before, Balances(checks)[k])
            && WordAt(rs, n + 1 + k) == Balance(after, Balances(checks)[k])
  {
    var n, ps := |checks.preserve| + 2, Balances(checks);
    assert calls[k] == BalanceCall(ps[k]) && calls[n + 1 + k] == BalanceCall(ps[k]);
  }

  ghost predicate Unchanged(before: World, after: World, probes: seq<BalanceProbe>) {
    forall p :: p in probes ==> Balance(after, p) == Balance(before, p)
  }

  lemma PreservedMeansUnchanged(
      calls: seq<BundleCall>, tx: Transaction, checks: SimulationChecks, before: World, after: World)
    requires Laid(calls, tx, checks)
    ensures Preserved(Honest(calls, |checks.preserve| + 2, before, after), |checks.preserve| + 2) <==>
            Unchanged(before, after, checks.preserve)
  {
    hide Honest, WordAt, Laid, Balance;
    var n := |checks.preserve| + 2;
    var rs := Honest(calls, n, before, after);
    var ps := Balances(checks);
    ProbeWords(calls, tx, checks, before, after, 0);
    forall i | 2 <= i < n
      ensures WordAt(rs, n + 1 + i) == WordAt(rs, i) <==> Balance(after, ps[i]) == Balance(before, ps[i])
    {
      ProbeWords(calls, tx, checks, before, after, i);
    }
    assert forall i :: 2 <= i < n ==> ps[i] in checks.preserve;
    if Preserved(rs, n) {
      forall p | p in checks.preserve ensures Balance(after, p) == Balance(before, p) {
        var i :| 0 <= i < |checks.preserve| && checks.preserve[i] == p;
        assert ps[i + 2] == p && WordAt(rs, n + 1 + (i + 2)) == WordAt(rs, i + 2);
      }
    }
  }

  lemma ClearedMeansZero(
      calls: seq<BundleCall>, tx: Transaction, checks: SimulationChecks, before: World, after: World)
    requires Laid(calls, tx, checks)
    ensures Cleared(Honest(calls, |checks.preserve| + 2, before, after), |checks.preserve| + 2) <==>
            forall a :: a in checks.clearAllowances ==> after.allowance(a.token, a.owner, a.spender) == 0
  {
    var n := |checks.preserve| + 2;
    var rs := Honest(calls, n, before, after);
    forall i | 0 <= i < |checks.clearAllowances|
      ensures var a := checks.clearAllowances[i];
              WordAt(rs, 2 * n + 1 + i) == after.allowance(a.token, a.owner, a.spender)
    {
      assert calls[2 * n + 1 + i] == AllowanceCall(checks.clearAllowances[i]);
    }
    if Cleared(rs, n) {
      forall a | a in checks.clearAllowances ensures after.allowance(a.token, a.owner, a.spender) == 0 {
        var i :| 0 <= i < |checks.clearAllowances| && checks.clearAllowances[i] == a;
        assert WordAt(rs, 2 * n + 1 + i) == 0;
      }
    } else {
      var k :| 2 * n + 1 <= k < |rs| && WordAt(rs, k) != 0;
      var a := checks.clearAllowances[k - 2 * n - 1];
      assert a in checks.clearAllowances;
      assert WordAt(rs, 2 * n + 1 + (k - 2 * n - 1)) == after.allowance(a.token, a.owner, a.spender);
    }
  }
}
