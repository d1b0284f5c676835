// Token movement read from ERC-20 Transfer logs ("Events" in EIP-20), twice: the engine scans the
// logs of a simulated call tree once per balance probe, the terminal folds the logs of a receipt into
// one map of deltas. Both are measured against the same plain sum.
module Accounting {
  import opened Messages
  import opened Numerals
  import opened Sorting

  type Word = w: nat | w < UINT256_LIMIT

  datatype Log = Log(address: Address, topics: seq<Word>, data: seq<byte>)

  // Keccak-256 of Transfer(address,address,uint256).
  const TRANSFER: Word := 0xddf252ad1be2c89b69c2b068fc378daa952ba7f163c4a11628f55a4df523b3ef

  function Low160(w: Word): Address { w % ADDRESS_LIMIT }

  function Amount(data: seq<byte>): nat { FromDigits(256, data) }

  // ---------- the plain sum ----------

  // The shape the engine counts; it ignores any other log.
  predicate Counted(log: Log) {
    |log.topics| == 3 && log.topics[0] == TRANSFER && |log.data| == 32
  }

  // What one log moves into an owner's balance of a token; nothing, for a transfer to oneself.
  function Effect(log: Log, token: Address, owner: Address): int {
    if Counted(log) && log.address == token then
      (if Low160(log.topics[2]) == owner then Amount(log.data) else 0) -
      (if Low160(log.topics[1]) == owner then Amount(log.data) else 0)
    else 0
  }

  function Delta(logs: seq<Log>, token: Address, owner: Address): int {
    if logs == [] then 0
    else Delta(logs[..|logs| - 1], token, owner) + Effect(logs[|logs| - 1], token, owner)
  }

  lemma {:induction false} DeltaConcat(a: seq<Log>, b: seq<Log>, token: Address, owner: Address)
    ensures Delta(a + b, token, owner) == Delta(a, token, owner) + Delta(b, token, owner)
  {
    if b == [] {
      assert a + b == a;
    } else {
      assert (a + b)[..|a + b| - 1] == a + b[..|b| - 1];
      DeltaConcat(a, b[..|b| - 1], token, owner);
    }
  }

  lemma DeltaWithoutOne(logs: seq<Log>, k: nat, token: Address, owner: Address)
    requires k < |logs|
    ensures Delta(logs, token, owner) ==
            Delta(logs[..k] + logs[k + 1..], token, owner) + Effect(logs[k], token, owner)
  {
    hide Effect;
    assert logs == logs[..k] + [logs[k]] + logs[k + 1..];
    DeltaConcat(logs[..k] + [logs[k]], logs[k + 1..], token, owner);
    DeltaConcat(logs[..k], logs[k + 1..], token, owner);
    assert (logs[..k] + [logs[k]])[..k] == logs[..k];
  }

  lemma DeltaWithoutHead(logs: seq<Log>, token: Address, owner: Address)
    requires logs != []
    ensures Delta(logs, token, owner) == Delta(logs[1..], token, owner) + Effect(logs[0], token, owner)
  {
    DeltaWithoutOne(logs, 0, token, owner);
    assert logs[..0] + logs[1..] == logs[1..];
  }

  // The order of the logs does not matter.
  lemma {:induction false} DeltaIgnoresOrder(a: seq<Log>, b: seq<Log>, token: Address, owner: Address)
    requires multiset(a) == multiset(b)
    ensures Delta(a, token, owner) == Delta(b, token, owner)
    decreases |a|
  {
    hide Effect, Delta;
    if a == [] {
      EmptyPermutation(b);
    } else {
      var k := FindHead(a, b);
      DeltaIgnoresOrder(a[1..], b[..k] + b[k + 1..], token, owner);
      DeltaWithoutHead(a, token, owner);
      DeltaWithoutOne(b, k, token, owner);
    }
  }

  // A Transfer of an amount, whatever stands above the two addresses in their words, takes it from the one and
  // gives it to the other, in its own token: nothing moves if they are the same.
  lemma TransferMoves(log: Log, token: Address, from: Address, to: Address, fromBits: nat, toBits: nat, amount: nat,
                      owner: Address)
    requires fromBits * ADDRESS_LIMIT + from < UINT256_LIMIT && toBits * ADDRESS_LIMIT + to < UINT256_LIMIT
    requires amount < UINT256_LIMIT
    requires log == Log(token,
                        [0xddf252ad1be2c89b69c2b068fc378daa952ba7f163c4a11628f55a4df523b3ef,
                         fromBits * ADDRESS_LIMIT + from, toBits * ADDRESS_LIMIT + to],
                        Digits(256, 32, amount))
    ensures Effect(log, token, owner) == (if to == owner then amount else 0) - (if from == owner then amount else 0)
    ensures forall other :: other != token ==> Effect(log, other, owner) == 0
    ensures IsTransfer(log) && (Standard(log) <==> fromBits == 0 && toBits == 0)
  {
    hide Amount, Standard, IsTransfer;
    AmountReadsBack(amount);
    LowBits(fromBits, from);
    LowBits(toBits, to);
    TransferIsStandard(log, fromBits, from, toBits, to);
  }

  lemma TransferIsStandard(log: Log, fromBits: nat, from: Address, toBits: nat, to: Address)
    requires fromBits * ADDRESS_LIMIT + from < UINT256_LIMIT && toBits * ADDRESS_LIMIT + to < UINT256_LIMIT
    requires log.topics == [TRANSFER, fromBits * ADDRESS_LIMIT + from, toBits * ADDRESS_LIMIT + to] && |log.data| == 32
    ensures IsTransfer(log) && (Standard(log) <==> fromBits == 0 && toBits == 0)
  {}

  lemma LowBits(bits: nat, address: Address)
    requires bits * ADDRESS_LIMIT + address < UINT256_LIMIT
    ensures Low160(bits * ADDRESS_LIMIT + address) == address
  {}

  lemma AmountReadsBack(amount: nat)
    requires amount < UINT256_LIMIT
    ensures Amount(Digits(256, 32, amount)) == amount
  {
    WordIsDigits();
    DigitsRoundTrip(256, 32, amount);
  }

  lemma WordIsDigits()
    ensures Pow(256, 32) == UINT256_LIMIT
  {
    assert Pow(256, 8) == 0x1_00000000_00000000 by {
      assert Pow(256, 4) == 0x1_00000000;
    }
    PowAdds(256, 8, 8);
    PowAdds(256, 16, 16);
  }

  lemma {:induction false} PowAdds(base: nat, m: nat, n: nat)
    requires base > 0
    ensures Pow(base, m + n) == Pow(base, m) * Pow(base, n)
  {
    if m > 0 {
      PowAdds(base, m - 1, n);
      assert base * (Pow(base, m - 1) * Pow(base, n)) == base * Pow(base, m - 1) * Pow(base, n);
    }
  }

  // Any other log moves nothing.
  lemma OthersMoveNothing(log: Log, token: Address, owner: Address)
    requires |log.topics| != 3 || |log.data| != 32 || log.address != token
             || log.topics[0] != 0xddf252ad1be2c89b69c2b068fc378daa952ba7f163c4a11628f55a4df523b3ef
    ensures Effect(log, token, owner) == 0
  {}

  // An amount is read with the most significant byte first.
  lemma BigEndian(data: seq<byte>, last: byte)
    ensures Amount([]) == 0 && Amount(data + [last]) == Amount(data) * 256 + last
  {
    assert (data + [last])[..|data|] == data;
  }

  // ---------- conservation ----------

  function TotalDelta(logs: seq<Log>, token: Address, owners: seq<Address>): int {
    if owners == [] then 0 else Delta(logs, token, owners[0]) + TotalDelta(logs, token, owners[1..])
  }

  function TotalEffect(log: Log, token: Address, owners: seq<Address>): int {
    if owners == [] then 0 else Effect(log, token, owners[0]) + TotalEffect(log, token, owners[1..])
  }

  lemma {:induction false} TotalStep(logs: seq<Log>, token: Address, owners: seq<Address>)
    requires logs != []
    ensures TotalDelta(logs, token, owners) ==
            TotalDelta(logs[..|logs| - 1], token, owners) + TotalEffect(logs[|logs| - 1], token, owners)
  {
    hide Effect;
    if owners != [] { TotalStep(logs, token, owners[1..]); }
  }

  function Occurs(x: Address, owners: seq<Address>): nat { if x in owners then 1 else 0 }

  // Over distinct owners, a log's credit and debit each count once.
  lemma {:induction false} EffectTotals(log: Log, token: Address, owners: seq<Address>)
    requires Distinct(owners)
    ensures Counted(log) && log.address == token ==>
              TotalEffect(log, token, owners) ==
              Amount(log.data) * Occurs(Low160(log.topics[2]), owners) -
              Amount(log.data) * Occurs(Low160(log.topics[1]), owners)
    ensures !(Counted(log) && log.address == token) ==> TotalEffect(log, token, owners) == 0
  {
    hide Amount, Low160;
    if owners != [] {
      EffectTotals(log, token, owners[1..]);
      assert owners == [owners[0]] + owners[1..];
      assert owners[0] !in owners[1..];
    }
  }

  ghost predicate Covers(owners: seq<Address>, logs: seq<Log>) {
    forall log :: log in logs && Counted(log) ==> Low160(log.topics[1]) in owners && Low160(log.topics[2]) in owners
  }

  // Tokens are moved, never made: over everyone involved, each token's deltas sum to zero.
  lemma {:induction false} TransfersConserve(logs: seq<Log>, token: Address, owners: seq<Address>)
    requires Distinct(owners) && Covers(owners, logs)
    ensures TotalDelta(logs, token, owners) == 0
    decreases |logs|
  {
    if logs == [] {
      NoLogsNoDelta(token, owners);
    } else {
      hide Effect, Amount, Low160, TotalDelta, TotalEffect;
      var last := logs[|logs| - 1];
      TotalStep(logs, token, owners);
      TransfersConserve(logs[..|logs| - 1], token, owners);
      EffectTotals(log := last, token := token, owners := owners);
      assert last in logs;
    }
  }

  lemma {:induction false} NoLogsNoDelta(token: Address, owners: seq<Address>)
    ensures TotalDelta([], token, owners) == 0
  {
    if owners != [] { NoLogsNoDelta(token, owners[1..]); }
  }

  // ---------- the engine: a call tree ----------

  datatype Call = Call(failed: bool, logs: seq<Log>, calls: seq<Call>)

  // No call failed anywhere, even where the caller recovered.
  predicate Clean(call: Call) {
    !call.failed && forall child :: child in call.calls ==> Clean(child)
  }

  function Flatten(call: Call): seq<Log> { call.logs + FlattenAll(call.calls) }

  function FlattenAll(calls: seq<Call>): seq<Log> {
    if calls == [] then [] else Flatten(calls[0]) + FlattenAll(calls[1..])
  }

  class Trace {
    var logs: seq<Log>

    constructor ()
      ensures logs == []
    {
      logs := [];
    }

    method Collect(call: Call) returns (ok: bool)
      modifies this
      ensures ok == Clean(call)
      ensures ok ==> logs == old(logs) + Flatten(call)
      decreases call
    {
      if call.failed { return false; }
      logs := logs + call.logs;
      var i := 0;
      assert call.logs + FlattenAll(call.calls) == Flatten(call);
      while i < |call.calls|
        invariant i <= |call.calls|
        invariant forall j :: 0 <= j < i ==> Clean(call.calls[j])
        invariant logs + FlattenAll(call.calls[i..]) == old(logs) + Flatten(call)
      {
        var child := call.calls[i];
        assert call.calls[i..][0] == child && call.calls[i..][1..] == call.calls[i + 1..];
        ghost var before := logs;
        var clean := Collect(child);
        if !clean { return false; }
        assert before + (Flatten(child) + FlattenAll(call.calls[i + 1..])) == logs + FlattenAll(call.calls[i + 1..]);
        i := i + 1;
      }
      assert FlattenAll(call.calls[i..]) == [];
      return true;
    }

    method ProbeDelta(probe: BalanceProbe) returns (result: int)
      ensures result == Delta(logs, probe.token, probe.owner)
    {
      result := 0;
      var i := 0;
      while i < |logs|
        invariant i <= |logs|
        invariant result == Delta(logs[..i], probe.token, probe.owner)
      {
        var log := logs[i];
        assert logs[..i + 1][..i] == logs[..i];
        if !(log.address != probe.token || |log.topics| != 3 || log.topics[0] != TRANSFER || |log.data| != 32) {
          var value := Amount(log.data);
          var from, to := Low160(log.topics[1]), Low160(log.topics[2]);
          if from == probe.owner { result := result - value; }
          if to == probe.owner { result := result + value; }
        }
        i := i + 1;
      }
      assert logs[..|logs|] == logs;
    }
  }

  lemma {:induction false} FlattenAppends(calls: seq<Call>, last: Call)
    ensures FlattenAll(calls + [last]) == FlattenAll(calls) + Flatten(last)
  {
    hide Flatten;
    if calls == [] {
      assert FlattenAll([last]) == Flatten(last) + FlattenAll([]);
    } else {
      assert (calls + [last])[1..] == calls[1..] + [last];
      FlattenAppends(calls[1..], last);
    }
  }

  // A tree is clean, and its logs are collected, call by call to any depth.
  lemma TreeOfCalls(failed: bool, logs: seq<Log>, calls: seq<Call>, last: Call)
    ensures Clean(Call(failed, logs, [])) <==> !failed
    ensures Clean(Call(failed, logs, calls + [last])) <==> Clean(Call(failed, logs, calls)) && Clean(last)
    ensures Flatten(Call(failed, logs, [])) == logs
    ensures Flatten(Call(failed, logs, calls + [last])) == Flatten(Call(failed, logs, calls)) + Flatten(last)
  {
    FlattenAppends(calls, last);
    if Clean(Call(failed, logs, calls + [last])) {
      assert last in calls + [last];
      forall child | child in calls ensures Clean(child) { assert child in calls + [last]; }
    }
  }

  datatype SimulationError = Evidence | InputAmount | MinimumOutput | ProtectedBalance | Allowance

  datatype Simulation = Simulated(output: int) | Refused(error: SimulationError)

  ghost predicate Protected(logs: seq<Log>, preserve: seq<BalanceProbe>) {
    forall i :: 0 <= i < |preserve| ==> Delta(logs, preserve[i].token, preserve[i].owner) == 0
  }

  ghost function Verdict(call: Call, checks: SimulationChecks, amount: nat, minimum: nat): Simulation {
    var logs := Flatten(call);
    if checks.clearAllowances != [] || !Clean(call) then Refused(Evidence)
    else if -Delta(logs, checks.input.token, checks.input.owner) != amount then Refused(InputAmount)
    else if Delta(logs, checks.output.token, checks.output.owner) < minimum then Refused(MinimumOutput)
    else if !Protected(logs, checks.preserve) then Refused(ProtectedBalance)
    else Simulated(Delta(logs, checks.output.token, checks.output.owner))
  }

  // The traced call is the requested one; everything after that is decided by its logs.
  method Simulate(call: Call, checks: SimulationChecks, amount: nat, minimum: nat) returns (r: Simulation)
    ensures r == Verdict(call, checks, amount, minimum)
  {
    hide Delta, Flatten, Clean;
    if checks.clearAllowances != [] { return Refused(Evidence); }
    var trace := new Trace();
    var ok := trace.Collect(call);
    if !ok { return Refused(Evidence); }
    assert trace.logs == Flatten(call);
    var input := trace.ProbeDelta(checks.input);
    if -input != amount { return Refused(InputAmount); }
    var output := trace.ProbeDelta(checks.output);
    if output < minimum { return Refused(MinimumOutput); }
    var i := 0;
    while i < |checks.preserve|
      invariant i <= |checks.preserve| && trace.logs == Flatten(call)
      invariant forall j :: 0 <= j < i ==>
                  Delta(Flatten(call), checks.preserve[j].token, checks.preserve[j].owner) == 0
    {
      var value := trace.ProbeDelta(checks.preserve[i]);
      if value != 0 { return Refused(ProtectedBalance); }
      i := i + 1;
    }
    return Simulated(output);
  }

  // A simulation is accepted exactly if nothing has to be cleared and no call failed, the caller paid the amount
  // and received at least the minimum, and no protected balance moved; it reports what was received.
  lemma SimulatedExactly(call: Call, checks: SimulationChecks, amount: nat, minimum: nat, output: int)
    ensures
      var logs := Flatten(call);
      Verdict(call, checks, amount, minimum) == Simulated(output) <==>
        && checks.clearAllowances == [] && Clean(call)
        && Delta(logs, checks.input.token, checks.input.owner) + amount == 0
        && output == Delta(logs, checks.output.token, checks.output.owner) >= minimum
        && forall i :: 0 <= i < |checks.preserve| ==> Delta(logs, checks.preserve[i].token, checks.preserve[i].owner) == 0
  {
    hide Delta, Flatten, Clean;
  }

  // ---------- the terminal: a receipt ----------

  datatype ReceiptLog = ReceiptLog(log: Log, transactionHash: string, removed: bool)

  datatype Receipt = Receipt(transactionHash: string, success: bool, logs: seq<ReceiptLog>)

  datatype Obligations = Obligations(
    tokenIn: Address, tokenOut: Address, recipient: Address, amountIn: nat, minimum: nat,
    intermediate: seq<BalanceProbe>, touched: seq<BalanceProbe>)

  datatype Verification =
    | Unavailable
    | Reverted
    | Checked(passed: bool, inputSpent: int, outputReceived: int, intermediate: map<Address, int>,
              touched: map<BalanceProbe, int>)

  predicate IsTransfer(log: Log) { log.topics != [] && log.topics[0] == TRANSFER }

  // Re-encoding the decoded log gives the log back: three topics, canonical address words, one data word.
  predicate Standard(log: Log) {
    Counted(log) && log.topics[1] < ADDRESS_LIMIT && log.topics[2] < ADDRESS_LIMIT
  }

  predicate Admitted(item: ReceiptLog, hash: string) {
    item.transactionHash == hash && !item.removed && (IsTransfer(item.log) ==> Standard(item.log))
  }

  type Deltas = map<(Address, Address), int>

  function At(deltas: Deltas, token: Address, owner: Address): int {
    if (token, owner) in deltas then deltas[(token, owner)] else 0
  }

  ghost predicate Sums(deltas: Deltas, logs: seq<Log>) {
    forall token, owner :: At(deltas, token, owner) == Delta(logs, token, owner)
  }

  function LogsOf(items: seq<ReceiptLog>): (r: seq<Log>)
    ensures |r| == |items| && forall i :: 0 <= i < |r| ==> r[i] == items[i].log
  {
    seq(|items|, i requires 0 <= i < |items| => items[i].log)
  }

  function Credited(deltas: Deltas, log: Log): Deltas
    requires Counted(log)
  {
    var (token, from, to, value) := (log.address, Low160(log.topics[1]), Low160(log.topics[2]), Amount(log.data));
    var debited := deltas[(token, from) := At(deltas, token, from) - value];
    debited[(token, to) := At(debited, token, to) + value]
  }

  lemma CreditedSums(deltas: Deltas, logs: seq<Log>, log: Log)
    requires Sums(deltas, logs) && Counted(log)
    ensures Sums(Credited(deltas, log), logs + [log])
  {
    hide Low160, Amount;
    var after := Credited(deltas, log);
    forall token, owner ensures At(after, token, owner) == Delta(logs + [log], token, owner) {
      assert (logs + [log])[..|logs|] == logs;
      assert At(deltas, token, owner) == Delta(logs, token, owner);
    }
  }

  lemma IgnoredSums(deltas: Deltas, logs: seq<Log>, log: Log)
    requires Sums(deltas, logs) && !Counted(log)
    ensures Sums(deltas, logs + [log])
  {
    forall token, owner ensures At(deltas, token, owner) == Delta(logs + [log], token, owner) {
      assert (logs + [log])[..|logs|] == logs;
    }
  }

  // The delta map equals the per-probe scan for every token and owner.
  method FoldDeltas(items: seq<ReceiptLog>, hash: string) returns (r: Option<Deltas>)
    ensures r.Some? <==> forall i :: 0 <= i < |items| ==> Admitted(items[i], hash)
    ensures r.Some? ==> Sums(r.value, LogsOf(items))
  {
    hide Sums, Counted, Credited;
    var deltas: Deltas := map[];
    var i := 0;
    NoDeltas();
    while i < |items|
      invariant i <= |items|
      invariant forall j :: 0 <= j < i ==> Admitted(items[j], hash)
      invariant Sums(deltas, LogsOf(items[..i]))
    {
      var log := items[i].log;
      assert LogsOf(items[..i + 1]) == LogsOf(items[..i]) + [log];
      if items[i].transactionHash != hash || items[i].removed { return None; }
      if log.topics == [] || log.topics[0] != TRANSFER {
        OnlyTransfersCount(log);
        IgnoredSums(deltas, LogsOf(items[..i]), log);
      } else {
        if !Standard(log) { return None; }
        CreditedSums(deltas, LogsOf(items[..i]), log);
        deltas := Credited(deltas, log);
      }
      i := i + 1;
    }
    assert LogsOf(items[..i]) == LogsOf(items);
    return Some(deltas);
  }

  lemma NoDeltas()
    ensures Sums(map[], LogsOf([]))
  {}

  lemma OnlyTransfersCount(log: Log)
    ensures Counted(log) ==> IsTransfer(log)
  {}

  ghost predicate Passes(logs: seq<Log>, o: Obligations) {
    && -Delta(logs, o.tokenIn, o.recipient) == o.amountIn
    && Delta(logs, o.tokenOut, o.recipient) >= o.minimum
    && Protected(logs, o.intermediate) && Protected(logs, o.touched)
  }

  ghost predicate AllAdmitted(items: seq<ReceiptLog>, hash: string) {
    forall i :: 0 <= i < |items| ==> Admitted(items[i], hash)
  }

  // One entry a token: the value of the last balance listed for it.
  ghost predicate Reported(report: map<Address, int>, probes: seq<BalanceProbe>, value: BalanceProbe -> int) {
    && (forall token :: token in report <==> exists i :: 0 <= i < |probes| && probes[i].token == token)
    && forall i :: 0 <= i < |probes| && (forall j :: i < j < |probes| ==> probes[j].token != probes[i].token) ==>
         probes[i].token in report && report[probes[i].token] == value(probes[i])
  }

  function Reading(deltas: Deltas): BalanceProbe -> int {
    (p: BalanceProbe) => At(deltas, p.token, p.owner)
  }

  ghost function NetOf(logs: seq<Log>): BalanceProbe -> int {
    (p: BalanceProbe) => Delta(logs, p.token, p.owner)
  }

  method ReportIntermediates(deltas: Deltas, probes: seq<BalanceProbe>) returns (report: map<Address, int>)
    ensures Reported(report, probes, Reading(deltas))
  {
    hide At;
    report := map[];
    var i := 0;
    while i < |probes|
      invariant i <= |probes| && Reported(report, probes[..i], Reading(deltas))
    {
      ghost var before := report;
      report := report[probes[i].token := At(deltas, probes[i].token, probes[i].owner)];
      ReportGrows(before, report, probes, i, Reading(deltas));
      i := i + 1;
    }
    assert probes[..i] == probes;
  }

  lemma ReportGrows(
      before: map<Address, int>, after: map<Address, int>, probes: seq<BalanceProbe>, i: nat, value: BalanceProbe -> int)
    requires i < |probes| && Reported(before, probes[..i], value)
    requires after == before[probes[i].token := value(probes[i])]
    ensures Reported(after, probes[..i + 1], value)
  {
    var early, late := probes[..i], probes[..i + 1];
    forall token ensures token in after <==> exists k :: 0 <= k < |late| && late[k].token == token {
      if token in before {
        var k :| 0 <= k < |early| && early[k].token == token;
        assert late[k].token == token;
      }
      if token == probes[i].token { assert late[i].token == token; }
      if k :| 0 <= k < |late| && late[k].token == token {
        if k < i { assert early[k].token == token; }
      }
    }
    forall k | 0 <= k < |late| && (forall j :: k < j < |late| ==> late[j].token != late[k].token)
      ensures late[k].token in after && after[late[k].token] == value(late[k]) {
      if k < i {
        assert late[i].token != late[k].token;
        assert forall j :: k < j < |early| ==> early[j].token == late[j].token;
        assert early[k] == late[k];
      }
    }
  }

  // The map that sums the logs reads every balance's net movement.
  lemma ReportIsNet(report: map<Address, int>, probes: seq<BalanceProbe>, deltas: Deltas, logs: seq<Log>)
    requires Reported(report, probes, Reading(deltas)) && Sums(deltas, logs)
    ensures Reported(report, probes, NetOf(logs))
  {
    hide Delta, At;
  }

  method VerifyReceipt(receipt: Receipt, hash: string, o: Obligations) returns (r: Verification)
    ensures receipt.transactionHash != hash ==> r == Unavailable
    ensures receipt.transactionHash == hash && !receipt.success ==> r == Reverted
    ensures receipt.transactionHash == hash && receipt.success ==>
              if AllAdmitted(receipt.logs, hash) then
                var logs := LogsOf(receipt.logs);
                && r.Checked? && r.passed == Passes(logs, o)
                && r.inputSpent == -Delta(logs, o.tokenIn, o.recipient)
                && r.outputReceived == Delta(logs, o.tokenOut, o.recipient)
                && Reported(r.intermediate, o.intermediate, NetOf(logs))
                && r.touched == map p | p in o.touched :: Delta(logs, p.token, p.owner)
              else r == Unavailable
  {
    hide Delta, Admitted, At;
    if receipt.transactionHash != hash { return Unavailable; }
    if !receipt.success { return Reverted; }
    var deltas := FoldDeltas(receipt.logs, hash);
    if deltas.None? { return Unavailable; }
    var input := -At(deltas.value, o.tokenIn, o.recipient);
    var output := At(deltas.value, o.tokenOut, o.recipient);
    ghost var logs := LogsOf(receipt.logs);
    var residue := Residue(deltas.value, o.intermediate + o.touched);
    ResidueIsProtection(deltas.value, logs, o.intermediate, o.touched);
    var intermediate := ReportIntermediates(deltas.value, o.intermediate);
    ReportIsNet(intermediate, o.intermediate, deltas.value, logs);
    var touched := map p | p in o.touched :: At(deltas.value, p.token, p.owner);
    return Checked(input == o.amountIn && output >= o.minimum && !residue, input, output, intermediate, touched);
  }

  predicate Residue(deltas: Deltas, probes: seq<BalanceProbe>) {
    exists i :: 0 <= i < |probes| && At(deltas, probes[i].token, probes[i].owner) != 0
  }

  lemma ResidueIsProtection(deltas: Deltas, logs: seq<Log>, a: seq<BalanceProbe>, b: seq<BalanceProbe>)
    requires Sums(deltas, logs)
    ensures Residue(deltas, a + b) <==> !(Protected(logs, a) && Protected(logs, b))
  {
    hide Delta, At;
    if !Protected(logs, a) {
      var i :| 0 <= i < |a| && Delta(logs, a[i].token, a[i].owner) != 0;
      assert (a + b)[i] == a[i];
    }
    if !Protected(logs, b) {
      var i :| 0 <= i < |b| && Delta(logs, b[i].token, b[i].owner) != 0;
      assert (a + b)[|a| + i] == b[i];
    }
    if Protected(logs, a) && Protected(logs, b) {
      forall i | 0 <= i < |a + b| ensures At(deltas, (a + b)[i].token, (a + b)[i].owner) == 0 {
        assert (a + b)[i] == if i < |a| then a[i] else b[i - |a|];
      }
    }
  }

  // ---------- the two agree ----------

  // The logs a call leaves behind: a failed call takes its own and its children's back.
  function Emitted(call: Call): seq<Log> {
    if call.failed then [] else call.logs + EmittedAll(call.calls)
  }

  function EmittedAll(calls: seq<Call>): seq<Log> {
    if calls == [] then [] else Emitted(calls[0]) + EmittedAll(calls[1..])
  }

  lemma {:induction false} EmittedAppends(calls: seq<Call>, last: Call)
    ensures EmittedAll(calls + [last]) == EmittedAll(calls) + Emitted(last)
  {
    hide Emitted;
    if calls == [] {
      assert EmittedAll([last]) == Emitted(last) + EmittedAll([]);
    } else {
      assert (calls + [last])[1..] == calls[1..] + [last];
      EmittedAppends(calls[1..], last);
    }
  }

  // A call that succeeded emits its own logs and what its calls emit; one that failed emits nothing.
  lemma TreeOfLogs(logs: seq<Log>, calls: seq<Call>, last: Call)
    ensures Emitted(Call(true, logs, calls)) == [] && Emitted(Call(false, logs, [])) == logs
    ensures Emitted(Call(false, logs, calls + [last])) == Emitted(Call(false, logs, calls)) + Emitted(last)
  {
    EmittedAppends(calls, last);
  }

  // The receipt of a call tree: successful unless the call itself failed, with the emitted logs under the
  // transaction's own hash. A call may log between its calls, so the order need not be the tree's.
  ghost predicate ReceiptOf(receipt: Receipt, call: Call, hash: string) {
    && receipt.transactionHash == hash && receipt.success == !call.failed
    && multiset(LogsOf(receipt.logs)) == multiset(Emitted(call))
    && forall i :: 0 <= i < |receipt.logs| ==> receipt.logs[i].transactionHash == hash && !receipt.logs[i].removed
  }

  // What a passed receipt check has found.
  ghost predicate ReceiptPasses(receipt: Receipt, hash: string, o: Obligations) {
    && receipt.transactionHash == hash && receipt.success && AllAdmitted(receipt.logs, hash)
    && Passes(LogsOf(receipt.logs), o)
  }

  predicate AllStandard(logs: seq<Log>) {
    forall log :: log in logs && IsTransfer(log) ==> Standard(log)
  }

  lemma {:induction false} CleanEmitsAll(call: Call)
    requires Clean(call)
    ensures Emitted(call) == Flatten(call)
  {
    CleanChildrenEmitAll(call.calls);
  }

  lemma {:induction false} CleanChildrenEmitAll(calls: seq<Call>)
    requires forall child :: child in calls ==> Clean(child)
    ensures EmittedAll(calls) == FlattenAll(calls)
  {
    if calls != [] {
      CleanEmitsAll(calls[0]);
      CleanChildrenEmitAll(calls[1..]);
    }
  }

  ghost predicate Matching(checks: SimulationChecks, o: Obligations) {
    && checks.input == BalanceProbe(o.tokenIn, o.recipient) && checks.output == BalanceProbe(o.tokenOut, o.recipient)
    && checks.clearAllowances == []
    && (forall p :: p in checks.preserve <==> p in o.intermediate || p in o.touched)
  }

  lemma SameProtection(logs: seq<Log>, checks: SimulationChecks, o: Obligations)
    requires Matching(checks, o)
    ensures Protected(logs, checks.preserve) <==> Protected(logs, o.intermediate) && Protected(logs, o.touched)
  {
    hide Delta;
    ProtectedMembers(logs, checks.preserve);
    ProtectedMembers(logs, o.intermediate);
    ProtectedMembers(logs, o.touched);
  }

  lemma ProtectedMembers(logs: seq<Log>, probes: seq<BalanceProbe>)
    ensures Protected(logs, probes) <==> forall p :: p in probes ==> Delta(logs, p.token, p.owner) == 0
  {
    hide Delta;
    if forall p :: p in probes ==> Delta(logs, p.token, p.owner) == 0 {
      forall i | 0 <= i < |probes| ensures Delta(logs, probes[i].token, probes[i].owner) == 0 {
        assert probes[i] in probes;
      }
    }
  }

  // On every call tree, with matching obligations, the receipt check passes and no call inside had failed
  // exactly when the simulation accepts and every Transfer log is standard.
  lemma ReceiptAgreesWithSimulation(
      call: Call, checks: SimulationChecks, o: Obligations, receipt: Receipt, hash: string)
    requires Matching(checks, o) && ReceiptOf(receipt, call, hash)
    ensures Clean(call) && ReceiptPasses(receipt, hash, o) <==>
            AllStandard(Emitted(call)) && Verdict(call, checks, o.amountIn, o.minimum).Simulated?
  {
    hide Delta, Flatten, Emitted, Clean, AllStandard, Protected, LogsOf, AllAdmitted;
    if Clean(call) {
      var logs, emitted := Flatten(call), LogsOf(receipt.logs);
      CleanEmitsAll(call);
      CleanIsNotFailed(call);
      SameProtection(emitted, checks, o);
      AdmittedMeansStandard(receipt.logs, logs, hash);
      DeltaIgnoresOrder(emitted, logs, o.tokenIn, o.recipient);
      DeltaIgnoresOrder(emitted, logs, o.tokenOut, o.recipient);
      ProtectionIgnoresOrder(emitted, logs, checks.preserve);
    }
  }

  // So the two disagree in two ways only: the simulation accepts a Transfer log the receipt check cannot
  // read, or it refuses because of a failure inside that its caller recovered from.
  lemma WaysToDisagree(call: Call, checks: SimulationChecks, o: Obligations, receipt: Receipt, hash: string)
    requires Matching(checks, o) && ReceiptOf(receipt, call, hash)
    ensures
      var simulated := Verdict(call, checks, o.amountIn, o.minimum).Simulated?;
      var passes := ReceiptPasses(receipt, hash, o);
      && (simulated && !passes <==> simulated && !AllStandard(Emitted(call)))
      && (passes && !simulated <==> passes && !Clean(call))
  {
    hide Verdict, ReceiptPasses, AllStandard, Emitted, Clean;
    ReceiptAgreesWithSimulation(call, checks, o, receipt, hash);
    if ReceiptPasses(receipt, hash, o) { PassingIsStandard(call, o, receipt, hash); }
    AcceptedIsClean(call, checks, o);
  }

  lemma PassingIsStandard(call: Call, o: Obligations, receipt: Receipt, hash: string)
    requires ReceiptOf(receipt, call, hash) && ReceiptPasses(receipt, hash, o)
    ensures AllStandard(Emitted(call))
  {
    hide Emitted, Passes, LogsOf, AllAdmitted, AllStandard;
    AdmittedMeansStandard(receipt.logs, Emitted(call), hash);
  }

  lemma AcceptedIsClean(call: Call, checks: SimulationChecks, o: Obligations)
    ensures Verdict(call, checks, o.amountIn, o.minimum).Simulated? ==> Clean(call)
  {
    hide Delta, Flatten, Clean, Protected;
  }

  lemma CleanIsNotFailed(call: Call)
    requires Clean(call)
    ensures !call.failed
  {}

  lemma ProtectionIgnoresOrder(a: seq<Log>, b: seq<Log>, probes: seq<BalanceProbe>)
    requires multiset(a) == multiset(b)
    ensures Protected(a, probes) <==> Protected(b, probes)
  {
    hide Delta;
    forall i | 0 <= i < |probes|
      ensures Delta(a, probes[i].token, probes[i].owner) == Delta(b, probes[i].token, probes[i].owner)
    {
      DeltaIgnoresOrder(a, b, probes[i].token, probes[i].owner);
    }
  }

  lemma AdmittedMeansStandard(items: seq<ReceiptLog>, logs: seq<Log>, hash: string)
    requires multiset(LogsOf(items)) == multiset(logs)
    requires forall i :: 0 <= i < |items| ==> items[i].transactionHash == hash && !items[i].removed
    ensures AllAdmitted(items, hash) <==> AllStandard(logs)
  {
    hide Standard, IsTransfer;
    if AllAdmitted(items, hash) {
      forall log | log in logs && IsTransfer(log) ensures Standard(log) {
        assert log in multiset(LogsOf(items));
        var i :| 0 <= i < |items| && LogsOf(items)[i] == log;
        assert Admitted(items[i], hash);
      }
    } else {
      var i :| 0 <= i < |items| && !Admitted(items[i], hash);
      assert LogsOf(items)[i] in multiset(logs);
      assert items[i].log in logs;
    }
  }

  // ---------- both ways happen ----------

  const CHECKS: SimulationChecks := SimulationChecks(BalanceProbe(1, 5), BalanceProbe(2, 5), [], [])
  const OBLIGATIONS: Obligations := Obligations(1, 2, 5, 100, 150, [], [])

  // A transfer of an amount, its sender's word with these bits above the address.
  function Moved(token: Address, from: Address, to: Address, amount: nat, high: nat): Log
    requires ADDRESS_LIMIT * high + from < UINT256_LIMIT
  {
    Log(token, [TRANSFER, ADDRESS_LIMIT * high + from, to], Digits(256, 32, amount))
  }

  // 100 of the input paid to a pool, 200 of the output received from it.
  function Swap(high: nat): seq<Log>
    requires high <= 1
  {
    [Moved(1, 5, 9, 100, 0), Moved(2, 9, 5, 200, high)]
  }

  function Receipted(logs: seq<Log>): Receipt {
    Receipt("0x", true, seq(|logs|, i requires 0 <= i < |logs| => ReceiptLog(logs[i], "0x", false)))
  }

  // An address word with high bits set: counted by the simulation, refused by the receipt check.
  lemma EngineIsMoreLenient()
    ensures
      var call := Call(false, Swap(1), []);
      && ReceiptOf(Receipted(Swap(1)), call, "0x") && Matching(CHECKS, OBLIGATIONS)
      && Verdict(call, CHECKS, 100, 150) == Simulated(200)
      && !ReceiptPasses(Receipted(Swap(1)), "0x", OBLIGATIONS)
  {
    SwapMoves(1);
    ReceiptOfTree(Swap(1), []);
    hide Delta, Swap, AllStandard, AllAdmitted;
    assert Swap(1) + [] == Swap(1);
    AdmittedMeansStandard(Receipted(Swap(1)).logs, Swap(1), "0x");
  }

  // A failure inside that its caller recovered from: refused by the simulation, passed by the receipt check.
  lemma EngineIsStricter()
    ensures
      var call := Call(false, Swap(0), [Call(true, [], [])]);
      && ReceiptOf(Receipted(Swap(0)), call, "0x") && Matching(CHECKS, OBLIGATIONS)
      && Verdict(call, CHECKS, 100, 150) == Refused(Evidence)
      && ReceiptPasses(Receipted(Swap(0)), "0x", OBLIGATIONS)
  {
    SwapMoves(0);
    FailureInside(Swap(0));
    hide Delta, Swap, AllStandard, AllAdmitted, Clean, Flatten, Emitted, EmittedAll;
    ReceiptOfTree(Swap(0), [Call(true, [], [])]);
    AdmittedMeansStandard(Receipted(Swap(0)).logs, Swap(0), "0x");
  }

  lemma FailureInside(logs: seq<Log>)
    ensures EmittedAll([Call(true, [], [])]) == [] && !Clean(Call(false, logs, [Call(true, [], [])]))
  {
    var calls := [Call(true, [], [])];
    assert calls[1..] == [] && calls[0] in calls;
  }

  lemma ReceiptOfTree(logs: seq<Log>, calls: seq<Call>)
    requires EmittedAll(calls) == []
    ensures ReceiptOf(Receipted(logs), Call(false, logs, calls), "0x") && LogsOf(Receipted(logs).logs) == logs
  {
    assert LogsOf(Receipted(logs).logs) == logs;
    assert Emitted(Call(false, logs, calls)) == logs + [];
    assert logs + [] == logs;
  }

  lemma SwapMoves(high: nat)
    requires high <= 1
    ensures Delta(Swap(high), 1, 5) == -100 && Delta(Swap(high), 2, 5) == 200
    ensures AllStandard(Swap(high)) <==> high == 0
  {
    hide Effect, Standard, IsTransfer;
    var swap := Swap(high);
    TransferMoves(swap[0], 1, 5, 9, 0, 0, 100, 5);
    TransferMoves(swap[1], 2, 9, 5, high, 0, 200, 5);
    assert swap[..1] == [swap[0]] && [swap[0]][..0] == [];
    assert Delta([swap[0]], 1, 5) == -100 && Delta([swap[0]], 2, 5) == 0;
    assert swap[0] in swap && swap[1] in swap;
  }
}
