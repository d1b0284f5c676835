// What every trade run keeps, read off everything it does in order.
module TradeTheorems {
  import opened Messages
  import opened Policy
  import opened Execution
  import opened Trade
  import opened Numerals

  predicate IsSend(s: Step) { s.Doing? && s.deed.Send? }

  function SentKinds(w: seq<Step>): seq<Kind> {
    if w == [] then []
    else SentKinds(w[..|w| - 1]) + if IsSend(w[|w| - 1]) then [w[|w| - 1].deed.kind] else []
  }

  lemma {:induction false} SentConcat(a: seq<Step>, b: seq<Step>)
    ensures SentKinds(a + b) == SentKinds(a) + SentKinds(b)
  {
    if b == [] {
      assert a + b == a;
    } else {
      assert (a + b)[..|a + b| - 1] == a + b[..|b| - 1];
      SentConcat(a, b[..|b| - 1]);
    }
  }

  // ---------- how many sends, and of what ----------

  function KindSent(c: Course): seq<Kind> { if SentCourse(c) then [c.kind] else [] }

  lemma NoSends(w: seq<Step>)
    requires forall i :: 0 <= i < |w| ==> !IsSend(w[i])
    ensures SentKinds(w) == []
  {
    if w != [] { NoSends(w[..|w| - 1]); }
  }

  lemma {:induction false} OneSend(w: seq<Step>, k: nat)
    requires k < |w| && IsSend(w[k]) && forall i :: 0 <= i < |w| && i != k ==> !IsSend(w[i])
    ensures SentKinds(w) == [w[k].deed.kind]
  {
    var init := w[..|w| - 1];
    if k == |w| - 1 { NoSends(init); } else { OneSend(init, k); }
  }

  lemma RoundSends(k: nat, round: Round)
    ensures SentKinds(RoundWord(k, round)) == if round.Ran? then KindSent(round.course) else []
  {
    hide SentKinds;
    var w := RoundWord(k, round);
    if round.Ran? && SentCourse(round.course) {
      assert w[4] == Doing(Send(round.course.kind, round.course.sent));
      OneSend(w, 4);
    } else {
      NoSends(w);
    }
  }

  function KindAt(round: Round): Kind { if round.Ran? && SentCourse(round.course) then round.course.kind else Swap }

  function KindsAt(rounds: seq<Round>): (ks: seq<Kind>)
    ensures |ks| == |rounds| && forall i :: 0 <= i < |ks| ==> ks[i] == KindAt(rounds[i])
  {
    seq(|rounds|, i requires 0 <= i < |rounds| => KindAt(rounds[i]))
  }

  lemma ContinuingRoundSends(k: nat, round: Round)
    requires Continues(round)
    ensures SentKinds(RoundWord(k, round)) == [KindAt(round)]
  {
    hide SentKinds, RoundWord;
    RoundSends(k, round);
  }

  // Rounds that continued sent once each.
  lemma {:induction false} ContinuedSends(rounds: seq<Round>)
    requires forall i :: 0 <= i < |rounds| ==> Continues(rounds[i])
    ensures SentKinds(RunWord(rounds)) == KindsAt(rounds)
  {
    hide SentKinds, RoundWord, Continues, KindAt;
    if rounds != [] {
      var n := |rounds| - 1;
      var init := rounds[..n];
      ContinuedSends(init);
      SentConcat(RunWord(init), RoundWord(n, rounds[n]));
      ContinuingRoundSends(n, rounds[n]);
      assert KindsAt(rounds) == KindsAt(init) + [KindAt(rounds[n])];
    } else {
      EmptyRun();
    }
  }

  lemma EmptyRun()
    ensures SentKinds(RunWord([])) == []
  {}

  lemma LastRoundSends(k: nat, round: Round)
    ensures SentKinds(RoundWord(k, round)) ==
            if round.Ran? && SentCourse(round.course) then [KindAt(round)] else []
  {
    hide SentKinds, RoundWord;
    RoundSends(k, round);
  }

  ghost predicate SentBy(ks: seq<Kind>, rounds: seq<Round>) {
    && |rounds| - 1 <= |ks| <= |rounds|
    && forall i :: 0 <= i < |ks| ==> SentIn(ks[i], rounds[i])
  }

  predicate SentIn(kind: Kind, round: Round) {
    round.Ran? && SentCourse(round.course) && kind == KindAt(round)
  }

  // One send in each round but the last, and at most one there.
  lemma RunSends(rounds: seq<Round>)
    requires forall i :: 0 <= i < |rounds| - 1 ==> Continues(rounds[i])
    ensures SentBy(SentKinds(RunWord(rounds)), rounds)
  {
    hide SentKinds, RoundWord, KindAt, Continues, SentCourse;
    if rounds != [] {
      var n := |rounds| - 1;
      var init := rounds[..n];
      ContinuedSends(init);
      SentConcat(RunWord(init), RoundWord(n, rounds[n]));
      LastRoundSends(n, rounds[n]);
      var before, ks := KindsAt(init), SentKinds(RunWord(rounds));
      forall i | 0 <= i < |ks| ensures SentIn(ks[i], rounds[i]) {
        if i < n {
          assert ks[i] == before[i] == KindAt(init[i]) && init[i] == rounds[i];
          ContinuedSent(rounds[i]);
        }
      }
    } else {
      EmptyRun();
    }
  }

  lemma ContinuedSent(round: Round)
    requires Continues(round)
    ensures SentIn(KindAt(round), round)
  {}

  // At most three sends: an ERC-20 approval only as the first and only in round 0, a swap only as
  // the last, and nothing but a swap in the last round.
  lemma SendsOfARun(rounds: seq<Round>)
    requires RoundsOk(rounds)
    ensures var ks := SentKinds(RunWord(rounds));
            && |ks| <= 3
            && (forall i :: 0 <= i < |ks| && ks[i] == Approval(false) ==> i == 0)
            && (forall i :: 0 <= i < |ks| && ks[i].Swap? ==> i == |ks| - 1)
            && (forall i :: 2 <= i < |ks| ==> ks[i].Swap?)
  {
    hide SentKinds, RunWord;
    RunSends(rounds);
    var ks := SentKinds(RunWord(rounds));
    forall i | 0 <= i < |ks| ensures PolicyAllows(PolicyOf(i), ks[i]) {
      assert SentCourse(rounds[i].course);
      assert Honoured(PolicyOf(i), rounds[i].course);
    }
    forall i | 0 <= i < |ks| ensures i < |ks| - 1 ==> ks[i].Approval? {
      if i < |rounds| - 1 { assert Continues(rounds[i]); }
    }
  }

  // ---------- consent ----------

  // Every send comes right after a true confirmation of its kind, showing the very transaction sent.
  ghost predicate Consented(w: seq<Step>) {
    forall i :: 0 <= i < |w| && IsSend(w[i]) ==>
      i > 0 && w[i - 1] == Doing(Confirm(w[i].deed.kind, w[i].deed.sent, true))
  }

  // Whatever the callbacks do: a send comes right after a true confirmation of its own kind, which
  // showed the transaction of the plan its round validated.
  ghost predicate ConfirmedAt(rounds: seq<Round>, w: seq<Step>, i: nat)
    requires i < |w| && IsSend(w[i])
  {
    && i > 0 && w[i - 1].Doing? && w[i - 1].deed.Confirm? && w[i - 1].deed.confirmed
    && w[i - 1].deed.kind == w[i].deed.kind
    && exists k :: 0 <= k < |rounds| && rounds[k].Ran? && SentCourse(rounds[k].course)
         && w[i - 1].deed.shown == rounds[k].course.shown && w[i].deed.sent == rounds[k].course.sent
         && w[i].deed.kind == rounds[k].course.kind
  }

  lemma RoundConfirmed(rounds: seq<Round>, k: nat, i: nat)
    requires k < |rounds| && i < |RoundWord(k, rounds[k])| && IsSend(RoundWord(k, rounds[k])[i])
    ensures ConfirmedAt(rounds, RoundWord(k, rounds[k]), i)
  {
    assert rounds[k].Ran?;
  }

  lemma ConfirmedLater(rounds: seq<Round>, a: seq<Step>, b: seq<Step>, i: nat)
    requires i < |b| && IsSend(b[i]) && ConfirmedAt(rounds, b, i)
    ensures ConfirmedAt(rounds, a + b, |a| + i)
  {
    assert (a + b)[|a| + i] == b[i] && (a + b)[|a| + i - 1] == b[i - 1];
  }

  lemma ConfirmedEarlier(rounds: seq<Round>, n: nat, a: seq<Step>, b: seq<Step>, i: nat)
    requires n <= |rounds| && i < |a| && IsSend(a[i]) && ConfirmedAt(rounds[..n], a, i)
    ensures ConfirmedAt(rounds, a + b, i)
  {
    assert (a + b)[i] == a[i] && (a + b)[i - 1] == a[i - 1];
    var k :| 0 <= k < n && rounds[..n][k].Ran? && SentCourse(rounds[..n][k].course)
      && a[i - 1].deed.shown == rounds[..n][k].course.shown && a[i].deed.sent == rounds[..n][k].course.sent
      && a[i].deed.kind == rounds[..n][k].course.kind;
    assert rounds[k] == rounds[..n][k];
  }

  ghost predicate AllConfirmed(rounds: seq<Round>, w: seq<Step>) {
    forall i :: 0 <= i < |w| && IsSend(w[i]) ==> ConfirmedAt(rounds, w, i)
  }

  lemma ConfirmedConcat(rounds: seq<Round>, n: nat, a: seq<Step>)
    requires n < |rounds| && AllConfirmed(rounds[..n], a)
    ensures AllConfirmed(rounds, a + RoundWord(n, rounds[n]))
  {
    hide ConfirmedAt, RoundWord;
    var b := RoundWord(n, rounds[n]);
    forall i | 0 <= i < |a + b| && IsSend((a + b)[i]) ensures ConfirmedAt(rounds, a + b, i) {
      if i < |a| {
        assert IsSend(a[i]);
        ConfirmedEarlier(rounds, n, a, b, i);
      } else {
        assert IsSend(b[i - |a|]);
        RoundConfirmed(rounds, n, i - |a|);
        ConfirmedLater(rounds, a, b, i - |a|);
      }
    }
  }

  lemma {:induction false} EverySendIsConfirmed(rounds: seq<Round>)
    ensures AllConfirmed(rounds, RunWord(rounds))
  {
    if rounds != [] {
      hide AllConfirmed, RoundWord;
      EverySendIsConfirmed(rounds[..|rounds| - 1]);
      ConfirmedConcat(rounds, |rounds| - 1, RunWord(rounds[..|rounds| - 1]));
    }
  }

  ghost predicate SentAsShown(rounds: seq<Round>) {
    forall i :: 0 <= i < |rounds| && rounds[i].Ran? && SentCourse(rounds[i].course) ==>
      rounds[i].course.sent == rounds[i].course.shown
  }

  lemma FaithfulRunsSendAsShown(rounds: seq<Round>, io: nat -> RoundTold, w: Wanted, meddling: Meddling)
    requires AllGo(rounds, io, w, meddling) && !meddling.Anything?
    ensures SentAsShown(rounds)
  {
    hide MaySend, Went, ValidatePreparation, FirstUnder, WantedId, StaleQuote;
    forall i | 0 <= i < |rounds| && rounds[i].Ran? && SentCourse(rounds[i].course)
      ensures rounds[i].course.sent == rounds[i].course.shown
    {
      assert RoundGoes(rounds[i], Before(rounds, i), i, io(i), w, meddling);
    }
  }

  lemma ConsentedConcat(a: seq<Step>, b: seq<Step>)
    requires Consented(a) && Consented(b)
    ensures Consented(a + b)
  {
    var w := a + b;
    forall i | 0 <= i < |w| && IsSend(w[i]) ensures i > 0 && w[i - 1] == Doing(Confirm(w[i].deed.kind, w[i].deed.sent, true)) {
      if i >= |a| { assert b[i - |a|] == w[i] && b[i - |a| - 1] == w[i - 1]; }
    }
  }

  lemma RoundConsented(k: nat, round: Round)
    requires round.Ran? && SentCourse(round.course) ==> round.course.sent == round.course.shown
    ensures Consented(RoundWord(k, round))
  {
    var w := RoundWord(k, round);
    if round.Ran? && SentCourse(round.course) {
      assert w[4] == Doing(Send(round.course.kind, round.course.sent));
      assert w[3] == Doing(Confirm(round.course.kind, round.course.shown, true));
      assert forall i :: 0 <= i < |w| && i != 4 ==> !IsSend(w[i]);
    } else {
      assert forall i :: 0 <= i < |w| ==> !IsSend(w[i]);
    }
  }

  lemma {:induction false} EverySendIsConsented(rounds: seq<Round>)
    requires SentAsShown(rounds)
    ensures Consented(RunWord(rounds))
  {
    if rounds != [] {
      hide Consented, RoundWord;
      var n := |rounds| - 1;
      EverySendIsConsented(rounds[..n]);
      RoundConsented(n, rounds[n]);
      ConsentedConcat(RunWord(rounds[..n]), RoundWord(n, rounds[n]));
    }
  }

  // ---------- of what was asked for ----------

  // What is sent is of the trade: of its amount and pair, over the first route of its round's quote under the
  // identifier the user named, and confirmed; the engine was asked again after the confirmation and said the
  // same, unexpired then and at the send, and the network was the right one both times.
  lemma SendsAreOfTheTrade(rounds: seq<Round>, io: nat -> RoundTold, w: Wanted, meddling: Meddling, k: nat)
    requires AllGo(rounds, io, w, meddling) && k < |rounds| && rounds[k].Ran? && SentCourse(rounds[k].course)
    ensures io(k).told.first.Some? && io(k).told.second.Some? && io(k).quote == Some(rounds[k].quote)
    ensures
      var told, first, second := io(k).told, io(k).told.first.value, io(k).told.second.value;
      && told.network == Some(true) && told.networkAgain == Some(true) && told.confirmed == Some(true)
      && first.terms.amountIn == w.amountIn && first.terms.tokenIn == w.tokenIn && first.terms.tokenOut == w.tokenOut
      && first.terms.route.Some? && first.terms.route == FindRoute(rounds[k].quote.routes, rounds[k].routeId)
      && (w.routeId.Some? ==> rounds[k].routeId == w.routeId.value)
      && (second.status == Ready || second.status == ApprovalRequired) && second.status == first.status
      && second.terms == first.terms && second.transaction == first.transaction
      && second.approvalSpender == first.approvalSpender && second.approvalTransaction == first.approvalTransaction
      && second.permission == first.permission
      && IsDecimal(first.terms.deadline) && told.checkedAt < Value(first.terms.deadline)
      && told.sentAt < Value(first.terms.deadline)
  {
    hide AllGo, CourseGoes, MaySend, Value, AllDigits;
    var route := RouteOfRound(rounds, io, w, meddling, k);
    SentIsOfTheTrade(rounds[k].course, route, k, io(k), w, meddling);
    RepeatsWhat(io(k).told.first.value, io(k).told);
  }

  lemma RouteOfRound(rounds: seq<Round>, io: nat -> RoundTold, w: Wanted, meddling: Meddling, k: nat)
    returns (route: Route)
    requires AllGo(rounds, io, w, meddling) && k < |rounds| && rounds[k].Ran?
    ensures io(k).quote == Some(rounds[k].quote) && FindRoute(rounds[k].quote.routes, rounds[k].routeId) == Some(route)
    ensures w.routeId.Some? ==> rounds[k].routeId == w.routeId.value
    ensures CourseGoes(rounds[k].course, route, k, io(k), w, meddling)
  {
    hide CourseGoes, StaleQuote;
    assert RoundGoes(rounds[k], Before(rounds, k), k, io(k), w, meddling);
    route :| FirstUnder(rounds[k].quote.routes, rounds[k].routeId, route)
      && CourseGoes(rounds[k].course, route, k, io(k), w, meddling);
    var routes := rounds[k].quote.routes;
    var i :| 0 <= i < |routes| && routes[i] == route && route.routeId == rounds[k].routeId
      && forall j :: 0 <= j < i ==> routes[j].routeId != rounds[k].routeId;
    FirstIsFound(routes, i);
  }

  lemma SentIsOfTheTrade(course: Course, route: Route, k: nat, io: RoundTold, w: Wanted, meddling: Meddling)
    requires CourseGoes(course, route, k, io, w, meddling) && SentCourse(course)
    ensures io.told.first.Some? && io.told.network == Some(true) && io.told.confirmed == Some(true)
    ensures OfTheTrade(io.told.first.value, route, w) && MaySend(io.told.first.value, io.told)
  {
    hide Went, ValidatePreparation, MaySend, OfTheTrade;
  }

  lemma RepeatsWhat(first: Response, told: Told)
    requires MaySend(first, told)
    ensures told.second.Some? && told.networkAgain == Some(true)
    ensures
      var second := told.second.value;
      && (second.status == Ready || second.status == ApprovalRequired) && second.status == first.status
      && second.terms == first.terms && second.transaction == first.transaction
      && second.approvalSpender == first.approvalSpender && second.approvalTransaction == first.approvalTransaction
      && second.permission == first.permission
      && IsDecimal(first.terms.deadline) && told.checkedAt < Value(first.terms.deadline)
      && told.sentAt < Value(first.terms.deadline)
  {
    hide Value, AllDigits;
  }

  // A round ends without a route exactly when its quote is stale or has no route under the identifier, and the run
  // goes on exactly after a confirmed approval of its first two rounds.
  lemma RoundsEndForAReason(rounds: seq<Round>, io: nat -> RoundTold, w: Wanted, meddling: Meddling, k: nat)
    requires RoundsOk(rounds) && AllGo(rounds, io, w, meddling) && k < |rounds|
    ensures rounds[k].NoQuote? <==> io(k).quote.None?
    ensures rounds[k].NoRoute? <==>
            && io(k).quote.Some?
            && var quote := io(k).quote.value;
               || quote.quoteId == "" || (k > 0 && io(k - 1).quote.Some? && quote.quoteId == io(k - 1).quote.value.quoteId)
               || (w.routeId.None? && quote.bestRouteId.None?)
               || forall r :: r in quote.routes ==>
                    r.routeId != if w.routeId.Some? then w.routeId.value else quote.bestRouteId.value
    ensures k == |rounds| - 1 <==>
            || k == 2
            || !(rounds[k].Ran? && OutcomeOf(rounds[k].course).Returned?
                 && OutcomeOf(rounds[k].course).result.ApprovalConfirmed?)
  {
    hide CourseGoes, Honoured;
    assert RoundGoes(rounds[k], Before(rounds, k), k, io(k), w, meddling);
    if k > 0 { assert RoundGoes(rounds[k - 1], Before(rounds, k - 1), k - 1, io(k - 1), w, meddling); }
    if rounds[k].Ran? { HonouredConfirmation(PolicyOf(k), rounds[k].course); }
  }

  lemma HonouredConfirmation(policy: ApprovalPolicy, c: Course)
    requires Honoured(policy, c)
    ensures OutcomeOf(c).Returned? && OutcomeOf(c).result.ApprovalConfirmed? <==>
            c.Settled? && c.kind.Approval? && c.evidence == ReceiptSuccess
  {}

  // ---------- nothing after an unhappy end ----------

  // A declined confirmation, a failed or unavailable verification, or a send of unknown fate.
  predicate Final(s: Step) {
    s.Doing? &&
    match s.deed
    case Report(CancelReported) => true
    case Report(SendUnknown) => true
    case Report(ReceiptUnavailable(_)) => true
    case Report(Verified(_, evidence)) => evidence == Failed || evidence == Unavailable
    case Confirm(_, _, confirmed) => !confirmed
    case _ => false
  }

  ghost predicate StopsThere(w: seq<Step>) {
    forall i, j :: 0 <= i < j < |w| && Final(w[i]) ==> !IsSend(w[j])
  }

  predicate NeverFinal(w: seq<Step>) { forall i :: 0 <= i < |w| ==> !Final(w[i]) }

  lemma ContinuingRoundIsNeverFinal(k: nat, round: Round)
    requires Continues(round)
    ensures NeverFinal(RoundWord(k, round))
  {}

  lemma RoundStops(k: nat, round: Round)
    ensures StopsThere(RoundWord(k, round))
  {}

  lemma StopsConcat(a: seq<Step>, b: seq<Step>)
    requires NeverFinal(a) && StopsThere(b)
    ensures StopsThere(a + b)
  {
    var w := a + b;
    assert forall k :: 0 <= k < |a| ==> w[k] == a[k] && !Final(w[k]);
    forall i, j | 0 <= i < j < |w| && Final(w[i]) ensures !IsSend(w[j]) {
      assert i >= |a|;
      assert w[i] == b[i - |a|] && w[j] == b[j - |a|];
    }
  }

  lemma {:induction false} ContinuedIsNeverFinal(rounds: seq<Round>)
    requires forall i :: 0 <= i < |rounds| ==> Continues(rounds[i])
    ensures NeverFinal(RunWord(rounds))
  {
    if rounds != [] {
      hide Continues, RoundWord;
      var n := |rounds| - 1;
      ContinuedIsNeverFinal(rounds[..n]);
      ContinuingRoundIsNeverFinal(n, rounds[n]);
    }
  }

  // Nothing is sent after a canceled, failed or unknown result.
  lemma NothingAfterAnUnhappyEnd(rounds: seq<Round>)
    requires RoundsOk(rounds)
    ensures StopsThere(RunWord(rounds))
  {
    if rounds != [] {
      hide StopsThere, RoundWord, NeverFinal, Continues;
      var n := |rounds| - 1;
      ContinuedIsNeverFinal(rounds[..n]);
      RoundStops(n, rounds[n]);
      StopsConcat(RunWord(rounds[..n]), RoundWord(n, rounds[n]));
    }
  }

  // ---------- the hash before the wait ----------

  // Whoever waits for a receipt has just reported the submitted hash, right after sending.
  ghost predicate ReportedFirst(w: seq<Step>) {
    forall i :: 0 <= i < |w| && w[i].Doing? && w[i].deed.AwaitReceipt? ==>
      i >= 2 && IsSend(w[i - 2]) && w[i - 1] == Doing(Report(Submitted(w[i].deed.hash, w[i - 2].deed.kind)))
  }

  lemma RoundReportsFirst(k: nat, round: Round)
    ensures ReportedFirst(RoundWord(k, round))
  {
    var w := RoundWord(k, round);
    if round.Ran? && (round.course.NoReceipt? || round.course.Settled?) {
      var c := round.course;
      assert w[4] == Doing(Send(c.kind, c.sent)) && w[5] == Doing(Report(Submitted(c.hash, c.kind)));
      assert forall i :: 0 <= i < |w| && i != 6 ==> !(w[i].Doing? && w[i].deed.AwaitReceipt?);
    } else {
      assert forall i :: 0 <= i < |w| ==> !(w[i].Doing? && w[i].deed.AwaitReceipt?);
    }
  }

  lemma ReportsConcat(a: seq<Step>, b: seq<Step>)
    requires ReportedFirst(a) && ReportedFirst(b)
    ensures ReportedFirst(a + b)
  {
    var w := a + b;
    forall i | 0 <= i < |w| && w[i].Doing? && w[i].deed.AwaitReceipt?
      ensures i >= 2 && IsSend(w[i - 2]) && w[i - 1] == Doing(Report(Submitted(w[i].deed.hash, w[i - 2].deed.kind)))
    {
      if i >= |a| {
        assert b[i - |a|] == w[i] && b[i - |a| - 1] == w[i - 1] && b[i - |a| - 2] == w[i - 2];
      } else {
        assert a[i] == w[i] && a[i - 1] == w[i - 1] && a[i - 2] == w[i - 2];
      }
    }
  }

  lemma {:induction false} HashIsReportedBeforeTheWait(rounds: seq<Round>)
    ensures ReportedFirst(RunWord(rounds))
  {
    if rounds != [] {
      hide ReportedFirst, RoundWord;
      var n := |rounds| - 1;
      HashIsReportedBeforeTheWait(rounds[..n]);
      RoundReportsFirst(n, rounds[n]);
      ReportsConcat(RunWord(rounds[..n]), RoundWord(n, rounds[n]));
    }
  }

  // ---------- fresh quotes ----------

  // Freshness is checked against the preceding quote only: a run may come back to the quote before.
  lemma QuotesMayAlternate(a: QuoteFinal, b: QuoteFinal, tx: Transaction, hash: string)
    requires a.quoteId != "" && b.quoteId != "" && a.quoteId != b.quoteId && IsHash(hash)
    ensures var first := Settled(Approval(false), tx, tx, hash, ReceiptSuccess);
            var second := Settled(Approval(true), tx, tx, hash, ReceiptSuccess);
            var rounds := [Ran(a, "r", first), Ran(b, "r", second), Ran(a, "r", Refused)];
            && RoundsOk(rounds) && rounds[0].quote == rounds[2].quote
            && forall k :: 0 <= k < 3 ==> !StaleQuote(rounds[k].quote, Before(rounds, k))
  {
    hide IsHash;
  }
}
