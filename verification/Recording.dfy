// The recorder of the end-to-end harness: it reads a terminal's JSON lines in whatever pieces they
// arrive, records each as it completes, and accepts the run only if its last line proves it.
module Recording {
  import opened Messages
  import opened Execution
  import opened Trade

  // ---------- lines ----------

  datatype Line = QuoteLine(quoteId: string) | SelectionLine(quoteId: string, routeId: string) | EventLine(event: Event)

  // One JSON document per line, as one program prints it and the other parses it.
  datatype Codec = Codec(write: Line -> string, read: string -> Option<Line>)

  ghost predicate Faithful(codec: Codec) {
    forall l :: codec.read(codec.write(l)) == Some(l) && OneLine(codec.write(l)) && !Blank(codec.write(l))
  }

  predicate IsSpace(c: char) {
    var n := c as int;
    || 9 <= n <= 13 || n == 32 || n == 0xa0 || n == 0x1680 || 0x2000 <= n <= 0x200a || n == 0x2028 || n == 0x2029
    || n == 0x202f || n == 0x205f || n == 0x3000 || n == 0xfeff
  }

  predicate OneLine(s: string) { forall i :: 0 <= i < |s| ==> s[i] != '\n' }

  predicate Blank(s: string) { forall i :: 0 <= i < |s| ==> IsSpace(s[i]) }

  // What a run prints, step by step.
  function Printed(w: seq<Step>): seq<Line> {
    if w == [] then [] else Printed(w[..|w| - 1]) + PrintedBy(w[|w| - 1])
  }

  function PrintedBy(s: Step): seq<Line> {
    match s
    case ShowQuote(quoteId) => [QuoteLine(quoteId)]
    case ShowSelection(quoteId, routeId, _) => [SelectionLine(quoteId, routeId)]
    case Doing(Report(event)) => [EventLine(event)]
    case Doing(_) => []
  }

  function Text(codec: Codec, lines: seq<Line>): string {
    if lines == [] then "" else Text(codec, lines[..|lines| - 1]) + (codec.write(lines[|lines| - 1]) + "\n")
  }

  // ---------- splitting a stream ----------

  // The complete lines so far and the text after the last newline.
  datatype Buffer = Buffer(lines: seq<string>, pending: string)

  function Fed(b: Buffer, c: char): Buffer {
    if c == '\n' then Buffer(b.lines + [b.pending], "") else b.(pending := b.pending + [c])
  }

  function Feed(b: Buffer, text: string): Buffer {
    if text == "" then b else Fed(Feed(b, text[..|text| - 1]), text[|text| - 1])
  }

  const NOTHING: Buffer := Buffer([], "")

  lemma {:induction false} FeedConcat(b: Buffer, s: string, t: string)
    ensures Feed(b, s + t) == Feed(Feed(b, s), t)
  {
    if t == "" {
      assert s + t == s;
    } else {
      assert (s + t)[..|s + t| - 1] == s + t[..|t| - 1];
      FeedConcat(b, s, t[..|t| - 1]);
    }
  }

  // Lines already complete stay in front.
  lemma {:induction false} FeedBehind(b: Buffer, text: string)
    ensures var f := Feed(Buffer([], b.pending), text);
            Feed(b, text) == Buffer(b.lines + f.lines, f.pending)
  {
    if text != "" {
      FeedBehind(b, text[..|text| - 1]);
      var f := Feed(Buffer([], b.pending), text[..|text| - 1]);
      assert b.lines + (f.lines + [f.pending]) == b.lines + f.lines + [f.pending];
    }
  }

  lemma {:induction false} FeedPrefix(lines: seq<string>, text: string, k: nat)
    requires OneLine(text) && k <= |text|
    ensures Feed(Buffer(lines, ""), text[..k]) == Buffer(lines, text[..k])
  {
    if k > 0 {
      FeedPrefix(lines, text, k - 1);
      assert text[..k][..k - 1] == text[..k - 1];
      assert text[..k] == text[..k - 1] + [text[k - 1]];
    }
  }

  lemma FeedPlain(lines: seq<string>, text: string)
    requires OneLine(text)
    ensures Feed(Buffer(lines, ""), text) == Buffer(lines, text)
  {
    hide Feed;
    FeedPrefix(lines, text, |text|);
    assert text[..|text|] == text;
  }

  // A whole line, fed where a line begins, is complete.
  lemma FeedLine(lines: seq<string>, line: string)
    requires OneLine(line)
    ensures Feed(Buffer(lines, ""), line + "\n") == Buffer(lines + [line], "")
  {
    FeedPlain(lines, line);
    assert (line + "\n")[..|line|] == line;
  }

  lemma {:induction false} PendingIsOneLine(text: string)
    ensures OneLine(Feed(NOTHING, text).pending)
  {
    if text != "" { PendingIsOneLine(text[..|text| - 1]); }
  }

  // text.split("\n"), with the last piece kept back.
  method SplitLines(text: string) returns (b: Buffer)
    ensures b == Feed(NOTHING, text)
  {
    b := NOTHING;
    var i := 0;
    while i < |text|
      invariant i <= |text| && b == Feed(NOTHING, text[..i])
    {
      assert text[..i + 1][..i] == text[..i];
      b := Fed(b, text[i]);
      i := i + 1;
    }
    assert text[..i] == text;
  }

  // ---------- reading the lines ----------

  datatype Parsed = Parsed(values: seq<Line>, ok: bool)

  // Blank lines are skipped; the first line that does not parse stops everything.
  function ParseLines(codec: Codec, lines: seq<string>): Parsed {
    if lines == [] then Parsed([], true)
    else
      var before := ParseLines(codec, lines[..|lines| - 1]);
      var line := lines[|lines| - 1];
      if !before.ok || Blank(line) then before
      else if codec.read(line).None? then before.(ok := false)
      else before.(values := before.values + [codec.read(line).value])
  }

  lemma {:induction false} BrokenStaysBroken(codec: Codec, a: seq<string>, b: seq<string>)
    requires !ParseLines(codec, a).ok
    ensures ParseLines(codec, a + b) == ParseLines(codec, a)
  {
    if b == [] {
      assert a + b == a;
    } else {
      assert (a + b)[..|a + b| - 1] == a + b[..|b| - 1];
      BrokenStaysBroken(codec, a, b[..|b| - 1]);
    }
  }

  datatype Expected = ExpectApproval | ExpectSwap

  datatype Verdict = Accepted | NotAccepted | Broken

  function HashOf(l: Line): Option<string> {
    match l
    case EventLine(Submitted(hash, _)) => Some(hash)
    case EventLine(Verified(hash, _)) => Some(hash)
    case EventLine(ReceiptUnavailable(hash)) => Some(hash)
    case _ => None
  }

  // The verification outcome a line carries.
  function OutcomeText(l: Line): Option<string> {
    match l
    case EventLine(Submitted(_, _)) => Some("pending")
    case EventLine(Verified(_, evidence)) =>
      Some(match evidence
           case Passed => "passed"
           case ReceiptSuccess => "receipt_success"
           case Failed => "failed"
           case Unavailable => "unavailable")
    case EventLine(SendUnknown) => Some("unavailable")
    case EventLine(ReceiptUnavailable(_)) => Some("unavailable")
    case _ => None
  }

  predicate Proves(last: Option<Line>, kind: Expected) {
    && last.Some? && HashOf(last.value).Some? && |HashOf(last.value).value| == 66 && IsHash(HashOf(last.value).value)
    && OutcomeText(last.value) == Some(if kind.ExpectSwap? then "passed" else "receipt_success")
  }

  function LastOf(values: seq<Line>): Option<Line> { if values == [] then None else Some(values[|values| - 1]) }

  function Judged(b: Buffer, flushed: string, parsed: Parsed, exitCode: int, kind: Expected): Verdict {
    if !parsed.ok then Broken
    else if exitCode == 0 && Blank(b.pending + flushed) && Proves(LastOf(parsed.values), kind) then Accepted
    else NotAccepted
  }

  // A run is accepted exactly if every complete line parses, the process ended well, nothing but white space is left
  // over, and the last line is the verification of a 32-byte hash with the outcome that was expected.
  lemma AcceptedExactly(b: Buffer, flushed: string, parsed: Parsed, exitCode: int, kind: Expected)
    ensures Judged(b, flushed, parsed, exitCode, kind) == Accepted <==>
            && parsed.ok && exitCode == 0 && parsed.values != []
            && (forall i :: 0 <= i < |b.pending + flushed| ==> IsSpace((b.pending + flushed)[i]))
            && var last := parsed.values[|parsed.values| - 1];
               && last.EventLine? && last.event.Verified? && IsHash(last.event.hash)
               && last.event.evidence == if kind.ExpectSwap? then Passed else ReceiptSuccess
  {
    hide IsSpace, IsHash;
    if parsed.values != [] { ProvingLine(parsed.values[|parsed.values| - 1], kind); }
  }

  lemma ProvingLine(last: Line, kind: Expected)
    ensures Proves(Some(last), kind) <==>
            && last.EventLine? && last.event.Verified? && IsHash(last.event.hash)
            && last.event.evidence == if kind.ExpectSwap? then Passed else ReceiptSuccess
  {
    TextsApart();
  }

  lemma TextsApart()
    ensures "passed" != "receipt_success" && "passed" != "failed" && "passed" != "unavailable" && "passed" != "pending"
    ensures "receipt_success" != "failed" && "receipt_success" != "unavailable" && "receipt_success" != "pending"
  {
    assert "passed"[0] == 'p' && "pending"[0] == 'p' && "passed"[1] == 'a' && "pending"[1] == 'e';
    assert "receipt_success"[0] == 'r' && "failed"[0] == 'f' && "unavailable"[0] == 'u';
  }

  // One more complete line is skipped if it is blank, read if it parses, and the end otherwise.
  lemma OneMoreLine(codec: Codec, lines: seq<string>, line: string)
    ensures
      var (before, after) := (ParseLines(codec, lines), ParseLines(codec, lines + [line]));
      && (after.ok <==> before.ok && (Blank(line) || codec.read(line).Some?))
      && after.values == before.values + (if before.ok && !Blank(line) && codec.read(line).Some?
                                          then [codec.read(line).value] else [])
  {
    assert (lines + [line])[..|lines|] == lines;
  }

  function Concat(chunks: seq<string>): string {
    if chunks == [] then "" else Concat(chunks[..|chunks| - 1]) + chunks[|chunks| - 1]
  }

  // chunks: the decoded pieces of standard output. flushed: what the decoder still held at the end.
  method RecordExecution(codec: Codec, chunks: seq<string>, flushed: string, exitCode: int, kind: Expected)
    returns (recorded: seq<Line>, verdict: Verdict)
    ensures var b := Feed(NOTHING, Concat(chunks));
            var parsed := ParseLines(codec, b.lines);
            recorded == parsed.values && verdict == Judged(b, flushed, parsed, exitCode, kind)
  {
    hide Blank, Feed, Proves;
    recorded := [];
    var pending := "";
    var last: Option<Line> := None;
    ghost var all: seq<string> := [];
    FeedNothing();
    var i := 0;
    while i < |chunks|
      invariant i <= |chunks|
      invariant Feed(NOTHING, Concat(chunks[..i])) == Buffer(all, pending)
      invariant ParseLines(codec, all) == Parsed(recorded, true) && last == LastOf(recorded)
    {
      ghost var before := all;
      var b := SplitLines(pending + chunks[i]);
      OneMoreChunk(chunks, i, Buffer(all, pending), b);
      pending := b.pending;
      var ok: bool;
      recorded, ok := RecordLines(codec, before, b.lines, recorded);
      if !ok {
        StillBroken(codec, chunks, i, before, b);
        return recorded, Broken;
      }
      last := LastOf(recorded);
      all := before + b.lines;
      i := i + 1;
    }
    assert chunks[..i] == chunks;
    pending := pending + flushed;
    return recorded, if exitCode == 0 && Blank(pending) && Proves(last, kind) then Accepted else NotAccepted;
  }

  // The lines completed by one piece, recorded one after another until one does not parse.
  method RecordLines(codec: Codec, ghost before: seq<string>, lines: seq<string>, so_far: seq<Line>)
    returns (recorded: seq<Line>, ok: bool)
    requires ParseLines(codec, before) == Parsed(so_far, true)
    ensures ParseLines(codec, before + lines) == Parsed(recorded, ok)
  {
    hide Blank;
    recorded := so_far;
    var j := 0;
    assert before + lines[..0] == before;
    while j < |lines|
      invariant j <= |lines| && ParseLines(codec, before + lines[..j]) == Parsed(recorded, true)
    {
      var line := lines[j];
      assert (before + lines[..j + 1])[..|before| + j] == before + lines[..j];
      if !Blank(line) {
        var result := codec.read(line);
        if result.None? {
          assert before + lines == before + lines[..j + 1] + lines[j + 1..];
          BrokenStaysBroken(codec, before + lines[..j + 1], lines[j + 1..]);
          return recorded, false;
        }
        recorded := recorded + [result.value];
      }
      j := j + 1;
    }
    assert lines[..j] == lines;
    return recorded, true;
  }

  lemma FeedNothing()
    ensures Feed(NOTHING, Concat([])) == Buffer([], "")
  {}

  // Splitting what was pending together with the next piece is feeding the piece on.
  lemma OneMoreChunk(chunks: seq<string>, i: nat, so_far: Buffer, b: Buffer)
    requires i < |chunks| && Feed(NOTHING, Concat(chunks[..i])) == so_far
    requires b == Feed(NOTHING, so_far.pending + chunks[i])
    ensures Feed(NOTHING, Concat(chunks[..i + 1])) == Buffer(so_far.lines + b.lines, b.pending)
  {
    assert chunks[..i + 1][..i] == chunks[..i];
    FeedConcat(NOTHING, Concat(chunks[..i]), chunks[i]);
    PendingIsOneLine(Concat(chunks[..i]));
    FeedPlain([], so_far.pending);
    FeedConcat(NOTHING, so_far.pending, chunks[i]);
    FeedBehind(so_far, chunks[i]);
  }

  // Once a line does not parse, whatever follows changes nothing.
  lemma StillBroken(codec: Codec, chunks: seq<string>, i: nat, before: seq<string>, b: Buffer)
    requires i < |chunks| && Feed(NOTHING, Concat(chunks[..i + 1])) == Buffer(before + b.lines, b.pending)
    requires !ParseLines(codec, before + b.lines).ok
    ensures ParseLines(codec, Feed(NOTHING, Concat(chunks)).lines) == ParseLines(codec, before + b.lines)
  {
    hide Feed, Concat, ParseLines;
    var later := LaterLines(chunks, i + 1, before + b.lines, b.pending);
    BrokenStaysBroken(codec, before + b.lines, later);
  }

  lemma LaterLines(chunks: seq<string>, k: nat, lines: seq<string>, pending: string) returns (later: seq<string>)
    requires k <= |chunks| && Feed(NOTHING, Concat(chunks[..k])) == Buffer(lines, pending)
    ensures Feed(NOTHING, Concat(chunks)).lines == lines + later
  {
    hide Feed;
    ConcatSplit(chunks, k);
    FeedConcat(NOTHING, Concat(chunks[..k]), Concat(chunks[k..]));
    FeedBehind(Buffer(lines, pending), Concat(chunks[k..]));
    later := Feed(Buffer([], pending), Concat(chunks[k..])).lines;
  }

  lemma {:induction false} ConcatSplit(chunks: seq<string>, k: nat)
    requires k <= |chunks|
    ensures Concat(chunks) == Concat(chunks[..k]) + Concat(chunks[k..])
  {
    if k == |chunks| {
      assert chunks[..k] == chunks && chunks[k..] == [];
    } else {
      var init := chunks[..|chunks| - 1];
      ConcatSplit(init, k);
      assert init[..k] == chunks[..k];
      assert chunks[k..][..|chunks[k..]| - 1] == init[k..];
    }
  }

  // ---------- what a terminal prints is what is recorded ----------

  function Texts(codec: Codec, lines: seq<Line>): (r: seq<string>)
    ensures |r| == |lines| && forall i :: 0 <= i < |r| ==> r[i] == codec.write(lines[i])
  {
    seq(|lines|, i requires 0 <= i < |lines| => codec.write(lines[i]))
  }

  lemma {:induction false} TextSplitsBack(codec: Codec, lines: seq<Line>)
    requires Faithful(codec)
    ensures Feed(NOTHING, Text(codec, lines)) == Buffer(Texts(codec, lines), "")
  {
    if lines != [] {
      var init, last := lines[..|lines| - 1], lines[|lines| - 1];
      hide Feed, Blank, OneLine, Texts;
      TextSplitsBack(codec, init);
      var line := codec.write(last);
      assert codec.read(line) == Some(last) && OneLine(line);
      FeedConcat(NOTHING, Text(codec, init), line + "\n");
      FeedLine(Texts(codec, init), line);
      TextsStep(codec, lines);
    } else {
      NoText(codec);
    }
  }

  lemma TextsStep(codec: Codec, lines: seq<Line>)
    requires lines != []
    ensures Texts(codec, lines) == Texts(codec, lines[..|lines| - 1]) + [codec.write(lines[|lines| - 1])]
  {}

  lemma NoText(codec: Codec)
    ensures Feed(NOTHING, Text(codec, [])) == Buffer(Texts(codec, []), "")
  {}

  lemma {:induction false} TextsParseBack(codec: Codec, lines: seq<Line>)
    requires Faithful(codec)
    ensures ParseLines(codec, Texts(codec, lines)) == Parsed(lines, true)
  {
    if lines != [] {
      TextsParseBack(codec, lines[..|lines| - 1]);
      assert Texts(codec, lines)[..|lines| - 1] == Texts(codec, lines[..|lines| - 1]);
      assert codec.write(lines[|lines| - 1]) == Texts(codec, lines)[|lines| - 1];
    }
  }

  // For any chunking of the printed text, exactly the printed lines are recorded.
  lemma AnyChunkingRecordsTheLines(codec: Codec, lines: seq<Line>, chunks: seq<string>)
    requires Faithful(codec) && Concat(chunks) == Text(codec, lines)
    ensures var b := Feed(NOTHING, Concat(chunks));
            b.pending == "" && ParseLines(codec, b.lines) == Parsed(lines, true)
  {
    TextSplitsBack(codec, lines);
    TextsParseBack(codec, lines);
  }

  // ---------- acceptance ----------

  // executionExitCode, and 1 when the command throws.
  function ExitCode(o: Outcome): int {
    if o.Returned? && (o.result.Preview? || o.result.ApprovalConfirmed? || o.result.SwapVerified?) then 0 else 1
  }

  lemma LastPrinted(w: seq<Step>, line: Line)
    requires w != [] && PrintedBy(w[|w| - 1]) == [line]
    ensures LastOf(Printed(w)) == Some(line)
  {}

  // Accepted as a swap exactly when the run's result is a verified swap, for any chunking.
  lemma TradeIsAcceptedIffVerified(codec: Codec, rounds: seq<Round>, chunks: seq<string>)
    requires Faithful(codec) && rounds != [] && RoundsOk(rounds)
    requires Concat(chunks) == Text(codec, Printed(RunWord(rounds)))
    ensures var b := Feed(NOTHING, Concat(chunks));
            Judged(b, "", ParseLines(codec, b.lines), ExitCode(RunOutcome(rounds)), ExpectSwap) == Accepted
            <==> RunOutcome(rounds).Returned? && RunOutcome(rounds).result.SwapVerified?
  {
    hide RoundsOk, RunWord, Feed, ParseLines, Text, Printed, IsHash;
    AnyChunkingRecordsTheLines(codec, Printed(RunWord(rounds)), chunks);
    LastRoundFacts(rounds);
    if RunOutcome(rounds).Returned? && RunOutcome(rounds).result.SwapVerified? {
      VerifiedRunProvesItself(rounds);
    }
  }

  // A trade that ends well ends in a verified swap.
  lemma LastRoundFacts(rounds: seq<Round>)
    requires rounds != [] && RoundsOk(rounds)
    ensures ExitCode(RunOutcome(rounds)) == 0 <==> RunOutcome(rounds).Returned? && RunOutcome(rounds).result.SwapVerified?
  {
    var last := rounds[|rounds| - 1];
    if last.Ran? { assert Honoured(PolicyOf(|rounds| - 1), last.course); }
  }

  lemma HashLength(hash: string)
    requires IsHash(hash)
    ensures |hash| == 66
  {}

  lemma VerifiedRunProvesItself(rounds: seq<Round>)
    requires rounds != [] && RoundsOk(rounds)
    requires RunOutcome(rounds).Returned? && RunOutcome(rounds).result.SwapVerified?
    ensures Proves(LastOf(Printed(RunWord(rounds))), ExpectSwap)
  {
    hide Printed, IsHash, RoundWord, RunWord;
    var n := |rounds| - 1;
    var c := rounds[n].course;
    assert Honoured(PolicyOf(n), c);
    HashLength(c.hash);
    RunEndsWithItsLastRound(rounds);
    LastPrinted(RunWord(rounds), EventLine(Verified(c.hash, Passed)));
  }

  lemma RunEndsWithItsLastRound(rounds: seq<Round>)
    requires rounds != [] && rounds[|rounds| - 1].Ran? && rounds[|rounds| - 1].course.Settled?
    ensures var c := rounds[|rounds| - 1].course;
            var run := RunWord(rounds);
            run != [] && run[|run| - 1] == Doing(Report(Verified(c.hash, c.evidence)))
  {
    hide RoundWord;
    var n := |rounds| - 1;
    RoundEndsVerified(n, rounds[n]);
    var before, last := RunWord(rounds[..n]), RoundWord(n, rounds[n]);
    assert (before + last)[|before + last| - 1] == last[|last| - 1];
  }

  lemma RoundEndsVerified(k: nat, round: Round)
    requires round.Ran? && round.course.Settled?
    ensures
      var w := RoundWord(k, round);
      w != [] && w[|w| - 1] == Doing(Report(Verified(round.course.hash, round.course.evidence)))
  {
    var w := RoundWord(k, round);
    assert w[|w| - 1] == Doing(Report(Verified(round.course.hash, round.course.evidence)));
  }

  // One execution on its own: accepted as the kind it was run for exactly when that is its result.
  lemma ExecutionIsAcceptedIffVerified(
      codec: Codec, mode: Mode, c: Course, policy: ApprovalPolicy, chunks: seq<string>, kind: Expected)
    requires Faithful(codec) && !mode.preview && c != ShownOnly(true) && Honoured(policy, c)
    requires Concat(chunks) == Text(codec, Printed(Did(Word(mode, c))))
    ensures var b := Feed(NOTHING, Concat(chunks));
            Judged(b, "", ParseLines(codec, b.lines), ExitCode(OutcomeOf(c)), kind) == Accepted
            <==> OutcomeOf(c).Returned? &&
                 if kind.ExpectSwap? then OutcomeOf(c).result.SwapVerified? else OutcomeOf(c).result.ApprovalConfirmed?
  {
    hide Feed, ParseLines, Text, Printed, IsHash, Faithful;
    AnyChunkingRecordsTheLines(codec, Printed(Did(Word(mode, c))), chunks);
    if ExitCode(OutcomeOf(c)) == 0 {
      var w := Did(Word(mode, c));
      assert w[|w| - 1] == Doing(Report(Verified(c.hash, c.evidence)));
      HashLength(c.hash);
      LastPrinted(w, EventLine(Verified(c.hash, c.evidence)));
    }
  }
}
