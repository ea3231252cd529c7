/** The promises of a turn, over every run. */
module TurnTheorems {
  import opened Sequences
  import opened Tools
  import opened Receipts
  import opened Accounting
  import opened Budget
  import opened Stream
  import opened Report
  import opened Turn
  import opened TurnProperties

  function LastOf(input: TurnInput): TurnState { Run(input).last }
  function EndOf(input: TurnInput): TurnEnd { Run(input).end }

  /* ---- no requested tool disappears silently ---- */

  /** The records of a turn are exactly what was asked for on streams that completed, each call
      once, in the order asked and under its round; and the calls the records say ran are exactly
      the executors' own log. */
  lemma NoRequestedToolDisappears(input: TurnInput)
    ensures var last := LastOf(input);
            && Apply(AskedOf, last.records) == RequestedIn(input, |last.rounds|)
            && RanOf(last.records) == last.served
  {
    RunAudited(input, Begin(input));
  }

  lemma {:induction false} DeliveredLength(input: TurnInput, n: nat)
    ensures RequestedIn(input, n) == DeliveredIn(input, n) <==>
            forall k :: 0 <= k < n ==> input.provider(k).ending.Complete? || input.provider(k).toolCalls == []
    ensures |RequestedIn(input, n)| <= |DeliveredIn(input, n)|
  {
    if n > 0 {
      DeliveredLength(input, n - 1);
      var call := input.provider(n - 1);
      var a, b := RequestedIn(input, n - 1), DeliveredIn(input, n - 1);
      if call.ending.Complete? || call.toolCalls == [] {
        assert InRound(n, []) == [];
        if RequestedIn(input, n) == DeliveredIn(input, n) {
          assert RequestedIn(input, n)[..|a|] == a;
          assert DeliveredIn(input, n)[..|b|] == b;
        }
      } else {
        assert |RequestedIn(input, n)| < |DeliveredIn(input, n)|;
      }
    }
  }

  /** Where the code is narrower than its rule. Every call the provider delivered is on record if
      and only if the last stream completed or delivered none: a stream that delivers calls and
      then breaks, or is stopped, takes them with it. */
  lemma DeliveredCallsAreKeptIffStreamCompletes(input: TurnInput)
    ensures 1 <= |LastOf(input).rounds|
    ensures var last := LastOf(input);
            var call := input.provider(|last.rounds| - 1);
            Apply(AskedOf, last.records) == DeliveredIn(input, |last.rounds|) <==>
            call.ending.Complete? || call.toolCalls == []
  {
    NoRequestedToolDisappears(input);
    RunTerminal(input, Begin(input));
    KeptIffComplete(input, LastOf(input), EndOf(input));
  }

  lemma KeptIffComplete(input: TurnInput, last: TurnState, end: TurnEnd)
    requires Terminal(input, last, end) && Apply(AskedOf, last.records) == RequestedIn(input, |last.rounds|)
    ensures var call := input.provider(|last.rounds| - 1);
            Apply(AskedOf, last.records) == DeliveredIn(input, |last.rounds|) <==>
            call.ending.Complete? || call.toolCalls == []
  {
    EarlierComplete(input, last, end);
    DeliveredLength(input, |last.rounds|);
  }

  /** Only the last call of a turn can have ended any other way than completely. */
  lemma EarlierComplete(input: TurnInput, last: TurnState, end: TurnEnd)
    requires Terminal(input, last, end)
    ensures forall k :: 0 <= k < |last.rounds| - 1 ==> input.provider(k).ending.Complete?
  {
    forall k | 0 <= k < |last.rounds| - 1 ensures input.provider(k).ending.Complete? {
      if end.error.BudgetRefusal? {
        AnsweredAt(input, last.rounds, k);
      } else {
        AnsweredAt(input, last.rounds[..|last.rounds| - 1], k);
      }
    }
  }

  lemma {:induction false} AnsweredAt(input: TurnInput, rounds: seq<ProviderRound>, k: nat)
    requires AllAnswered(input, rounds) && k < |rounds|
    ensures Answered(input, k, rounds[k])
    decreases |rounds|
  {
    if k < |rounds| - 1 {
      AnsweredAt(input, rounds[..|rounds| - 1], k);
    }
  }

  /** A concrete turn that loses a call: one frame asking for one tool, then a read error. */
  lemma BrokenStreamLosesCall(input: TurnInput, call: ToolCall)
    requires input.provider(0) ==
             ReadReply(Streaming([StreamEvent(None, Silent, [call], "", "", None, None)], Faulted("reset")))
    ensures LastOf(input).records == [] && DeliveredIn(input, 1) == [Asked(1, call)]
    ensures EndOf(input) == TurnEnd(Failed, ReceiveError("reset"), false)
  {
    var event := StreamEvent(None, Silent, [call], "", "", None, None);
    assert [event][1..] == [];
    assert Pull(JUST_OPENED, [event], Faulted("reset"))
        == Pull(Absorb(JUST_OPENED, event), [], Faulted("reset"));
    assert DeliveredIn(input, 0) == [];
  }

  /* ---- a receipt proves execution ---- */

  predicate IsWriteCall(registry: map<ToolName, ToolDefinition>, call: ToolCall) {
    call.name in registry && registry[call.name].effect.Write?
  }

  /** How many of the calls are of capabilities registered as changing data. */
  function WriteCount(registry: map<ToolName, ToolDefinition>, calls: seq<ToolCall>): nat {
    if calls == [] then 0
    else WriteCount(registry, calls[..|calls| - 1]) + (if IsWriteCall(registry, calls[|calls| - 1]) then 1 else 0)
  }

  /** The rows `persistToolCalls` files for a turn. */
  function RowsOf(registry: map<ToolName, ToolDefinition>, messageId: int, ids: nat -> int, calls: seq<PendingCall>)
    : (rows: seq<ToolCallRecord>)
    ensures |rows| == |calls|
    ensures forall i :: 0 <= i < |calls| ==> rows[i] == RecordOf(registry, messageId, ids(i), calls[i])
  {
    if calls == [] then []
    else
      var n := |calls| - 1;
      RowsOf(registry, messageId, ids, calls[..n]) + [RecordOf(registry, messageId, ids(n), calls[n])]
  }

  lemma WriteCountGrows(registry: map<ToolName, ToolDefinition>, calls: seq<ToolCall>, call: ToolCall)
    ensures WriteCount(registry, calls + [call]) ==
            WriteCount(registry, calls) + (if IsWriteCall(registry, call) then 1 else 0)
  {
    assert (calls + [call])[..|calls|] == calls;
  }

  /** One row counts once: as run if the call ran and changes data, as asked if it changes data. */
  lemma OneRow(registry: map<ToolName, ToolDefinition>, messageId: int, id: int, c: PendingCall, r: WriteReceipt)
    requires !c.outcome.status.Unrecognised?
    ensures var after := AddRecord(r, RecordOf(registry, messageId, id, c));
            var write := if IsWriteCall(registry, CallOf(c)) then 1 else 0;
            && after.executed + after.failed == r.executed + r.failed + (if DidRun(c) then write else 0)
            && after.executed + after.failed + after.refused == r.executed + r.failed + r.refused + write
            && |after.writes| == |r.writes| + write
  {
  }

  lemma {:induction false} ReceiptCountsRecords(
      registry: map<ToolName, ToolDefinition>, messageId: int, ids: nat -> int, records: seq<PendingCall>)
    requires Recognised(records)
    ensures var r := ReceiptOf(messageId, RowsOf(registry, messageId, ids, records));
            && r.executed + r.failed == WriteCount(registry, RanOf(records))
            && r.executed + r.failed + r.refused == WriteCount(registry, Apply(CallOf, records))
            && |r.writes| == r.executed + r.failed + r.refused
  {
    if records != [] {
      var n := |records| - 1;
      var init, last := records[..n], records[n];
      ReceiptCountsRecords(registry, messageId, ids, init);
      LastRow(registry, messageId, ids, records);
      OneRow(registry, messageId, ids(n), last, ReceiptOf(messageId, RowsOf(registry, messageId, ids, init)));
      WriteCountGrows(registry, RanOf(init), CallOf(last));
      WriteCountGrows(registry, Apply(CallOf, init), CallOf(last));
    }
  }

  lemma LastRow(registry: map<ToolName, ToolDefinition>, messageId: int, ids: nat -> int, records: seq<PendingCall>)
    requires records != []
    ensures var n := |records| - 1;
            var init, last := records[..n], records[n];
            && ReceiptOf(messageId, RowsOf(registry, messageId, ids, records)) ==
               AddRecord(ReceiptOf(messageId, RowsOf(registry, messageId, ids, init)),
                         RecordOf(registry, messageId, ids(n), last))
            && RanOf(records) == (if DidRun(last) then RanOf(init) + [CallOf(last)] else RanOf(init))
            && Apply(CallOf, records) == Apply(CallOf, init) + [CallOf(last)]
  {
    var n := |records| - 1;
    var rows := RowsOf(registry, messageId, ids, records);
    assert rows[..n] == RowsOf(registry, messageId, ids, records[..n]);
  }

  function CallIn(a: Asked): ToolCall { a.call }

  lemma {:induction false} SameCalls(records: seq<PendingCall>)
    ensures Apply(CallIn, Apply(AskedOf, records)) == Apply(CallOf, records)
  {
  }

  /** The write receipt of a turn tells the truth about the executors: what it counts as executed
      or failed is the number of executor invocations of capabilities that change data, and what
      it counts as refused is every other call of one that the model asked for. Each is listed. */
  lemma ReceiptProvesExecution(input: TurnInput, messageId: int, ids: nat -> int)
    ensures var last := LastOf(input);
            var registry := input.box.registry;
            var r := ReceiptOf(messageId, RowsOf(registry, messageId, ids, last.records));
            && r.executed + r.failed == WriteCount(registry, last.served)
            && r.refused == WriteCount(registry, Apply(CallIn, RequestedIn(input, |last.rounds|)))
                            - WriteCount(registry, last.served)
            && |r.writes| == WriteCount(registry, Apply(CallIn, RequestedIn(input, |last.rounds|)))
  {
    RunAudited(input, Begin(input));
    ReceiptCountsRecords(input.box.registry, messageId, ids, LastOf(input).records);
    SameCalls(LastOf(input).records);
  }

  /* ---- the wire protocol ---- */

  lemma {:induction false} ChainedAt(input: TurnInput, requests: seq<seq<ChatMessage>>, k: nat)
    requires Chained(input, requests) && k < |requests|
    ensures k == 0 ==> requests[0] == input.built
    ensures k > 0 ==> Extends(requests[k - 1], requests[k], input.provider(k - 1))
    decreases |requests|
  {
    if k < |requests| - 1 {
      ChainedAt(input, requests[..|requests| - 1], k);
    }
  }

  lemma {:induction false} CountedAt(input: TurnInput, requests: seq<seq<ChatMessage>>, rounds: seq<ProviderRound>,
      k: nat)
    requires Counted(input, requests, rounds) && k < |rounds|
    ensures RoundCounted(input, requests[k], rounds[k])
    decreases |rounds|
  {
    if k < |rounds| - 1 {
      CountedAt(input, requests[..|rounds| - 1], rounds[..|rounds| - 1], k);
    }
  }

  /** At every provider call the list is the built one followed, for each round before it, by the
      model's ask and exactly one answer per asked call, in order and under its id; and the
      characters recorded for the call are the measure of everything beyond the built list. */
  lemma WireProtocol(input: TurnInput, k: nat)
    requires k < |LastOf(input).requests|
    ensures var last := LastOf(input);
            && |last.requests| == |last.rounds| <= MAX_TOOL_ROUNDS
            && (k == 0 ==> last.requests[0] == input.built)
            && (k > 0 ==> Extends(last.requests[k - 1], last.requests[k], input.provider(k - 1)))
            && input.built <= last.requests[k]
            && last.rounds[k].addedCharacters == SumBy(MessageCharacters, last.requests[k][|input.built|..])
            && last.rounds[k].estimatedPrompt ==
               input.report.totalEstimatedTokens + input.est.Tokens(last.rounds[k].addedCharacters)
  {
    assert input.built[|input.built|..] == [];
    RunChained(input, Begin(input));
    RunCounted(input, Begin(input));
    RunTerminal(input, Begin(input));
    ChainedAt(input, LastOf(input).requests, k);
    CountedAt(input, LastOf(input).requests, LastOf(input).rounds, k);
  }

  /** The gateway's adapter drops a call that has no name. */
  predicate AllNamed(calls: seq<ToolCall>) {
    forall i :: 0 <= i < |calls| ==> calls[i].name != ""
  }

  /** `AddedCharacters` is cumulative: what a round adds is added to what the one before it had
      added. Once calls have names, the figure is the round's own addition at the second call of a
      turn and at no later one. */
  lemma AddedCharactersAreCumulative(input: TurnInput, k: nat)
    requires 0 < k < |LastOf(input).requests|
    ensures var last := LastOf(input);
            |last.requests[k - 1]| <= |last.requests[k]| && |last.rounds| == |last.requests|
    ensures var last := LastOf(input);
            var delta := SumBy(MessageCharacters, last.requests[k][|last.requests[k - 1]|..]);
            && last.rounds[0].addedCharacters == 0
            && last.rounds[k].addedCharacters == last.rounds[k - 1].addedCharacters + delta
            && ((forall j :: 0 <= j < k ==> AllNamed(input.provider(j).toolCalls)) ==>
                  (last.rounds[k].addedCharacters == delta <==> k == 1))
  {
    RunChained(input, Begin(input));
    RunCounted(input, Begin(input));
    assert input.built[|input.built|..] == [];
    FigureAt(input, LastOf(input).requests, LastOf(input).rounds, k);
  }

  /** The same of any lists sent and rounds recorded that keep the wire's invariants. */
  lemma FigureAt(input: TurnInput, requests: seq<seq<ChatMessage>>, rounds: seq<ProviderRound>, k: nat)
    requires Chained(input, requests) && Counted(input, requests, rounds) && 0 < k < |requests|
    ensures |requests[k - 1]| <= |requests[k]|
    ensures var delta := SumBy(MessageCharacters, requests[k][|requests[k - 1]|..]);
            && rounds[0].addedCharacters == 0
            && rounds[k].addedCharacters == rounds[k - 1].addedCharacters + delta
            && ((forall j :: 0 <= j < k ==> AllNamed(input.provider(j).toolCalls)) ==>
                  (rounds[k].addedCharacters == delta <==> k == 1))
  {
    FigureGrows(input, requests, rounds, k);
    ChainedAt(input, requests, 0);
    CountedAt(input, requests, rounds, 0);
    assert requests[0][|input.built|..] == [];
    if k > 1 && AllNamed(input.provider(k - 2).toolCalls) {
      EarlierFigure(input, requests, rounds, k - 1);
    }
  }

  lemma FigureGrows(input: TurnInput, requests: seq<seq<ChatMessage>>, rounds: seq<ProviderRound>, k: nat)
    requires Chained(input, requests) && Counted(input, requests, rounds) && 0 < k < |requests|
    ensures |requests[k - 1]| <= |requests[k]|
    ensures rounds[k].addedCharacters ==
            rounds[k - 1].addedCharacters + SumBy(MessageCharacters, requests[k][|requests[k - 1]|..])
  {
    ChainedAt(input, requests, k);
    CountedAt(input, requests, rounds, k - 1);
    CountedAt(input, requests, rounds, k);
    SuffixMeasure(requests[k - 1], requests[k], |input.built|);
  }

  lemma EarlierFigure(input: TurnInput, requests: seq<seq<ChatMessage>>, rounds: seq<ProviderRound>, k: nat)
    requires Chained(input, requests) && Counted(input, requests, rounds) && 0 < k < |requests|
    requires AllNamed(input.provider(k - 1).toolCalls)
    ensures rounds[k].addedCharacters > 0
  {
    ChainedAt(input, requests, k);
    CountedAt(input, requests, rounds, k - 1);
    CountedAt(input, requests, rounds, k);
    ExchangeWeighs(requests[k - 1], requests[k], |input.built|, input.provider(k - 1));
  }

  /** A list that holds one more exchange, of calls with names, measures something. */
  lemma ExchangeWeighs(a: seq<ChatMessage>, b: seq<ChatMessage>, n: nat, call: CallResult)
    requires n <= |a| && Extends(a, b, call) && AllNamed(call.toolCalls)
    ensures SumBy(MessageCharacters, b[n..]) > 0
  {
    var first := call.toolCalls[0];
    SuffixMeasure(a, b, n);
    assert b[|a|..] == [AskOf(call)] + b[|a| + 1..];
    SumByConcat(MessageCharacters, [AskOf(call)], b[|a| + 1..]);
    assert call.toolCalls == [first] + call.toolCalls[1..];
    SumByConcat(CallCharacters, [first], call.toolCalls[1..]);
    assert [AskOf(call)][..0] == [] && [first][..0] == [];
    NonNegativeMeasure(a[n..]);
    NonNegativeMeasure(b[|a| + 1..]);
    NonNegativeCalls(call.toolCalls[1..]);
  }

  /** The witness: a turn that asks twice reports at its third call what both rounds added. */
  lemma ThirdCallReportsBothRounds(input: TurnInput, call: ToolCall)
    requires input.death.None? && !input.gate.budget.Enabled() && call.name != ""
    requires input.provider(0) == JUST_OPENED.(toolCalls := [call])
    requires input.provider(1) == JUST_OPENED.(toolCalls := [call])
    ensures 2 < |LastOf(input).requests| == |LastOf(input).rounds|
    ensures var last := LastOf(input);
            |last.requests[1]| <= |last.requests[2]|
            && last.rounds[2].addedCharacters > SumBy(MessageCharacters, last.requests[2][|last.requests[1]|..])
  {
    RunTerminal(input, Begin(input));
    ThreeCalls(input, LastOf(input), EndOf(input));
    RunChained(input, Begin(input));
    RunCounted(input, Begin(input));
    assert input.built[|input.built|..] == [];
    ThirdFigure(input, LastOf(input).requests, LastOf(input).rounds);
  }

  /** Without a budget or a death, two calls that ask are followed by a third. */
  lemma ThreeCalls(input: TurnInput, last: TurnState, end: TurnEnd)
    requires Terminal(input, last, end) && input.death.None? && !input.gate.budget.Enabled()
    requires Asks(input.provider(0)) && Asks(input.provider(1))
    ensures |last.rounds| > 2
  {
  }

  lemma ThirdFigure(input: TurnInput, requests: seq<seq<ChatMessage>>, rounds: seq<ProviderRound>)
    requires Chained(input, requests) && Counted(input, requests, rounds) && 2 < |requests|
    requires AllNamed(input.provider(0).toolCalls)
    ensures |requests[1]| <= |requests[2]|
    ensures rounds[2].addedCharacters > SumBy(MessageCharacters, requests[2][|requests[1]|..])
  {
    FigureGrows(input, requests, rounds, 1);
    FigureGrows(input, requests, rounds, 2);
    EarlierFigure(input, requests, rounds, 1);
  }

  lemma SuffixMeasure(a: seq<ChatMessage>, b: seq<ChatMessage>, n: nat)
    requires a <= b && n <= |a|
    ensures SumBy(MessageCharacters, b[n..]) ==
            SumBy(MessageCharacters, a[n..]) + SumBy(MessageCharacters, b[|a|..])
  {
    assert b[n..] == a[n..] + b[|a|..];
    SumByConcat(MessageCharacters, a[n..], b[|a|..]);
  }

  /** What the finished report says reached the message list is what that list measures, as soon
      as the builder's report said so of the built list. */
  lemma ReportCountsTheExchange(input: TurnInput, report: ContextReport)
    requires Reported(input, LastOf(input), report)
    requires SumBy(WireCharactersOf, input.report.blocks) == SumBy(MessageCharacters, input.built)
    ensures SumBy(WireCharactersOf, report.blocks) == SumBy(MessageCharacters, LastOf(input).messages)
  {
    assert input.built[|input.built|..] == [];
    RunCounted(input, Begin(input));
    ExchangeIsCounted(input, LastOf(input), report);
  }

  lemma ExchangeIsCounted(input: TurnInput, last: TurnState, report: ContextReport)
    requires Reported(input, last, report) && Measures(input, last.messages, last.added)
    requires SumBy(WireCharactersOf, input.report.blocks) == SumBy(MessageCharacters, input.built)
    ensures SumBy(WireCharactersOf, report.blocks) == SumBy(MessageCharacters, last.messages)
  {
    assert last.messages == input.built + last.messages[|input.built|..];
    SumByConcat(MessageCharacters, input.built, last.messages[|input.built|..]);
    NonNegativeMeasure(last.messages[|input.built|..]);
  }

  lemma {:induction false} NonNegativeMeasure(messages: seq<ChatMessage>)
    ensures SumBy(MessageCharacters, messages) >= 0
  {
    if messages != [] {
      NonNegativeMeasure(messages[..|messages| - 1]);
      NonNegativeCalls(messages[|messages| - 1].toolCalls);
    }
  }

  lemma {:induction false} NonNegativeCalls(calls: seq<ToolCall>)
    ensures SumBy(CallCharacters, calls) >= 0
  {
    if calls != [] {
      NonNegativeCalls(calls[..|calls| - 1]);
    }
  }

  /* ---- the ceiling and the endings ---- */

  /** Every turn makes between one and four provider calls and runs tools in at most three of
      them; the runtime's own round limit means exactly four calls, three rounds that each
      handled at least one call, and every call of the fourth refused with that code. A stored
      finish is never `tool_calls` and never empty. */
  lemma TurnIsBounded(input: TurnInput)
    ensures var last, end := LastOf(input), EndOf(input);
            var n := |last.rounds|;
            && 1 <= n <= MAX_TOOL_ROUNDS
            && (forall k :: 0 <= k < n - 1 ==> |last.rounds[k].tools| == |input.provider(k).toolCalls| > 0)
            && (n == MAX_TOOL_ROUNDS ==> last.rounds[n - 1].tools == [])
            && !end.finish.ToolCalls? && !end.finish.Silent?
            && (end.error.ToolLoopStopped? <==>
                  n == MAX_TOOL_ROUNDS && input.provider(n - 1).ending.Complete?
                      && input.provider(n - 1).toolCalls != [])
            && (end.error.ToolLoopStopped? ==>
                  EndsWith(last.records, RefuseAll(input.box, n, input.provider(n - 1).toolCalls,
                                                   ToolFailure(RoundLimit, ROUND_LIMIT_TEXT))))
  {
    RunTerminal(input, Begin(input));
    var last, end := LastOf(input), EndOf(input);
    forall k | 0 <= k < |last.rounds| - 1
      ensures |last.rounds[k].tools| == |input.provider(k).toolCalls| > 0
    {
      if end.error.BudgetRefusal? {
        AnsweredAt(input, last.rounds, k);
      } else {
        AnsweredAt(input, last.rounds[..|last.rounds| - 1], k);
      }
    }
  }

  /* ---- the gate and the statement ---- */

  /** After any turn of a budgeted agent, what the gate charged is what the turn is stored as
      having consumed: the tokens always, and the cost whenever the gate held a price and any
      call opened. The text of the answer is the text of the calls. */
  lemma GateAgreesWithStatement(input: TurnInput)
    requires input.gate.budget.Enabled()
    ensures var last := LastOf(input);
            var stored := TurnTotal(last.rounds, input.gate.price, input.gate.est);
            && last.spend.tokens == stored.promptTokens + stored.completionTokens
            && last.spend.cost == CostOf(stored)
            && (input.gate.price.Some? && (exists i :: 0 <= i < |last.rounds| && last.rounds[i].streamOpened)
                ==> stored.cost == Some(last.spend.cost))
            && last.reply == Flatten(Apply(ContentOf, last.rounds))
  {
    RunCharged(input, Begin(input));
    GateMatchesStatement(input.gate, LastOf(input).rounds);
  }
}
