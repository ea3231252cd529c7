/** What every turn keeps, whatever the provider, the executors, the reader and the clock do. */
module TurnProperties {
  import opened Sequences
  import opened Tools
  import opened ToolExecution
  import opened Receipts
  import opened Accounting
  import opened Budget
  import opened Stream
  import opened Report
  import opened Turn

  /* ---- the specification of the audit trail ---- */

  datatype Asked = Asked(round: nat, call: ToolCall)

  function AskedOf(p: PendingCall): Asked {
    Asked(p.round, p.outcome.call)
  }

  function InRound(round: nat, calls: seq<ToolCall>): seq<Asked> {
    seq(|calls|, i requires 0 <= i < |calls| => Asked(round, calls[i]))
  }

  /** What the model asked for in the first `n` calls, on streams that ended cleanly. */
  function RequestedIn(input: TurnInput, n: nat): seq<Asked> {
    if n == 0 then []
    else
      var call := input.provider(n - 1);
      if call.ending.Complete? then RequestedIn(input, n - 1) + InRound(n, call.toolCalls)
      else RequestedIn(input, n - 1)
  }

  /** What the provider delivered in the first `n` calls, however their streams ended. */
  function DeliveredIn(input: TurnInput, n: nat): seq<Asked> {
    if n == 0 then [] else DeliveredIn(input, n - 1) + InRound(n, input.provider(n - 1).toolCalls)
  }

  predicate DidRun(p: PendingCall) { !p.outcome.status.NotExecuted? }

  function CallOf(p: PendingCall): ToolCall { p.outcome.call }

  /** The calls that ran, according to the records. */
  function RanOf(records: seq<PendingCall>): seq<ToolCall> {
    if records == [] then []
    else if DidRun(records[|records| - 1]) then RanOf(records[..|records| - 1]) + [CallOf(records[|records| - 1])]
    else RanOf(records[..|records| - 1])
  }

  /* ---- the specification of the wire ---- */

  predicate IsAnswer(m: ChatMessage, call: ToolCall) {
    m.role == ToolRole && m.toolCallId == call.id && m.toolCalls == []
  }

  /** `b` is `a` followed by the model's own ask and exactly one answer per asked call, in the
      order asked and under the asked ids. */
  predicate Extends(a: seq<ChatMessage>, b: seq<ChatMessage>, call: CallResult) {
    && call.ending.Complete? && call.toolCalls != []
    && |b| == |a| + 1 + |call.toolCalls|
    && b[..|a|] == a
    && b[|a|] == AskOf(call)
    && forall i :: 0 <= i < |call.toolCalls| ==> IsAnswer(b[|a| + 1 + i], call.toolCalls[i])
  }

  /* ---- the shapes of a step ---- */

  function CalledAt(input: TurnInput, st: TurnState): TurnState {
    AfterProvider(input, st, input.provider(|st.rounds|))
  }

  /** A step that goes on ran the tools of a completed call that asked for some. */
  lemma ContinueShape(input: TurnInput, st: TurnState, next: TurnState)
    requires Step(input, st) == Continue(next)
    ensures var call := input.provider(|st.rounds|);
            && call.ending.Complete? && call.toolCalls != []
            && |st.rounds| + 1 < MAX_TOOL_ROUNDS
            && CauseAt(input.death, Checking(|st.rounds|)).None?
            && next == Executing(input, CalledAt(input, st), call)
  {
  }

  /** A step that ends made no call, or made one with nothing to run, or refused what it asked. */
  lemma EndShape(input: TurnInput, st: TurnState, last: TurnState, end: TurnEnd)
    requires Step(input, st) == Ended(last, end)
    ensures var call := input.provider(|st.rounds|);
            || last == st
            || (last == CalledAt(input, st) && (!call.ending.Complete? || call.toolCalls == []))
            || (call.ending.Complete?
                && last == Refusing(input, CalledAt(input, st), call, ToolFailure(RoundLimit, ROUND_LIMIT_TEXT)))
            || (call.ending.Complete?
                && last == Refusing(input, CalledAt(input, st), call, ToolFailure(TurnStopped, TURN_STOPPED_TEXT)))
  {
  }

  /* ---- nothing asked for disappears ---- */

  /** The records of the first `n` calls: everything asked for, once, in order and under its
      round; and what they say ran is what the executors were invoked with. */
  predicate Audited(input: TurnInput, n: nat, records: seq<PendingCall>, served: seq<ToolCall>) {
    Apply(AskedOf, records) == RequestedIn(input, n) && Faithful(records, served)
  }

  predicate Faithful(records: seq<PendingCall>, served: seq<ToolCall>) {
    RanOf(records) == served && Recognised(records)
  }

  predicate Recognised(records: seq<PendingCall>) {
    records == [] ||
    (!records[|records| - 1].outcome.status.Unrecognised? && Recognised(records[..|records| - 1]))
  }

  lemma {:induction false} ToolsAreFaithful(input: TurnInput, round: nat, p: ToolPhase, calls: seq<ToolCall>)
    requires Faithful(p.records, p.served)
    ensures Faithful(RunTools(input, round, p, calls).records, RunTools(input, round, p, calls).served)
    decreases |calls|
  {
    if calls != [] {
      var next := AfterTool(input, round, p, calls[0]);
      var r := PendingCall(round, Outcome(input.box, input.tools, calls[0], |p.served|));
      OutcomeMeaning(input.box, input.tools, calls[0], |p.served|);
      RecordAppended(p.records, r);
      assert (p.records + [r])[..|p.records|] == p.records;
      ToolsAreFaithful(input, round, next, calls[1..]);
    }
  }

  lemma {:induction false} ToolsAreRecorded(input: TurnInput, round: nat, p: ToolPhase, calls: seq<ToolCall>)
    ensures Apply(AskedOf, RunTools(input, round, p, calls).records) ==
            Apply(AskedOf, p.records) + InRound(round, calls)
    decreases |calls|
  {
    if calls == [] {
      assert Apply(AskedOf, p.records) + InRound(round, calls) == Apply(AskedOf, p.records);
    } else {
      var r := PendingCall(round, Outcome(input.box, input.tools, calls[0], |p.served|));
      var next := AfterTool(input, round, p, calls[0]);
      OutcomeMeaning(input.box, input.tools, calls[0], |p.served|);
      ToolsAreRecorded(input, round, next, calls[1..]);
      RecordAppended(p.records, r);
      assert InRound(round, calls) == [AskedOf(r)] + InRound(round, calls[1..]);
      OneMoreAsked(Apply(AskedOf, RunTools(input, round, next, calls[1..]).records), Apply(AskedOf, next.records),
                   Apply(AskedOf, p.records), AskedOf(r), InRound(round, calls[1..]), InRound(round, calls));
    }
  }

  lemma OneMoreAsked(all: seq<Asked>, most: seq<Asked>, before: seq<Asked>, x: Asked, rest: seq<Asked>,
      asked: seq<Asked>)
    requires all == most + rest && most == before + [x] && asked == [x] + rest
    ensures all == before + asked
  {
  }

  lemma RecordAppended(records: seq<PendingCall>, r: PendingCall)
    ensures Apply(AskedOf, records + [r]) == Apply(AskedOf, records) + [AskedOf(r)]
    ensures RanOf(records + [r]) == if DidRun(r) then RanOf(records) + [CallOf(r)] else RanOf(records)
  {
    assert (records + [r])[..|records|] == records;
  }

  lemma OneMoreRefusal(box: ToolBox, n: nat, calls: seq<ToolCall>, failure: ToolFailure)
    requires calls != []
    ensures RefuseAll(box, n, calls, failure) ==
            RefuseAll(box, n, calls[..|calls| - 1], failure) + [RefusalOf(box, n, calls[|calls| - 1], failure)]
  {
  }

  lemma {:induction false} RefusalsRecordEveryCall(
      box: ToolBox, round: nat, records: seq<PendingCall>, calls: seq<ToolCall>, failure: ToolFailure)
    ensures var all := records + RefuseAll(box, round, calls, failure);
            && Apply(AskedOf, all) == Apply(AskedOf, records) + InRound(round, calls)
            && RanOf(all) == RanOf(records)
            && (Recognised(records) ==> Recognised(all))
    decreases |calls|
  {
    var refused := RefuseAll(box, round, calls, failure);
    if calls == [] {
      assert records + refused == records;
      assert Apply(AskedOf, records) + InRound(round, calls) == Apply(AskedOf, records);
    } else {
      var n := |calls| - 1;
      RefusalsRecordEveryCall(box, round, records, calls[..n], failure);
      assert records + refused == records + RefuseAll(box, round, calls[..n], failure) + [refused[n]];
      assert (records + refused)[..|records + refused| - 1] == records + RefuseAll(box, round, calls[..n], failure);
      RecordAppended(records + RefuseAll(box, round, calls[..n], failure), refused[n]);
      assert InRound(round, calls) == InRound(round, calls[..n]) + [Asked(round, calls[n])];
    }
  }

  /** A call that asked for nothing, or whose stream broke, leaves nothing to record. */
  lemma NothingToRecord(input: TurnInput, n: nat, records: seq<PendingCall>, served: seq<ToolCall>)
    requires Audited(input, n, records, served)
    requires !input.provider(n).ending.Complete? || input.provider(n).toolCalls == []
    ensures Audited(input, n + 1, records, served)
  {
    assert InRound(n + 1, []) == [];
    assert RequestedIn(input, n) + InRound(n + 1, []) == RequestedIn(input, n);
  }

  /** A turn that stops holding requested calls: they are all on record, and none of them ran. */
  lemma RefusalsAudited(input: TurnInput, n: nat, records: seq<PendingCall>, served: seq<ToolCall>,
      failure: ToolFailure)
    requires Audited(input, n, records, served) && input.provider(n).ending.Complete?
    ensures Audited(input, n + 1, records + RefuseAll(input.box, n + 1, input.provider(n).toolCalls, failure), served)
  {
    RefusalsRecordEveryCall(input.box, n + 1, records, input.provider(n).toolCalls, failure);
  }

  lemma ToolsAudited(input: TurnInput, n: nat, p: ToolPhase)
    requires Audited(input, n, p.records, p.served) && input.provider(n).ending.Complete?
    ensures var q := RunTools(input, n + 1, p, input.provider(n).toolCalls);
            Audited(input, n + 1, q.records, q.served)
  {
    ToolsAreFaithful(input, n + 1, p, input.provider(n).toolCalls);
    ToolsAreRecorded(input, n + 1, p, input.provider(n).toolCalls);
  }

  lemma EndAudited(input: TurnInput, st: TurnState, last: TurnState, end: TurnEnd)
    requires Audited(input, |st.rounds|, st.records, st.served) && Step(input, st) == Ended(last, end)
    ensures Audited(input, |last.rounds|, last.records, last.served)
  {
    EndShape(input, st, last, end);
    var n := |st.rounds|;
    if last == CalledAt(input, st) {
      NothingToRecord(input, n, st.records, st.served);
    } else if last != st {
      RefusalsAudited(input, n, st.records, st.served, ToolFailure(RoundLimit, ROUND_LIMIT_TEXT));
      RefusalsAudited(input, n, st.records, st.served, ToolFailure(TurnStopped, TURN_STOPPED_TEXT));
    }
  }

  lemma ContinueAudited(input: TurnInput, st: TurnState, next: TurnState)
    requires Audited(input, |st.rounds|, st.records, st.served) && Step(input, st) == Continue(next)
    ensures Audited(input, |next.rounds|, next.records, next.served) && |next.rounds| == |st.rounds| + 1
  {
    ContinueShape(input, st, next);
    ToolsAudited(input, |st.rounds|, PhaseOf(CalledAt(input, st), input.provider(|st.rounds|)));
  }

  lemma {:induction false} RunAudited(input: TurnInput, st: TurnState)
    requires |st.rounds| < MAX_TOOL_ROUNDS && Audited(input, |st.rounds|, st.records, st.served)
    ensures var last := RunFrom(input, st).last; Audited(input, |last.rounds|, last.records, last.served)
    decreases MAX_TOOL_ROUNDS - |st.rounds|
  {
    match Step(input, st)
    case Ended(last, end) =>
      EndAudited(input, st, last, end);
    case Continue(next) =>
      ContinueAudited(input, st, next);
      RunAudited(input, next);
  }

  /* ---- the wire ---- */

  /** The list that would be sent next: the built one, or the last one sent with its call
      answered. */
  predicate Tip(input: TurnInput, requests: seq<seq<ChatMessage>>, messages: seq<ChatMessage>) {
    if requests == [] then messages == input.built
    else Extends(requests[|requests| - 1], messages, input.provider(|requests| - 1))
  }

  /** The lists sent, each the tip of those before it. */
  predicate Chained(input: TurnInput, requests: seq<seq<ChatMessage>>) {
    requests == [] ||
    (Chained(input, requests[..|requests| - 1])
     && Tip(input, requests[..|requests| - 1], requests[|requests| - 1]))
  }

  /** `b` is `a` followed by one answer per call, in order and under the same ids. */
  predicate AnswersInOrder(a: seq<ChatMessage>, b: seq<ChatMessage>, calls: seq<ToolCall>) {
    && |b| == |a| + |calls|
    && b[..|a|] == a
    && forall i :: 0 <= i < |calls| ==> IsAnswer(b[|a| + i], calls[i])
  }

  lemma {:induction false} ToolsAnswerEveryCall(input: TurnInput, round: nat, p: ToolPhase, calls: seq<ToolCall>)
    ensures var q := RunTools(input, round, p, calls);
            && AnswersInOrder(p.messages, q.messages, calls)
            && |q.tools| == |p.tools| + |calls|
    decreases |calls|
  {
    if calls != [] {
      var next := AfterTool(input, round, p, calls[0]);
      ToolsAnswerEveryCall(input, round, next, calls[1..]);
      AnswersCompose(p.messages, next.messages, RunTools(input, round, p, calls).messages, calls);
    }
  }

  lemma AnswersCompose(a: seq<ChatMessage>, b: seq<ChatMessage>, c: seq<ChatMessage>, calls: seq<ToolCall>)
    requires calls != []
    requires |b| == |a| + 1 && b[..|a|] == a && IsAnswer(b[|a|], calls[0])
    requires AnswersInOrder(b, c, calls[1..])
    ensures AnswersInOrder(a, c, calls)
  {
    assert c[..|a|] == c[..|b|][..|a|];
    assert c[|a|] == c[..|b|][|a|];
    forall i | 0 < i < |calls| ensures IsAnswer(c[|a| + i], calls[i]) {
      assert IsAnswer(c[|b| + (i - 1)], calls[1..][i - 1]);
    }
  }

  /** The tool round on the wire: the list after it extends the list sent. */
  lemma ToolRoundExtends(input: TurnInput, round: nat, p: ToolPhase, a: seq<ChatMessage>, call: CallResult)
    requires call.ending.Complete? && call.toolCalls != []
    requires p.messages == a + [AskOf(call)]
    ensures Extends(a, RunTools(input, round, p, call.toolCalls).messages, call)
  {
    var b := RunTools(input, round, p, call.toolCalls).messages;
    ToolsAnswerEveryCall(input, round, p, call.toolCalls);
    assert b[..|a|] == b[..|p.messages|][..|a|];
    assert b[|a|] == b[..|p.messages|][|a|];
    forall i | 0 <= i < |call.toolCalls| ensures IsAnswer(b[|a| + 1 + i], call.toolCalls[i]) {
      assert IsAnswer(b[|p.messages| + i], call.toolCalls[i]);
    }
  }

  lemma ChainGrows(input: TurnInput, requests: seq<seq<ChatMessage>>, messages: seq<ChatMessage>)
    requires Chained(input, requests) && Tip(input, requests, messages)
    ensures Chained(input, requests + [messages])
  {
    assert (requests + [messages])[..|requests|] == requests;
  }

  lemma EndChained(input: TurnInput, st: TurnState, last: TurnState, end: TurnEnd)
    requires |st.requests| == |st.rounds| && Chained(input, st.requests) && Tip(input, st.requests, st.messages)
    requires Step(input, st) == Ended(last, end)
    ensures |last.requests| == |last.rounds| && Chained(input, last.requests)
  {
    EndShape(input, st, last, end);
    ChainGrows(input, st.requests, st.messages);
    assert last == st || last.requests == st.requests + [st.messages];
  }

  lemma ContinueChained(input: TurnInput, st: TurnState, next: TurnState)
    requires |st.requests| == |st.rounds| && Chained(input, st.requests) && Tip(input, st.requests, st.messages)
    requires Step(input, st) == Continue(next)
    ensures |next.requests| == |next.rounds| == |st.rounds| + 1 < MAX_TOOL_ROUNDS
    ensures Chained(input, next.requests) && Tip(input, next.requests, next.messages)
  {
    ContinueShape(input, st, next);
    ChainGrows(input, st.requests, st.messages);
    var called, call := CalledAt(input, st), input.provider(|st.rounds|);
    ToolRoundExtends(input, |called.rounds|, PhaseOf(called, call), st.messages, call);
    assert next.requests == st.requests + [st.messages];
  }

  lemma {:induction false} RunChained(input: TurnInput, st: TurnState)
    requires |st.rounds| < MAX_TOOL_ROUNDS
    requires |st.requests| == |st.rounds| && Chained(input, st.requests) && Tip(input, st.requests, st.messages)
    ensures var last := RunFrom(input, st).last; |last.requests| == |last.rounds| && Chained(input, last.requests)
    decreases MAX_TOOL_ROUNDS - |st.rounds|
  {
    match Step(input, st)
    case Ended(last, end) =>
      EndChained(input, st, last, end);
    case Continue(next) =>
      ContinueChained(input, st, next);
      RunChained(input, next);
  }

  /* ---- what is counted ---- */

  /** `added` is what a list carries beyond the built one, and the list starts with the built
      one. */
  predicate Measures(input: TurnInput, messages: seq<ChatMessage>, added: int) {
    && input.built <= messages
    && added == SumBy(MessageCharacters, messages[|input.built|..])
  }

  predicate RoundCounted(input: TurnInput, messages: seq<ChatMessage>, round: ProviderRound) {
    && Measures(input, messages, round.addedCharacters)
    && round.estimatedPrompt == input.report.totalEstimatedTokens + input.est.Tokens(round.addedCharacters)
  }

  predicate Counted(input: TurnInput, requests: seq<seq<ChatMessage>>, rounds: seq<ProviderRound>) {
    |requests| == |rounds| &&
    (rounds == [] ||
     (Counted(input, requests[..|rounds| - 1], rounds[..|rounds| - 1])
      && RoundCounted(input, requests[|rounds| - 1], rounds[|rounds| - 1])))
  }

  lemma {:induction false} ToolsAreMeasured(input: TurnInput, round: nat, p: ToolPhase, calls: seq<ToolCall>)
    requires Measures(input, p.messages, p.added)
    ensures var q := RunTools(input, round, p, calls); Measures(input, q.messages, q.added)
    decreases |calls|
  {
    if calls != [] {
      var answer := AnswerOf(Outcome(input.box, input.tools, calls[0], |p.served|));
      MessageMeasured(input, p.messages, p.added, answer);
      ToolsAreMeasured(input, round, AfterTool(input, round, p, calls[0]), calls[1..]);
    }
  }

  lemma MessageMeasured(input: TurnInput, messages: seq<ChatMessage>, added: int, m: ChatMessage)
    requires Measures(input, messages, added)
    ensures Measures(input, messages + [m], added + MessageCharacters(m))
  {
    assert (messages + [m])[|input.built|..] == messages[|input.built|..] + [m];
    SumByConcat(MessageCharacters, messages[|input.built|..], [m]);
  }

  lemma ToolsCounted(input: TurnInput, requests: seq<seq<ChatMessage>>, rounds: seq<ProviderRound>,
      tools: seq<RoundTool>)
    requires rounds != [] && Counted(input, requests, rounds)
    ensures Counted(input, requests, WithTools(rounds, tools))
  {
    assert WithTools(rounds, tools)[..|rounds| - 1] == rounds[..|rounds| - 1];
  }

  lemma CallCounted(input: TurnInput, st: TurnState)
    requires Counted(input, st.requests, st.rounds) && Measures(input, st.messages, st.added)
    ensures Counted(input, CalledAt(input, st).requests, CalledAt(input, st).rounds)
  {
    var called := CalledAt(input, st);
    assert called.requests[..|st.rounds|] == st.requests && called.rounds[..|st.rounds|] == st.rounds;
  }

  lemma {:induction false} RunCounted(input: TurnInput, st: TurnState)
    requires |st.rounds| < MAX_TOOL_ROUNDS
    requires Counted(input, st.requests, st.rounds) && Measures(input, st.messages, st.added)
    ensures var last := RunFrom(input, st).last;
            Counted(input, last.requests, last.rounds) && Measures(input, last.messages, last.added)
    decreases MAX_TOOL_ROUNDS - |st.rounds|
  {
    CallCounted(input, st);
    match Step(input, st)
    case Ended(last, end) =>
      EndShape(input, st, last, end);
    case Continue(next) =>
      ContinueShape(input, st, next);
      var called, call := CalledAt(input, st), input.provider(|st.rounds|);
      MessageMeasured(input, st.messages, st.added, AskOf(call));
      ToolsAreMeasured(input, |called.rounds|, PhaseOf(called, call), call.toolCalls);
      ToolsCounted(input, called.requests, called.rounds,
                   RunTools(input, |called.rounds|, PhaseOf(called, call), call.toolCalls).tools);
      RunCounted(input, next);
  }

  /* ---- what is charged and what is said ---- */

  /** What the gate holds and what the turn has said, against its rounds. */
  predicate Charged(input: TurnInput, rounds: seq<ProviderRound>, spend: Spend, reply: string, reasoning: string) {
    && spend == SpendOver(input.gate, rounds)
    && reply == Flatten(Apply(ContentOf, rounds))
    && reasoning == Flatten(Apply(ThoughtOf, rounds))
  }

  lemma CallCharged(input: TurnInput, rounds: seq<ProviderRound>, spend: Spend, reply: string, reasoning: string,
                    made: ProviderRound)
    requires Charged(input, rounds, spend, reply, reasoning)
    ensures Charged(input, rounds + [made], AfterCall(input.gate, spend, made),
                    reply + made.content, reasoning + made.reasoning)
  {
    assert (rounds + [made])[..|rounds|] == rounds;
  }

  /** Filling in the tools of the last round changes neither what it cost nor what it said. */
  lemma ToolsCharged(input: TurnInput, rounds: seq<ProviderRound>, spend: Spend, reply: string, reasoning: string,
                     tools: seq<RoundTool>)
    requires rounds != [] && Charged(input, rounds, spend, reply, reasoning)
    ensures Charged(input, WithTools(rounds, tools), spend, reply, reasoning)
  {
    var init, last := rounds[..|rounds| - 1], rounds[|rounds| - 1];
    var said, thought := Flatten(Apply(ContentOf, init)), Flatten(Apply(ThoughtOf, init));
    assert rounds == init + [last];
    CallCharged(input, init, SpendOver(input.gate, init), said, thought, last);
    CallCharged(input, init, SpendOver(input.gate, init), said, thought, last.(tools := tools));
    SameAccount(input.gate, SpendOver(input.gate, init), last, tools);
  }

  lemma SameAccount(g: GateConfig, s: Spend, round: ProviderRound, tools: seq<RoundTool>)
    ensures AfterCall(g, s, round.(tools := tools)) == AfterCall(g, s, round)
  {
    assert Measured(round.(tools := tools), g.est) == Measured(round, g.est);
  }

  lemma {:induction false} RunCharged(input: TurnInput, st: TurnState)
    requires |st.rounds| < MAX_TOOL_ROUNDS && Charged(input, st.rounds, st.spend, st.reply, st.reasoning)
    ensures var last := RunFrom(input, st).last;
            Charged(input, last.rounds, last.spend, last.reply, last.reasoning)
    decreases MAX_TOOL_ROUNDS - |st.rounds|
  {
    var called, call := CalledAt(input, st), input.provider(|st.rounds|);
    CallCharged(input, st.rounds, st.spend, st.reply, st.reasoning, RoundOf(input, st.added, call));
    match Step(input, st)
    case Ended(last, end) =>
      EndShape(input, st, last, end);
    case Continue(next) =>
      ContinueShape(input, st, next);
      ToolsCharged(input, called.rounds, called.spend, called.reply, called.reasoning,
                   RunTools(input, |called.rounds|, PhaseOf(called, call), call.toolCalls).tools);
      RunCharged(input, next);
  }

  /* ---- what an ending means ---- */

  /** The call ended cleanly asking for tools. */
  predicate Asks(call: CallResult) { call.ending.Complete? && call.toolCalls != [] }

  /** The call ended cleanly asking for nothing more. */
  predicate Answers(call: CallResult) { call.ending.Complete? && call.toolCalls == [] }

  predicate Answered(input: TurnInput, k: nat, round: ProviderRound) {
    var call := input.provider(k);
    Asks(call) && |round.tools| == |call.toolCalls| && CauseAt(input.death, Checking(k)).None?
  }

  /** Every round ran exactly the tools it was asked for, in a context that was alive. */
  predicate AllAnswered(input: TurnInput, rounds: seq<ProviderRound>) {
    rounds == [] ||
    (AllAnswered(input, rounds[..|rounds| - 1]) && Answered(input, |rounds| - 1, rounds[|rounds| - 1]))
  }

  /** The last round is empty unless the budget refused the one after it. */
  predicate LastRound(input: TurnInput, st: TurnState, end: TurnEnd)
    requires st.rounds != []
  {
    if end.error.BudgetRefusal? then
      AllAnswered(input, st.rounds) && Verdict(input.gate, st.spend).blocked
    else
      AllAnswered(input, st.rounds[..|st.rounds| - 1]) && st.rounds[|st.rounds| - 1].tools == []
  }

  /** Which of the finishes a resume or a reader asks about a turn of `n` calls is stored with, from
      its last call and from what had ended the context, if anything, when it was looked at after
      that call. A gateway can say each of these words itself, and is then believed. */
  predicate FinishIs(finish: FinishReason, n: nat, call: CallResult, gone: Option<StopCause>) {
    var more := Asks(call) && n < MAX_TOOL_ROUNDS;
    && (finish.ToolRoundLimit? <==>
          (Answers(call) && call.finish.ToolRoundLimit?) || (Asks(call) && n == MAX_TOOL_ROUNDS))
    && (finish.Deadline? <==>
          || call.ending == Stopped(DeadlineExceeded)
          || (Answers(call) && call.finish.Deadline?)
          || (more && gone == Some(DeadlineExceeded)))
    && (finish.Aborted? <==>
          || (call.ending.Stopped? && !call.ending.cause.DeadlineExceeded?)
          || (Answers(call) && call.finish.Aborted?)
          || (more && gone.Some? && !gone.value.DeadlineExceeded?))
    && (finish.Failed? <==>
          || call.ending.NeverOpened? || call.ending.Broken?
          || (Answers(call) && call.finish.Failed?)
          || (more && gone.None?))
  }

  /** Which ending such a turn is given. */
  predicate Named(end: TurnEnd, n: nat, call: CallResult, gone: Option<StopCause>) {
    var more := Asks(call) && n < MAX_TOOL_ROUNDS;
    && !end.finish.ToolCalls? && !end.finish.Silent?
    && FinishIs(end.finish, n, call, gone)
    && (end.error.BudgetRefusal? <==> more && gone.None?)
    && (end.error.ToolLoopStopped? <==> Asks(call) && n == MAX_TOOL_ROUNDS)
    && (end.error.OpenError? <==> call.ending.NeverOpened?)
    && (end.error.OpenError? ==> end.error.text == call.ending.error)
    && (end.error.ReceiveError? <==> call.ending.Broken?)
    && (end.openFailure <==> n == 1 && call.ending.NeverOpened?)
  }

  /** At the ceiling every call of the last round is on record, refused with that code. */
  predicate CeilingOnRecord(input: TurnInput, st: TurnState, end: TurnEnd)
    requires st.rounds != []
  {
    var n := |st.rounds|;
    end.error.ToolLoopStopped? ==>
      EndsWith(st.records, RefuseAll(input.box, n, input.provider(n - 1).toolCalls,
                                     ToolFailure(RoundLimit, ROUND_LIMIT_TEXT)))
  }

  predicate Terminal(input: TurnInput, st: TurnState, end: TurnEnd) {
    && 1 <= |st.rounds| <= MAX_TOOL_ROUNDS
    && LastRound(input, st, end)
    && Named(end, |st.rounds|, input.provider(|st.rounds| - 1), CauseAt(input.death, Checking(|st.rounds| - 1)))
    && CeilingOnRecord(input, st, end)
  }

  /** What the endings after a call leave of the rounds: nothing of the last one ran. */
  lemma EndingRounds(input: TurnInput, called: TurnState, call: CallResult, last: TurnState, end: TurnEnd)
    requires called.rounds != [] && AfterReply(input, called, call) == Ended(last, end)
    ensures last.rounds == called.rounds && !end.error.BudgetRefusal?
  {
  }

  lemma EndingNames(input: TurnInput, called: TurnState, call: CallResult, last: TurnState, end: TurnEnd)
    requires 1 <= |called.rounds| <= MAX_TOOL_ROUNDS && AfterReply(input, called, call) == Ended(last, end)
    ensures Named(end, |called.rounds|, call, CauseAt(input.death, Checking(|called.rounds| - 1)))
  {
  }

  lemma EndingRecords(input: TurnInput, called: TurnState, call: CallResult, last: TurnState, end: TurnEnd)
    requires called.rounds != [] && AfterReply(input, called, call) == Ended(last, end)
    ensures end.error.ToolLoopStopped? ==>
              EndsWith(last.records, RefuseAll(input.box, |called.rounds|, call.toolCalls,
                                               ToolFailure(RoundLimit, ROUND_LIMIT_TEXT)))
  {
  }

  lemma EndingStep(input: TurnInput, st: TurnState, last: TurnState, end: TurnEnd)
    requires |st.rounds| < MAX_TOOL_ROUNDS && AllAnswered(input, st.rounds)
    requires Step(input, st) == Ended(last, end)
    ensures Terminal(input, last, end)
  {
    if !(st.rounds != [] && Verdict(input.gate, st.spend).blocked) {
      var call := input.provider(|st.rounds|);
      var called := AfterProvider(input, st, call);
      EndingRounds(input, called, call, last, end);
      EndingNames(input, called, call, last, end);
      EndingRecords(input, called, call, last, end);
      assert called.rounds[..|st.rounds|] == st.rounds;
    }
  }

  lemma ToolsAnswered(input: TurnInput, rounds: seq<ProviderRound>, tools: seq<RoundTool>)
    requires rounds != [] && AllAnswered(input, rounds[..|rounds| - 1])
    requires Answered(input, |rounds| - 1, rounds[|rounds| - 1].(tools := tools))
    ensures AllAnswered(input, WithTools(rounds, tools))
  {
    assert WithTools(rounds, tools)[..|rounds| - 1] == rounds[..|rounds| - 1];
  }

  lemma {:induction false} RunTerminal(input: TurnInput, st: TurnState)
    requires |st.rounds| < MAX_TOOL_ROUNDS && AllAnswered(input, st.rounds)
    ensures Terminal(input, RunFrom(input, st).last, RunFrom(input, st).end)
    decreases MAX_TOOL_ROUNDS - |st.rounds|
  {
    match Step(input, st)
    case Ended(last, end) =>
      EndingStep(input, st, last, end);
    case Continue(next) =>
      ContinueShape(input, st, next);
      var called, call := CalledAt(input, st), input.provider(|st.rounds|);
      ToolsAnswerEveryCall(input, |called.rounds|, PhaseOf(called, call), call.toolCalls);
      assert called.rounds[..|st.rounds|] == st.rounds;
      ToolsAnswered(input, called.rounds,
                    RunTools(input, |called.rounds|, PhaseOf(called, call), call.toolCalls).tools);
      RunTerminal(input, next);
  }
}
