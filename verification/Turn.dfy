/** The turn: the bounded loop of provider calls and tool rounds. `Run` is the turn as a state
    machine over values; `RunTurn` is the loop itself, driving a gateway, executors and a gate. */
module Turn {
  import opened Sequences
  import opened Estimator
  import opened Tools
  import opened ToolExecution
  import opened Receipts
  import opened Accounting
  import opened Budget
  import opened Stream
  import opened Report

  /** Four provider calls, hence at most three rounds of tool execution. */
  const MAX_TOOL_ROUNDS := 4

  /* ---- the context of a turn ---- */

  // The instants of a turn, four to a round and rounds counted from zero: the call is opened, its
  // stream is read, the context is looked at, the tools run.
  function Opening(round: nat): nat { 4 * round }
  function Reading(round: nat): nat { 4 * round + 1 }
  function Checking(round: nat): nat { 4 * round + 2 }
  function RunningTools(round: nat): nat { 4 * round + 3 }

  /** When a context ends and what ended it. One that is over stays over. */
  datatype Death = Death(at: nat, cause: StopCause)

  function CauseAt(death: Option<Death>, instant: nat): Option<StopCause> {
    if death.Some? && death.value.at <= instant then Some(death.value.cause) else None
  }

  /** Everything a turn is given. `provider(n)` is what the n-th call produces, however the
      gateway came to answer so, and `death` is when the turn's context ends, if it does. */
  datatype TurnInput = TurnInput(
    built: seq<ChatMessage>,
    report: ContextReport,
    est: TokenEstimator,
    tools: seq<ToolDefinition>,
    gate: GateConfig,
    box: ToolBox,
    provider: nat -> CallResult,
    death: Option<Death>)

  /** What the turn has accumulated. `served` and `requests` are the logs of the executors and of
      the gateway: every invocation, every message list sent. */
  datatype TurnState = TurnState(
    messages: seq<ChatMessage>,
    added: int,
    rounds: seq<ProviderRound>,
    records: seq<PendingCall>,
    reply: string,
    reasoning: string,
    spend: Spend,
    served: seq<ToolCall>,
    requests: seq<seq<ChatMessage>>)

  datatype TurnError =
    | NoError
    | BudgetRefusal(reason: BlockReason)
    | OpenError(text: string)
    | ReceiveError(text: string)
    | ToolLoopStopped

  /** How a turn ended. `openFailure` marks the one case in which nothing was ever streamed. */
  datatype TurnEnd = TurnEnd(finish: FinishReason, error: TurnError, openFailure: bool)

  datatype StepResult = Continue(next: TurnState) | Ended(last: TurnState, end: TurnEnd)

  function Begin(input: TurnInput): TurnState {
    TurnState(input.built, 0, [], [], "", "", NOTHING_SPENT, [], [])
  }

  /* ---- one provider call ---- */

  function RoundOf(input: TurnInput, added: int, call: CallResult): ProviderRound {
    ProviderRound(call.Opened(), call.usage, call.content, call.reasoning,
                  input.report.totalEstimatedTokens + input.est.Tokens(added), added, call.finish, [])
  }

  function AfterProvider(input: TurnInput, st: TurnState, call: CallResult): TurnState {
    var round := RoundOf(input, st.added, call);
    st.(rounds := st.rounds + [round],
        reply := st.reply + call.content,
        reasoning := st.reasoning + call.reasoning,
        spend := AfterCall(input.gate, st.spend, round),
        requests := st.requests + [st.messages])
  }

  /* ---- one round of tools ---- */

  function AskOf(call: CallResult): ChatMessage {
    ChatMessage(Assistant, call.content, call.toolCalls, "", false)
  }

  function AnswerOf(o: ToolOutcome): ChatMessage {
    ChatMessage(ToolRole, o.content, [], o.call.id, false)
  }

  function RoundToolOf(o: ToolOutcome): RoundTool {
    RoundTool(o.call.name, o.status, if o.failure.Some? then o.failure.value.code else NoCode)
  }

  /** The part of the state a tool round changes. */
  datatype ToolPhase = ToolPhase(
    messages: seq<ChatMessage>,
    added: int,
    tools: seq<RoundTool>,
    records: seq<PendingCall>,
    served: seq<ToolCall>)

  function AfterTool(input: TurnInput, round: nat, p: ToolPhase, call: ToolCall): ToolPhase {
    var o := Outcome(input.box, input.tools, call, |p.served|);
    ToolPhase(p.messages + [AnswerOf(o)],
              p.added + |o.content|,
              p.tools + [RoundToolOf(o)],
              p.records + [PendingCall(round, o)],
              if ReachesExecutor(input.box, input.tools, call) then p.served + [call] else p.served)
  }

  function RunTools(input: TurnInput, round: nat, p: ToolPhase, calls: seq<ToolCall>): ToolPhase
    decreases |calls|
  {
    if calls == [] then p else RunTools(input, round, AfterTool(input, round, p, calls[0]), calls[1..])
  }

  function PhaseOf(st: TurnState, call: CallResult): ToolPhase {
    ToolPhase(st.messages + [AskOf(call)], st.added + MessageCharacters(AskOf(call)), [], st.records, st.served)
  }

  function WithTools(rounds: seq<ProviderRound>, tools: seq<RoundTool>): seq<ProviderRound>
    requires rounds != []
  {
    rounds[..|rounds| - 1] + [rounds[|rounds| - 1].(tools := tools)]
  }

  function AfterTools(st: TurnState, p: ToolPhase): TurnState
    requires st.rounds != []
  {
    st.(messages := p.messages, added := p.added, records := p.records, served := p.served,
        rounds := WithTools(st.rounds, p.tools))
  }

  // The sentence of a refusal at the ceiling and of one after the turn has ended.
  const ROUND_LIMIT_TEXT: string
  const TURN_STOPPED_TEXT: string

  function RefusalOf(box: ToolBox, round: nat, call: ToolCall, failure: ToolFailure): PendingCall {
    PendingCall(round, Failure(box, call, NotExecuted, failure))
  }

  /** `refuseRequestedCalls`: every call the model asked for and the runtime will not run is on
      record as NOT_EXECUTED, with nothing executed and nothing fabricated. */
  function RefuseAll(box: ToolBox, round: nat, calls: seq<ToolCall>, failure: ToolFailure): (r: seq<PendingCall>)
    ensures |r| == |calls|
    ensures forall i :: 0 <= i < |calls| ==> r[i] == RefusalOf(box, round, calls[i], failure)
  {
    seq(|calls|, i requires 0 <= i < |calls| => RefusalOf(box, round, calls[i], failure))
  }

  /* ---- the loop as a state machine ---- */

  /** The reason a turn that asked for nothing more is stored with. */
  function PlainFinish(finish: FinishReason): FinishReason {
    if finish.ToolCalls? || finish.Silent? then Stop else finish
  }

  /** One iteration: gate, call, then whichever of the endings applies, else the tools. */
  function Step(input: TurnInput, st: TurnState): StepResult {
    var verdict := Verdict(input.gate, st.spend);
    if st.rounds != [] && verdict.blocked then
      Ended(st, TurnEnd(Failed, BudgetRefusal(verdict.reason), false))
    else
      var call := input.provider(|st.rounds|);
      AfterReply(input, AfterProvider(input, st, call), call)
  }

  function AfterReply(input: TurnInput, called: TurnState, call: CallResult): StepResult
    requires called.rounds != []
  {
    var round := |called.rounds|;
    match call.ending
    case NeverOpened(error) => Ended(called, TurnEnd(Failed, OpenError(error), round == 1))
    case Broken(error) => Ended(called, TurnEnd(Failed, ReceiveError(error), false))
    case Stopped(cause) => Ended(called, TurnEnd(TerminalFor(cause), NoError, false))
    case Complete =>
      if call.toolCalls == [] then Ended(called, TurnEnd(PlainFinish(call.finish), NoError, false))
      else if round >= MAX_TOOL_ROUNDS then
        Ended(Refusing(input, called, call, ToolFailure(RoundLimit, ROUND_LIMIT_TEXT)),
              TurnEnd(ToolRoundLimit, ToolLoopStopped, false))
      else if CauseAt(input.death, Checking(round - 1)).Some? then
        Ended(Refusing(input, called, call, ToolFailure(TurnStopped, TURN_STOPPED_TEXT)),
              TurnEnd(TerminalFor(CauseAt(input.death, Checking(round - 1)).value), NoError, false))
      else
        Continue(Executing(input, called, call))
  }

  function Refusing(input: TurnInput, called: TurnState, call: CallResult, failure: ToolFailure): TurnState {
    called.(records := called.records + RefuseAll(input.box, |called.rounds|, call.toolCalls, failure))
  }

  function Executing(input: TurnInput, called: TurnState, call: CallResult): TurnState
    requires called.rounds != []
  {
    AfterTools(called, RunTools(input, |called.rounds|, PhaseOf(called, call), call.toolCalls))
  }

  function RunFrom(input: TurnInput, st: TurnState): (r: StepResult)
    requires |st.rounds| < MAX_TOOL_ROUNDS
    ensures r.Ended?
    decreases MAX_TOOL_ROUNDS - |st.rounds|
  {
    match Step(input, st)
    case Ended(last, end) => Ended(last, end)
    case Continue(next) => RunFrom(input, next)
  }

  /** The whole turn. */
  function Run(input: TurnInput): (r: StepResult)
    ensures r.Ended?
  {
    RunFrom(input, Begin(input))
  }

  function ToolsOf(r: ProviderRound): int { |r.tools| }
  function ContentOf(r: ProviderRound): string { r.content }
  function ThoughtOf(r: ProviderRound): string { r.reasoning }

  /* ---- the loop itself ---- */

  /** The gateway as the runtime meets it: it answers by script and keeps every list it was
      sent. */
  class Gateway {
    const script: nat -> ProviderReply
    var sent: seq<seq<ChatMessage>>

    constructor (script: nat -> ProviderReply)
      ensures this.script == script && sent == []
    {
      this.script := script;
      sent := [];
    }

    method Complete(messages: seq<ChatMessage>) returns (reply: ProviderReply)
      modifies this
      ensures reply == script(|old(sent)|)
      ensures sent == old(sent) + [messages]
    {
      reply := script(|sent|);
      sent := sent + [messages];
    }
  }

  /** The n-th call of the turn produces what reading the n-th answer of the script gives. */
  ghost predicate Plays(input: TurnInput, script: nat -> ProviderReply) {
    forall n {:trigger script(n)} :: input.provider(n) == ReadReply(script(n))
  }

  datatype TurnResult = TurnResult(
    content: string,
    reasoning: string,
    end: TurnEnd,
    report: ContextReport,
    rounds: seq<ProviderRound>,
    tools: seq<PendingCall>)

  /** `refuseRequestedCalls` as its loop. */
  method RefuseRequestedCalls(box: ToolBox, round: nat, calls: seq<ToolCall>, failure: ToolFailure)
    returns (refused: seq<PendingCall>)
    ensures refused == RefuseAll(box, round, calls, failure)
  {
    refused := [];
    for i := 0 to |calls|
      invariant |refused| == i
      invariant forall k :: 0 <= k < i ==> refused[k] == RefusalOf(box, round, calls[k], failure)
    {
      refused := refused + [PendingCall(round, ToolOutcome(calls[i], box.encodeFailure(failure), NotExecuted,
                                                           Some(failure), None, None))];
    }
  }

  /** One requested call, through the four gates. */
  method RunRequestedTool(input: TurnInput, executors: Executors, round: nat, p: ToolPhase, call: ToolCall)
    returns (next: ToolPhase)
    requires executors.box == input.box && executors.log == p.served
    modifies executors
    ensures next == AfterTool(input, round, p, call)
    ensures executors.log == next.served
  {
    var o := ExecuteToolCall(executors, input.tools, call);
    OutcomeMeaning(input.box, input.tools, call, |p.served|);
    next := ToolPhase(p.messages + [ChatMessage(ToolRole, o.content, [], call.id, false)],
                      p.added + |o.content|,
                      p.tools + [RoundTool(call.name, o.status,
                          if o.failure.Some? then o.failure.value.code else NoCode)],
                      p.records + [PendingCall(round, o)],
                      executors.log);
  }

  /** The inner loop of `runTurn`: every requested call, in order. */
  method RunRequestedTools(input: TurnInput, executors: Executors, round: nat, start: ToolPhase, calls: seq<ToolCall>)
    returns (p: ToolPhase)
    requires executors.box == input.box && executors.log == start.served
    modifies executors
    ensures p == RunTools(input, round, start, calls)
    ensures executors.log == p.served
  {
    p := start;
    for i := 0 to |calls|
      invariant executors.log == p.served
      invariant RunTools(input, round, p, calls[i..]) == RunTools(input, round, start, calls)
    {
      assert calls[i..][1..] == calls[i + 1..];
      p := RunRequestedTool(input, executors, round, p, calls[i]);
    }
  }

  /** Everything after the provider's call: the four endings, the ceiling, a context that is
      gone, or the tools. */
  method FinishRound(input: TurnInput, executors: Executors, called: TurnState, call: CallResult)
    returns (step: StepResult)
    requires called.rounds != []
    requires executors.box == input.box && executors.log == called.served
    modifies executors
    ensures step == AfterReply(input, called, call)
    ensures executors.log == Reached(step).served
  {
    var round := |called.rounds|;
    match call.ending {
      case NeverOpened(error) => return Ended(called, TurnEnd(Failed, OpenError(error), round == 1));
      case Broken(error) => return Ended(called, TurnEnd(Failed, ReceiveError(error), false));
      case Stopped(cause) => return Ended(called, TurnEnd(TerminalFor(cause), NoError, false));
      case Complete =>
    }
    if call.toolCalls == [] {
      var finish := call.finish;
      if finish.ToolCalls? {
        finish := Stop;
      }
      if finish.Silent? {
        finish := Stop;
      }
      return Ended(called, TurnEnd(finish, NoError, false));
    }
    if round >= MAX_TOOL_ROUNDS {
      var refused := StopRefusing(input, called, call, ToolFailure(RoundLimit, ROUND_LIMIT_TEXT));
      return Ended(refused, TurnEnd(ToolRoundLimit, ToolLoopStopped, false));
    }
    var gone := CauseAt(input.death, Checking(round - 1));
    if gone.Some? {
      var refused := StopRefusing(input, called, call, ToolFailure(TurnStopped, TURN_STOPPED_TEXT));
      return Ended(refused, TurnEnd(TerminalFor(gone.value), NoError, false));
    }
    var next := RunToolRound(input, executors, called, call);
    step := Continue(next);
  }

  /** A turn that ends holding requested calls. */
  method StopRefusing(input: TurnInput, called: TurnState, call: CallResult, failure: ToolFailure)
    returns (last: TurnState)
    ensures last == Refusing(input, called, call, failure)
  {
    var refused := RefuseRequestedCalls(input.box, |called.rounds|, call.toolCalls, failure);
    last := called.(records := called.records + refused);
  }

  /** One round of tools: the model's ask, then every answer. */
  method RunToolRound(input: TurnInput, executors: Executors, called: TurnState, call: CallResult)
    returns (next: TurnState)
    requires called.rounds != []
    requires executors.box == input.box && executors.log == called.served
    modifies executors
    ensures next == Executing(input, called, call)
    ensures executors.log == next.served
  {
    var ask := ChatMessage(Assistant, call.content, call.toolCalls, "", false);
    var start := ToolPhase(called.messages + [ask], called.added + MessageCharacters(ask), [],
                           called.records, called.served);
    var p := RunRequestedTools(input, executors, |called.rounds|, start, call.toolCalls);
    next := called.(messages := p.messages, added := p.added, records := p.records, served := p.served,
                    rounds := WithTools(called.rounds, p.tools));
  }

  function Reached(step: StepResult): TurnState {
    if step.Continue? then step.next else step.last
  }

  /** The gateway, the executors and the gate hold what a state of the turn says they do. */
  ghost predicate Tracks(gateway: Gateway, executors: Executors, gate: TurnGate, st: TurnState)
    reads gateway, executors, gate
  {
    && gateway.sent == st.requests && |st.requests| == |st.rounds|
    && executors.log == st.served
    && gate.Spent() == st.spend
  }

  /** They are the ones the turn was given. */
  ghost predicate Serves(input: TurnInput, gateway: Gateway, executors: Executors, gate: TurnGate) {
    Plays(input, gateway.script) && executors.box == input.box && gate.config == input.gate
  }

  /** One provider call: sent, read, and told to the gate if it opened. */
  method CallProvider(input: TurnInput, gateway: Gateway, executors: Executors, gate: TurnGate, st: TurnState)
    returns (called: TurnState, call: CallResult)
    requires Serves(input, gateway, executors, gate) && Tracks(gateway, executors, gate, st)
    modifies gateway, gate
    ensures call == input.provider(|st.rounds|) && called == AfterProvider(input, st, call)
    ensures Tracks(gateway, executors, gate, called)
  {
    var wire := gateway.Complete(st.messages);
    var reply, reasoning;
    call, reply, reasoning := StreamOneCall(wire, st.reply, st.reasoning);
    var made := ProviderRound(call.Opened(), call.usage, call.content, call.reasoning,
                              input.report.totalEstimatedTokens + input.est.Tokens(st.added),
                              st.added, call.finish, []);
    if call.Opened() {
      gate.Record(made);
    }
    called := st.(rounds := st.rounds + [made], reply := reply, reasoning := reasoning,
                  spend := gate.Spent(), requests := gateway.sent);
  }

  /** One iteration of the loop of `runTurn`. */
  method RunRound(input: TurnInput, gateway: Gateway, executors: Executors, gate: TurnGate, st: TurnState)
    returns (step: StepResult)
    requires Serves(input, gateway, executors, gate) && Tracks(gateway, executors, gate, st)
    modifies gateway, executors, gate
    ensures step == Step(input, st)
    ensures Tracks(gateway, executors, gate, Reached(step))
  {
    if |st.rounds| + 1 > 1 {
      var verdict := gate.Evaluate();
      if verdict.blocked {
        return Ended(st, TurnEnd(Failed, BudgetRefusal(verdict.reason), false));
      }
    }
    var called, call := CallProvider(input, gateway, executors, gate, st);
    step := FinishRound(input, executors, called, call);
    ToolsLeaveNoTrace(input, called, call);
  }

  /** The tools of a round touch neither the gate's tally nor the gateway's log. */
  lemma ToolsLeaveNoTrace(input: TurnInput, called: TurnState, call: CallResult)
    requires called.rounds != []
    ensures var now := Reached(AfterReply(input, called, call));
            && now.requests == called.requests && now.spend == called.spend
            && now.reply == called.reply && now.reasoning == called.reasoning
            && |now.rounds| == |called.rounds|
  {
  }

  /** The report of a finished turn: the builder's, with the tool exchange as one more block
      that accounts for every character of it. */
  predicate Reported(input: TurnInput, last: TurnState, report: ContextReport) {
    if last.added <= 0 then report == input.report
    else
      && Extended(report, input.report, input.est, ToolResults, SumBy(ToolsOf, last.rounds), last.added)
      && SumBy(WireCharactersOf, report.blocks) == SumBy(WireCharactersOf, input.report.blocks) + last.added
  }

  method CloseReport(input: TurnInput, last: TurnState) returns (report: ContextReport)
    ensures Reported(input, last, report)
  {
    report := input.report;
    if last.added > 0 {
      var items := SumOfTools(last.rounds);
      report := AddToBlock(report, input.est, ToolResults, items, last.added);
    }
  }

  /** Where a turn ends that has just made this step. */
  function Eventually(input: TurnInput, step: StepResult): (r: StepResult)
    requires step.Continue? ==> |step.next.rounds| < MAX_TOOL_ROUNDS
    ensures r.Ended?
  {
    if step.Continue? then RunFrom(input, step.next) else step
  }

  lemma StepLeads(input: TurnInput, st: TurnState)
    requires |st.rounds| < MAX_TOOL_ROUNDS
    ensures var step := Step(input, st);
            && (step.Continue? ==> |st.rounds| < |step.next.rounds| < MAX_TOOL_ROUNDS)
            && Eventually(input, step) == RunFrom(input, st)
  {
  }

  /** The loop of `runTurn`, up to the state it ends in. */
  method DriveTurn(input: TurnInput, gateway: Gateway, executors: Executors, gate: TurnGate)
    returns (step: StepResult)
    requires Serves(input, gateway, executors, gate)
    requires gateway.sent == [] && executors.log == [] && gate.Spent() == NOTHING_SPENT
    modifies gateway, executors, gate
    ensures step == Run(input)
    ensures Tracks(gateway, executors, gate, step.last)
  {
    StepLeads(input, Begin(input));
    step := RunRound(input, gateway, executors, gate, Begin(input));
    while step.Continue?
      invariant step.Continue? ==> |step.next.rounds| < MAX_TOOL_ROUNDS
      invariant Eventually(input, step) == Run(input)
      invariant Tracks(gateway, executors, gate, Reached(step))
      decreases if step.Continue? then MAX_TOOL_ROUNDS - |step.next.rounds| else 0
    {
      StepLeads(input, step.next);
      step := RunRound(input, gateway, executors, gate, step.next);
    }
  }

  /** `runTurn`. The gateway is sent the lists of the state machine, the executors are invoked as
      it says, the gate ends holding what it says, and the result is the state it ends in, with
      the tool exchange added to the report as one block. */
  method RunTurn(input: TurnInput, gateway: Gateway, executors: Executors, gate: TurnGate)
    returns (result: TurnResult)
    requires Serves(input, gateway, executors, gate)
    requires gateway.sent == [] && executors.log == [] && gate.Spent() == NOTHING_SPENT
    modifies gateway, executors, gate
    ensures gateway.sent == Run(input).last.requests
    ensures executors.log == Run(input).last.served
    ensures gate.Spent() == Run(input).last.spend
    ensures var run := Run(input);
            result == TurnResult(run.last.reply, run.last.reasoning, run.end, result.report,
                                 run.last.rounds, run.last.records)
    ensures Reported(input, Run(input).last, result.report)
  {
    var step := DriveTurn(input, gateway, executors, gate);
    var last := step.last;
    var report := CloseReport(input, last);
    result := TurnResult(last.reply, last.reasoning, step.end, report, last.rounds, last.records);
  }

  method SumOfTools(rounds: seq<ProviderRound>) returns (items: int)
    ensures items == SumBy(ToolsOf, rounds)
  {
    items := 0;
    for i := 0 to |rounds|
      invariant items == SumBy(ToolsOf, rounds[..i])
    {
      assert rounds[..i + 1][..i] == rounds[..i];
      items := items + |rounds[i].tools|;
    }
    assert rounds[..|rounds|] == rounds;
  }
}
