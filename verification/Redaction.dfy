/** What redaction cannot change. Marking a capability confidential, or storing other payloads,
    leaves no trace in what a turn does, in its receipts, in the execution record or in a resume:
    only the replay of payloads sees it. */
module Redaction {
  import opened Sequences
  import opened Tools
  import opened ToolExecution
  import opened Receipts
  import opened Turn
  import opened Stream
  import TurnTheorems
  import Evidence
  import ExecutionRecord
  import Resume
  import Accounting

  /* ---- on stored records ---- */

  /** A record with everything a payload could hide in taken out. */
  function Bare(r: ToolCallRecord): ToolCallRecord {
    r.(arguments := None, result := None, errorMessage := "", redacted := false)
  }

  /** The same calls with the same outcomes, whatever they were asked and whatever they returned. */
  predicate SameButPayload(a: seq<ToolCallRecord>, b: seq<ToolCallRecord>) {
    Apply(Bare, a) == Apply(Bare, b)
  }

  lemma {:induction false} ReceiptIgnoresPayload(messageId: int, records: seq<ToolCallRecord>)
    ensures ReceiptOf(messageId, Apply(Bare, records)) == ReceiptOf(messageId, records)
  {
    if records != [] {
      var init, last := records[..|records| - 1], records[|records| - 1];
      ReceiptIgnoresPayload(messageId, init);
      assert Apply(Bare, records)[..|records| - 1] == Apply(Bare, init);
      assert WriteOf(Bare(last)) == WriteOf(last);
    }
  }

  lemma {:induction false} ReadingsIgnorePayload(records: seq<ToolCallRecord>)
    ensures ReadingsOf(Apply(Bare, records)) == ReadingsOf(records)
  {
    KeepOfReadings(Bare, records, IsExternal, IsExternal);
    SameImages(ReadOf, Bare, Keep(IsExternal, records));
  }

  lemma {:induction false} SameImages<S, T>(f: S -> T, g: S -> S, s: seq<S>)
    requires forall x :: x in s ==> f(g(x)) == f(x)
    ensures Apply(f, Apply(g, s)) == Apply(f, s)
  {
    if s != [] {
      SameImages(f, g, s[..|s| - 1]);
      assert Apply(g, s)[..|s| - 1] == Apply(g, s[..|s| - 1]);
      assert s[|s| - 1] in s;
    }
  }

  lemma TurnIgnoresPayload(records: seq<ToolCallRecord>, id: int)
    ensures ExecutionRecord.TurnFor(Apply(Bare, records))(id) == ExecutionRecord.TurnFor(records)(id)
  {
    KeepOfReadings(Bare, records, ExecutionRecord.OfMessage(id), ExecutionRecord.OfMessage(id));
    ReceiptIgnoresPayload(id, Keep(ExecutionRecord.OfMessage(id), records));
  }

  lemma {:induction false} TurnsIgnorePayload(order: seq<int>, records: seq<ToolCallRecord>)
    ensures Apply(ExecutionRecord.TurnFor(Apply(Bare, records)), order) ==
            Apply(ExecutionRecord.TurnFor(records), order)
  {
    if order != [] {
      TurnsIgnorePayload(order[..|order| - 1], records);
      TurnIgnoresPayload(records, order[|order| - 1]);
    }
  }

  /** Records that differ only in their payloads, or in whether those were withheld, give the same
      write receipt, the same read receipt, the same execution record and the same resume block. */
  lemma PayloadIsInvisible(a: seq<ToolCallRecord>, b: seq<ToolCallRecord>, messageId: int, available: bool,
                           order: seq<int>, budget: int, reason: Accounting.FinishReason)
    requires SameButPayload(a, b)
    ensures ReceiptOf(messageId, a) == ReceiptOf(messageId, b)
    ensures ReadReceiptOf(messageId, available, a) == ReadReceiptOf(messageId, available, b)
    ensures ExecutionRecord.ExecutionOf(order, a, budget) == ExecutionRecord.ExecutionOf(order, b, budget)
    ensures Resume.RenderResumeBlock(Resume.ResumeContext(messageId, reason, ReceiptOf(messageId, a))) ==
            Resume.RenderResumeBlock(Resume.ResumeContext(messageId, reason, ReceiptOf(messageId, b)))
  {
    ReceiptIgnoresPayload(messageId, a);
    ReceiptIgnoresPayload(messageId, b);
    ReadingsIgnorePayload(a);
    ReadingsIgnorePayload(b);
    TurnsIgnorePayload(order, a);
    TurnsIgnorePayload(order, b);
  }

  /** A redacted record is never among what a later turn carries. */
  lemma RedactedIsNeverCarried(records: seq<ToolCallRecord>, budget: int, perItem: int, r: ToolCallRecord)
    requires r.redacted
    ensures r !in Evidence.Newest(records)
  {
    Evidence.CandidatesAreNewest(records, r);
    if Evidence.LastOf(records, Evidence.KeyOf(r)).Some? {
      Evidence.LastHasKey(records, Evidence.KeyOf(r));
    }
  }

  /* ---- on whole turns ---- */

  /** The same capability but for whether its payloads may be kept. */
  predicate SameTool(a: ToolDefinition, b: ToolDefinition) {
    b == a.(confidential := b.confidential)
  }

  predicate SameTools(a: seq<ToolDefinition>, b: seq<ToolDefinition>) {
    |a| == |b| && forall i :: 0 <= i < |a| ==> SameTool(a[i], b[i])
  }

  predicate SameRegistry(a: map<ToolName, ToolDefinition>, b: map<ToolName, ToolDefinition>) {
    a.Keys == b.Keys && forall n :: n in a ==> SameTool(a[n], b[n])
  }

  /** Two turns that are given the same everything, but for which capabilities are confidential. */
  ghost predicate Twins(a: TurnInput, b: TurnInput) {
    && b == a.(tools := b.tools, box := a.box.(registry := b.box.registry))
    && SameTools(a.tools, b.tools) && SameRegistry(a.box.registry, b.box.registry)
  }

  lemma {:induction false} SameAuthorization(a: seq<ToolDefinition>, b: seq<ToolDefinition>, name: ToolName)
    requires SameTools(a, b)
    ensures var x, y := IsAuthorized(a, name), IsAuthorized(b, name);
            (x.None? <==> y.None?) && (x.Some? ==> SameTool(x.value, y.value))
  {
    if a != [] {
      assert SameTool(a[0], b[0]);
      forall i | 0 <= i < |a[1..]| ensures SameTool(a[1..][i], b[1..][i]) {
        assert SameTool(a[i + 1], b[i + 1]);
      }
      SameAuthorization(a[1..], b[1..], name);
    }
  }

  lemma SameGates(a: TurnInput, b: TurnInput, call: ToolCall)
    requires Twins(a, b)
    ensures GateFailure(a.box, a.tools, call) == GateFailure(b.box, b.tools, call)
  {
    SameAuthorization(a.tools, b.tools, call.name);
  }

  lemma SameRun(a: ToolBox, b: ToolBox, call: ToolCall, reply: ExecutorReply)
    requires a.encodeFailure == b.encodeFailure
    ensures Ran(a, call, reply) == Ran(b, call, reply)
  {
  }

  lemma SameOutcome(a: TurnInput, b: TurnInput, call: ToolCall, served: nat)
    requires Twins(a, b)
    ensures Outcome(a.box, a.tools, call, served) == Outcome(b.box, b.tools, call, served)
    ensures ReachesExecutor(a.box, a.tools, call) <==> ReachesExecutor(b.box, b.tools, call)
  {
    SameGates(a, b, call);
    SameRun(a.box, b.box, call, a.box.executors(served));
  }

  lemma {:induction false} SameToolPhase(a: TurnInput, b: TurnInput, round: nat, p: ToolPhase, calls: seq<ToolCall>)
    requires Twins(a, b)
    ensures RunTools(a, round, p, calls) == RunTools(b, round, p, calls)
    decreases |calls|
  {
    if calls != [] {
      SameOutcome(a, b, calls[0], |p.served|);
      var next := AfterTool(a, round, p, calls[0]);
      assert next == AfterTool(b, round, p, calls[0]);
      SameToolPhase(a, b, round, next, calls[1..]);
    }
  }

  lemma SameRefusals(a: TurnInput, b: TurnInput, called: TurnState, call: CallResult, failure: ToolFailure)
    requires Twins(a, b)
    ensures Refusing(a, called, call, failure) == Refusing(b, called, call, failure)
  {
    assert RefuseAll(a.box, |called.rounds|, call.toolCalls, failure)
        == RefuseAll(b.box, |called.rounds|, call.toolCalls, failure);
  }

  lemma SameReply(a: TurnInput, b: TurnInput, called: TurnState, call: CallResult)
    requires Twins(a, b) && called.rounds != []
    ensures AfterReply(a, called, call) == AfterReply(b, called, call)
  {
    SameToolPhase(a, b, |called.rounds|, PhaseOf(called, call), call.toolCalls);
    SameRefusals(a, b, called, call, ToolFailure(RoundLimit, ROUND_LIMIT_TEXT));
    SameRefusals(a, b, called, call, ToolFailure(TurnStopped, TURN_STOPPED_TEXT));
  }

  lemma SameStep(a: TurnInput, b: TurnInput, st: TurnState)
    requires Twins(a, b)
    ensures Step(a, st) == Step(b, st)
  {
    var call := a.provider(|st.rounds|);
    SameReply(a, b, AfterProvider(a, st, call), call);
  }

  lemma {:induction false} SameRunFrom(a: TurnInput, b: TurnInput, st: TurnState)
    requires Twins(a, b) && |st.rounds| < MAX_TOOL_ROUNDS
    ensures RunFrom(a, st) == RunFrom(b, st)
    decreases MAX_TOOL_ROUNDS - |st.rounds|
  {
    SameStep(a, b, st);
    match Step(a, st)
    case Ended(last, end) =>
    case Continue(next) => SameRunFrom(a, b, next);
  }

  lemma SameRow(a: map<ToolName, ToolDefinition>, b: map<ToolName, ToolDefinition>, messageId: int, id: int,
      c: PendingCall)
    requires SameRegistry(a, b)
    ensures Bare(RecordOf(a, messageId, id, c)) == Bare(RecordOf(b, messageId, id, c))
  {
    if c.outcome.call.name in a {
      assert SameTool(a[c.outcome.call.name], b[c.outcome.call.name]);
    }
  }

  /** Confidentiality changes nothing a turn does. Twin turns run the same rounds, execute the same
      calls and end the same way, and the rows they file are the same but for the payloads. */
  lemma ConfidentialityIsInvisible(a: TurnInput, b: TurnInput, messageId: int, ids: nat -> int)
    requires Twins(a, b)
    ensures Run(a) == Run(b)
    ensures SameButPayload(TurnTheorems.RowsOf(a.box.registry, messageId, ids, Run(a).last.records),
                           TurnTheorems.RowsOf(b.box.registry, messageId, ids, Run(b).last.records))
  {
    SameRunFrom(a, b, Begin(a));
    var calls := Run(a).last.records;
    var x := TurnTheorems.RowsOf(a.box.registry, messageId, ids, calls);
    var y := TurnTheorems.RowsOf(b.box.registry, messageId, ids, calls);
    assert |x| == |y|;
    forall i | 0 <= i < |x| ensures Bare(x[i]) == Bare(y[i]) {
      SameRow(a.box.registry, b.box.registry, messageId, ids(i), calls[i]);
    }
  }

  /** And a confidential capability's row holds no payload at all. */
  lemma ConfidentialRowsAreEmpty(registry: map<ToolName, ToolDefinition>, messageId: int, id: int, c: PendingCall)
    requires c.outcome.call.name in registry
    ensures var r := RecordOf(registry, messageId, id, c);
            && (r.redacted <==> registry[c.outcome.call.name].confidential)
            && (r.redacted ==> r.arguments.None? && r.result.None?)
            && (!r.redacted ==> r.arguments.Some? && r.result == c.outcome.result)
  {
  }
}
