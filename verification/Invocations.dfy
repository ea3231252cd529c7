/** Which invocation of the executors a record stands for, and which writes therefore count as
    done. */
module Invocations {
  import opened Sequences
  import opened Tools
  import opened ToolExecution
  import opened Receipts
  import opened Turn
  import opened TurnProperties
  import opened TurnTheorems

  /** The executor succeeded, and what it gave back could be encoded and kept. */
  predicate Fits(reply: ExecutorReply) {
    && reply.answer.Returned?
    && reply.answer.encoded.Some?
    && |reply.answer.encoded.value| <= MAX_TOOL_RESULT_BYTES
  }

  /** How many of the invocations were of capabilities that change data and were answered with
      something that fits. The n-th invocation has the n-th answer. */
  function FitCount(box: ToolBox, served: seq<ToolCall>): nat {
    if served == [] then 0
    else
      var n := |served| - 1;
      FitCount(box, served[..n]) + (if IsWriteCall(box.registry, served[n]) && Fits(box.executors(n)) then 1 else 0)
  }

  /** The position of a record's invocation, if it has one: after those of the records before it. */
  function PositionOf(records: seq<PendingCall>, i: nat): nat
    requires i <= |records|
  {
    |RanOf(records[..i])|
  }

  /** Every record that ran holds what its own invocation answered. */
  predicate FromExecutors(box: ToolBox, records: seq<PendingCall>) {
    records == [] ||
    (var init, last := records[..|records| - 1], records[|records| - 1];
     && FromExecutors(box, init)
     && (DidRun(last) ==> last.outcome == Ran(box, CallOf(last), box.executors(|RanOf(init)|))))
  }

  /** The call ran, and the answer of its own invocation fits. */
  predicate Done(box: ToolBox, records: seq<PendingCall>, i: nat)
    requires i < |records|
  {
    DidRun(records[i]) && Fits(box.executors(PositionOf(records, i)))
  }

  lemma RecordFromExecutors(box: ToolBox, records: seq<PendingCall>, r: PendingCall)
    requires FromExecutors(box, records)
    requires DidRun(r) ==> r.outcome == Ran(box, CallOf(r), box.executors(|RanOf(records)|))
    ensures FromExecutors(box, records + [r])
  {
    assert (records + [r])[..|records|] == records;
  }

  lemma {:induction false} ToolsFromExecutors(input: TurnInput, round: nat, p: ToolPhase, calls: seq<ToolCall>)
    requires Faithful(p.records, p.served) && FromExecutors(input.box, p.records)
    ensures FromExecutors(input.box, RunTools(input, round, p, calls).records)
    decreases |calls|
  {
    if calls != [] {
      var r := PendingCall(round, Outcome(input.box, input.tools, calls[0], |p.served|));
      OutcomeMeaning(input.box, input.tools, calls[0], |p.served|);
      RecordFromExecutors(input.box, p.records, r);
      RecordAppended(p.records, r);
      assert (p.records + [r])[..|p.records|] == p.records;
      ToolsFromExecutors(input, round, AfterTool(input, round, p, calls[0]), calls[1..]);
    }
  }

  lemma {:induction false} RefusalsFromExecutors(
      box: ToolBox, round: nat, records: seq<PendingCall>, calls: seq<ToolCall>, failure: ToolFailure)
    requires FromExecutors(box, records)
    ensures FromExecutors(box, records + RefuseAll(box, round, calls, failure))
    decreases |calls|
  {
    if calls == [] {
      assert records + RefuseAll(box, round, calls, failure) == records;
    } else {
      var init, last := calls[..|calls| - 1], RefusalOf(box, round, calls[|calls| - 1], failure);
      RefusalsFromExecutors(box, round, records, init, failure);
      RecordFromExecutors(box, records + RefuseAll(box, round, init, failure), last);
      OneMoreRefusal(box, round, calls, failure);
      Appended(records, RefuseAll(box, round, init, failure), [last]);
    }
  }

  lemma EndFromExecutors(input: TurnInput, st: TurnState, last: TurnState, end: TurnEnd)
    requires FromExecutors(input.box, st.records) && Step(input, st) == Ended(last, end)
    ensures FromExecutors(input.box, last.records)
  {
    EndShape(input, st, last, end);
    var calls := input.provider(|st.rounds|).toolCalls;
    RefusalsFromExecutors(input.box, |st.rounds| + 1, st.records, calls, ToolFailure(RoundLimit, ROUND_LIMIT_TEXT));
    RefusalsFromExecutors(input.box, |st.rounds| + 1, st.records, calls, ToolFailure(TurnStopped, TURN_STOPPED_TEXT));
  }

  lemma {:induction false} RunFromExecutors(input: TurnInput, st: TurnState)
    requires |st.rounds| < MAX_TOOL_ROUNDS && FromExecutors(input.box, st.records)
    requires Audited(input, |st.rounds|, st.records, st.served)
    ensures FromExecutors(input.box, RunFrom(input, st).last.records)
    decreases MAX_TOOL_ROUNDS - |st.rounds|
  {
    match Step(input, st)
    case Ended(last, end) =>
      EndFromExecutors(input, st, last, end);
    case Continue(next) =>
      ContinueShape(input, st, next);
      ContinueAudited(input, st, next);
      var called, call := CalledAt(input, st), input.provider(|st.rounds|);
      ToolsFromExecutors(input, |called.rounds|, PhaseOf(called, call), call.toolCalls);
      RunFromExecutors(input, next);
  }

  /** A record that ran against the log: its position holds its call, and the answer given there is
      the one it keeps. */
  lemma {:induction false} RecordAt(box: ToolBox, records: seq<PendingCall>, i: nat)
    requires FromExecutors(box, records) && i < |records| && DidRun(records[i])
    ensures var n, c := PositionOf(records, i), CallOf(records[i]);
            && n < |RanOf(records)| && RanOf(records)[n] == c
            && records[i].outcome == Ran(box, c, box.executors(n))
    decreases |records|
  {
    var init := records[..|records| - 1];
    if i < |init| {
      RecordAt(box, init, i);
      assert init[..i] == records[..i];
    }
  }

  lemma FitCountGrows(box: ToolBox, served: seq<ToolCall>, call: ToolCall)
    ensures FitCount(box, served + [call]) ==
            FitCount(box, served)
            + (if IsWriteCall(box.registry, call) && Fits(box.executors(|served|)) then 1 else 0)
  {
    assert (served + [call])[..|served|] == served;
  }

  /** The row of a record that ran: which of the two statuses it is given, and whether it keeps the
      identity its executor reported. */
  lemma RowOfInvocation(box: ToolBox, messageId: int, id: int, c: PendingCall, reply: ExecutorReply)
    requires DidRun(c) && c.outcome == Ran(box, CallOf(c), reply)
    ensures var w := WriteOf(RecordOf(box.registry, messageId, id, c));
            && w.status == (if Fits(reply) then Executed else WriteFailed)
            && w.ref == (if Fits(reply) then ValidRef(reply.answer.reported) else None)
  {
  }

  /** One more row in a receipt is one more executed write exactly if it ran and its answer fits. */
  lemma OneMoreFit(box: ToolBox, messageId: int, id: int, c: PendingCall, reply: ExecutorReply, r: WriteReceipt)
    requires DidRun(c) ==> c.outcome == Ran(box, CallOf(c), reply)
    ensures AddRecord(r, RecordOf(box.registry, messageId, id, c)).executed ==
            r.executed + (if DidRun(c) && IsWriteCall(box.registry, CallOf(c)) && Fits(reply) then 1 else 0)
  {
    if DidRun(c) {
      RowOfInvocation(box, messageId, id, c, reply);
    }
  }

  lemma {:induction false} ReceiptCountsFits(box: ToolBox, messageId: int, ids: nat -> int, records: seq<PendingCall>)
    requires FromExecutors(box, records)
    ensures ReceiptOf(messageId, RowsOf(box.registry, messageId, ids, records)).executed
            == FitCount(box, RanOf(records))
  {
    if records != [] {
      var n := |records| - 1;
      var init, last := records[..n], records[n];
      ReceiptCountsFits(box, messageId, ids, init);
      LastRow(box.registry, messageId, ids, records);
      OneMoreFit(box, messageId, ids(n), last, box.executors(|RanOf(init)|),
                 ReceiptOf(messageId, RowsOf(box.registry, messageId, ids, init)));
      FitCountGrows(box, RanOf(init), CallOf(last));
    }
  }

  /** Which writes count as done, over every run. A receipt's executed count is the number of
      executor invocations of capabilities that change data whose answer fits, and its failed count
      the number of the others. */
  lemma ExecutedMeansItFitted(input: TurnInput, messageId: int, ids: nat -> int)
    ensures var box, served := input.box, LastOf(input).served;
            var r := ReceiptOf(messageId, RowsOf(box.registry, messageId, ids, LastOf(input).records));
            && r.executed == FitCount(box, served)
            && r.failed == WriteCount(box.registry, served) - FitCount(box, served)
  {
    RunAudited(input, Begin(input));
    RunFromExecutors(input, Begin(input));
    ReceiptCountsFits(input.box, messageId, ids, LastOf(input).records);
    ReceiptProvesExecution(input, messageId, ids);
  }

  /** The same call by call. A record that ran stands for one invocation of its own call on the
      log; it is filed as executed if and only if the answer of that invocation fits, and as failed
      otherwise, whatever the executor had changed by then; and only a fitting answer keeps the
      identity the executor reported. */
  lemma WriteIsDoneIffItsAnswerFits(input: TurnInput, messageId: int, ids: nat -> int, i: nat)
    requires i < |LastOf(input).records| && DidRun(LastOf(input).records[i])
    ensures var records, served := LastOf(input).records, LastOf(input).served;
            var n := PositionOf(records, i);
            var w := WriteOf(RowsOf(input.box.registry, messageId, ids, records)[i]);
            var reply := input.box.executors(n);
            && n < |served| && served[n] == CallOf(records[i])
            && w.status == (if Fits(reply) then Executed else WriteFailed)
            && w.ref == (if Fits(reply) then ValidRef(reply.answer.reported) else None)
  {
    var records := LastOf(input).records;
    RunAudited(input, Begin(input));
    RunFromExecutors(input, Begin(input));
    RecordAt(input.box, records, i);
    RowOfInvocation(input.box, messageId, ids(i), records[i], input.box.executors(PositionOf(records, i)));
  }
}
