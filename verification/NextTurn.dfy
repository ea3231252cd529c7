/** A turn and the one after it: what a later turn and a resume are told of a turn, against what its
    executors really answered and what its model was told. */
module NextTurn {
  import opened Sequences
  import opened Tools
  import opened ToolExecution
  import opened Receipts
  import opened Accounting
  import opened Budget
  import opened Stream
  import opened Report
  import opened Turn
  import opened TurnProperties
  import opened TurnTheorems
  import opened Invocations
  import opened Transcript
  import Evidence
  import ExecutionRecord
  import Resume

  /** The rows a turn leaves behind. */
  function FiledRows(input: TurnInput, messageId: int, ids: nat -> int): seq<ToolCallRecord> {
    RowsOf(input.box.registry, messageId, ids, LastOf(input).records)
  }

  /** The calls of the turn that the model asked for on streams that ended cleanly. */
  function RequestedCalls(input: TurnInput): seq<ToolCall> {
    Apply(CallIn, RequestedIn(input, |LastOf(input).rounds|))
  }

  lemma {:induction false} RowsAreOfTheirMessage(
      registry: map<ToolName, ToolDefinition>, messageId: int, ids: nat -> int, calls: seq<PendingCall>)
    ensures Keep(ExecutionRecord.OfMessage(messageId), RowsOf(registry, messageId, ids, calls))
            == RowsOf(registry, messageId, ids, calls)
  {
    if calls != [] {
      var n := |calls| - 1;
      RowsAreOfTheirMessage(registry, messageId, ids, calls[..n]);
      var init := RowsOf(registry, messageId, ids, calls[..n]);
      assert RowsOf(registry, messageId, ids, calls)[..n] == init;
    }
  }

  /** Among the rows of other messages, those of one message are found again, all of them. */
  lemma RowsAreFoundAgain(messageId: int, before: seq<ToolCallRecord>, rows: seq<ToolCallRecord>,
      after: seq<ToolCallRecord>)
    requires Keep(ExecutionRecord.OfMessage(messageId), rows) == rows
    requires Keep(ExecutionRecord.OfMessage(messageId), before) == []
    requires Keep(ExecutionRecord.OfMessage(messageId), after) == []
    ensures Keep(ExecutionRecord.OfMessage(messageId), before + rows + after) == rows
  {
    KeepConcat(ExecutionRecord.OfMessage(messageId), before + rows, after);
    KeepConcat(ExecutionRecord.OfMessage(messageId), before, rows);
  }

  /** What a later turn's execution evidence says of a turn is true of its executors. Wherever that
      evidence carries the turn, its executed count is the number of executor invocations of
      capabilities that change data whose answer fits, its failed count the number of the other
      invocations of such, and its refused count every such call that was asked for and never
      run. */
  lemma EvidenceProvesExecution(
      input: TurnInput, messageId: int, ids: nat -> int, before: seq<ToolCallRecord>, after: seq<ToolCallRecord>,
      order: seq<int>, budget: int, t: ExecutionRecord.ExecutionTurn)
    requires Keep(ExecutionRecord.OfMessage(messageId), before) == []
    requires Keep(ExecutionRecord.OfMessage(messageId), after) == []
    requires t in ExecutionRecord.ExecutionOf(order, before + FiledRows(input, messageId, ids) + after, budget).turns
    requires t.messageId == messageId
    ensures var box, served := input.box, LastOf(input).served;
            var ran, done := WriteCount(box.registry, served), FitCount(box, served);
            && SumBy(ExecutionRecord.CountIf(Executed), t.entries) == done
            && SumBy(ExecutionRecord.CountIf(WriteFailed), t.entries) == ran - done
            && SumBy(ExecutionRecord.CountIf(Refused), t.entries)
               == WriteCount(box.registry, RequestedCalls(input)) - ran
  {
    var rows := FiledRows(input, messageId, ids);
    RowsAreOfTheirMessage(input.box.registry, messageId, ids, LastOf(input).records);
    RowsAreFoundAgain(messageId, before, rows, after);
    CarriedIsItsTurn(order, before + rows + after, budget, t);
    ExecutionRecord.TurnConservesItsReceipt(messageId, rows);
    ReceiptProvesExecution(input, messageId, ids);
    ExecutedMeansItFitted(input, messageId, ids);
  }

  /** A carried turn is the fold of its message's own records. */
  lemma CarriedIsItsTurn(order: seq<int>, records: seq<ToolCallRecord>, budget: int, t: ExecutionRecord.ExecutionTurn)
    requires t in ExecutionRecord.ExecutionOf(order, records, budget).turns
    ensures t == ExecutionRecord.TurnOf(t.messageId, Keep(ExecutionRecord.OfMessage(t.messageId), records))
  {
    var turns := ExecutionRecord.ExecutionOf(order, records, budget).turns;
    var all := Apply(ExecutionRecord.TurnFor(records), order);
    ExecutionRecord.CarriedExecution(order, records, budget);
    SubsequenceMembers(turns, all);
    var i :| 0 <= i < |all| && all[i] == t;
    assert t == ExecutionRecord.TurnFor(records)(order[i]);
  }

  /* ---- the resume ---- */

  /** A write is executed in its row exactly if it is done. */
  lemma StatusOfWrite(box: ToolBox, messageId: int, ids: nat -> int, records: seq<PendingCall>, i: nat)
    requires FromExecutors(box, records) && Recognised(records) && i < |records|
    ensures IsExecuted(WriteOf(RowsOf(box.registry, messageId, ids, records)[i])) <==> Done(box, records, i)
  {
    if DidRun(records[i]) {
      RecordAt(box, records, i);
      RowOfInvocation(box, messageId, ids(i), records[i], box.executors(PositionOf(records, i)));
    }
  }

  /** A row of a write is in the section its status puts it in, and in no other. */
  lemma SectionOfWrite(messageId: int, rows: seq<ToolCallRecord>, i: nat)
    requires i < |rows| && rows[i].effect.Write?
    ensures var writes, w := ReceiptOf(messageId, rows).writes, WriteOf(rows[i]);
            && (w in Keep(IsExecuted, writes) <==> IsExecuted(w))
            && (w in Keep(Resume.IsPending, writes) <==> !IsExecuted(w))
  {
    var writes, w := ReceiptOf(messageId, rows).writes, WriteOf(rows[i]);
    ReceiptIsItsList(messageId, rows);
    KeepSound(IsExecuted, writes);
    KeepSound(Resume.IsPending, writes);
    if IsExecuted(w) {
      KeptTwice(IsWrite, WriteOf, IsExecuted, rows, rows[i]);
    } else {
      KeptTwice(IsWrite, WriteOf, Resume.IsPending, rows, rows[i]);
    }
  }

  /** The two sections share out the writes of a receipt. */
  lemma SectionsAddUp(messageId: int, rows: seq<ToolCallRecord>)
    ensures var r := ReceiptOf(messageId, rows);
            && |Keep(IsExecuted, r.writes)| == r.executed
            && |Keep(IsExecuted, r.writes)| + |Keep(Resume.IsPending, r.writes)| == |r.writes|
  {
    var writes := ReceiptOf(messageId, rows).writes;
    ReceiptIsItsList(messageId, rows);
    Resume.KeepSplits(IsExecuted, Resume.IsPending, writes);
    InterleavesLength(writes, Keep(IsExecuted, writes), Keep(Resume.IsPending, writes));
  }

  /** What the resume block of a turn lists as done and as pending. A write is listed as done if and
      only if it ran and the answer of its own invocation fits, and as pending otherwise; so the
      done ones are as many as the invocations of such capabilities whose answer fits, and both
      together as many as were asked for. What an executor changed before giving back too much, or
      something that cannot be encoded, is listed as still to be done. */
  lemma ResumeListsWhatFitted(input: TurnInput, messageId: int, ids: nat -> int)
    ensures var box, records := input.box, LastOf(input).records;
            var rows, finish := FiledRows(input, messageId, ids), EndOf(input).finish;
            var receipt := ReceiptOf(messageId, rows);
            var done, pending := Keep(IsExecuted, receipt.writes), Keep(Resume.IsPending, receipt.writes);
            && Resume.RenderResumeBlock(Resume.ResumeContext(messageId, finish, receipt))
               == Resume.ResumeText(finish, done, pending)
            && |rows| == |records|
            && (forall i :: 0 <= i < |rows| && IsWriteCall(box.registry, CallOf(records[i])) ==>
                  && (WriteOf(rows[i]) in done <==> Done(box, records, i))
                  && (WriteOf(rows[i]) in pending <==> !Done(box, records, i)))
            && |done| == FitCount(box, LastOf(input).served)
            && |done| + |pending| == WriteCount(box.registry, RequestedCalls(input))
  {
    var records, rows := LastOf(input).records, FiledRows(input, messageId, ids);
    ReceiptProvesExecution(input, messageId, ids);
    ExecutedMeansItFitted(input, messageId, ids);
    SectionsAddUp(messageId, rows);
    RunAudited(input, Begin(input));
    RunFromExecutors(input, Begin(input));
    WritesAreSorted(input.box, messageId, ids, records);
  }

  lemma WritesAreSorted(box: ToolBox, messageId: int, ids: nat -> int, records: seq<PendingCall>)
    requires FromExecutors(box, records) && Recognised(records)
    ensures var rows := RowsOf(box.registry, messageId, ids, records);
            var writes := ReceiptOf(messageId, rows).writes;
            forall i :: 0 <= i < |rows| && IsWriteCall(box.registry, CallOf(records[i])) ==>
              && (WriteOf(rows[i]) in Keep(IsExecuted, writes) <==> Done(box, records, i))
              && (WriteOf(rows[i]) in Keep(Resume.IsPending, writes) <==> !Done(box, records, i))
  {
    var rows := RowsOf(box.registry, messageId, ids, records);
    var writes := ReceiptOf(messageId, rows).writes;
    forall i | 0 <= i < |rows| && IsWriteCall(box.registry, CallOf(records[i]))
      ensures WriteOf(rows[i]) in Keep(IsExecuted, writes) <==> Done(box, records, i)
      ensures WriteOf(rows[i]) in Keep(Resume.IsPending, writes) <==> !Done(box, records, i)
    {
      StatusOfWrite(box, messageId, ids, records, i);
      SectionOfWrite(messageId, rows, i);
    }
  }

  /** A turn that asks once for a capability that changes data and takes no arguments. The executor
      succeeds, naming what it touched, and gives back `out`; then the model answers. */
  function WritingOnce(base: TurnInput, def: ToolDefinition, out: string, ref: EffectRef): TurnInput {
    base.(gate := base.gate.(budget := Budget(None, None)),
          death := None,
          tools := [def],
          box := base.box.(registry := map[def.name := def],
                           blank := (raw: string) => raw == "",
                           executors := (n: nat) => ExecutorReply(Returned(Some(out), Some(ref)), false)),
          provider := (n: nat) => if n == 0 then JUST_OPENED.(toolCalls := [ToolCall("1", def.name, "")])
                                  else JUST_OPENED)
  }

  lemma TwoSteps(input: TurnInput, next: TurnState, last: TurnState, end: TurnEnd)
    requires Step(input, Begin(input)) == Continue(next) && |next.rounds| < MAX_TOOL_ROUNDS
    requires Step(input, next) == Ended(last, end)
    ensures Run(input) == Ended(last, end)
  {
    assert RunFrom(input, next) == Ended(last, end);
  }

  lemma WritingOnceRuns(base: TurnInput, def: ToolDefinition, out: string, ref: EffectRef)
    requires def.effect.Write? && def.schema == Schema(map[], [])
    ensures var input, call := WritingOnce(base, def, out, ref), ToolCall("1", def.name, "");
            && LastOf(input).served == [call]
            && LastOf(input).records == [PendingCall(1, Ran(input.box, call, input.box.executors(0)))]
  {
    var input, call := WritingOnce(base, def, out, ref), ToolCall("1", def.name, "");
    var called := CalledAt(input, Begin(input));
    var phase := PhaseOf(called, input.provider(0));
    assert [call][1..] == [];
    assert RunTools(input, 1, phase, [call]) == AfterTool(input, 1, phase, call);
    assert IsAuthorized([def], def.name) == Some(def);
    var next := Executing(input, called, input.provider(0));
    TwoSteps(input, next, CalledAt(input, next), TurnEnd(Stop, NoError, false));
  }

  /** The witness: a write that succeeded with too much to say is filed as failed, loses the identity
      of what it touched, and is the one thing the resume block lists as still pending. */
  lemma OversizedWriteIsPending(base: TurnInput, def: ToolDefinition, out: string, ref: EffectRef,
                                messageId: int, ids: nat -> int)
    requires def.effect.Write? && def.schema == Schema(map[], []) && |out| > MAX_TOOL_RESULT_BYTES
    ensures var input := WritingOnce(base, def, out, ref);
            var rows := FiledRows(input, messageId, ids);
            && |LastOf(input).served| == |rows| == 1
            && WriteOf(rows[0]) == WriteExecution(ids(0), def.name, WriteFailed, ExecutionFailed, None)
            && Keep(IsExecuted, ReceiptOf(messageId, rows).writes) == []
            && Keep(Resume.IsPending, ReceiptOf(messageId, rows).writes) == [WriteOf(rows[0])]
  {
    var input := WritingOnce(base, def, out, ref);
    var rows := FiledRows(input, messageId, ids);
    WritingOnceRuns(base, def, out, ref);
    assert rows[..0] == [];
    assert ReceiptOf(messageId, rows).writes == [WriteOf(rows[0])];
    assert [WriteOf(rows[0])][..0] == [];
  }

  /* ---- the evidence ---- */

  /** What was asked for was asked in one of the rounds counted. */
  lemma {:induction false} RequestedInRounds(input: TurnInput, n: nat)
    ensures forall i :: 0 <= i < |RequestedIn(input, n)| ==> 1 <= RequestedIn(input, n)[i].round <= n
  {
    if n > 0 {
      RequestedInRounds(input, n - 1);
    }
  }

  /** A recorded outcome of an earlier round is in the list the records say was told. */
  lemma {:induction false} OutcomeIsTold(input: TurnInput, n: nat, records: seq<PendingCall>, i: nat)
    requires i < |records| && 1 <= records[i].round <= n
    ensures AnswerIn(records[i]) in Told(input, n, records)
  {
    if records[i].round < n {
      OutcomeIsTold(input, n - 1, records, i);
    } else {
      KeepSound(OfRound(n), records);
      ApplyMember(AnswerIn, Keep(OfRound(n), records), records[i]);
    }
  }

  /** The result a row holds is the whole content the model was given. */
  lemma ResultIsContent(box: ToolBox, messageId: int, ids: nat -> int, records: seq<PendingCall>, i: nat)
    requires FromExecutors(box, records) && i < |records|
    ensures var row := RowsOf(box.registry, messageId, ids, records)[i];
            row.status.Ok? && !row.redacted ==> row.result == Some(AnswerIn(records[i]).content)
  {
    if DidRun(records[i]) {
      RecordAt(box, records, i);
    }
  }

  /** A usable row of a turn, against the lists the turn sent. */
  lemma RowWasTold(input: TurnInput, messageId: int, ids: nat -> int, i: nat)
    requires i < |LastOf(input).records|
    ensures var last, row := LastOf(input), FiledRows(input, messageId, ids)[i];
            && (row.status.Ok? && !row.redacted ==> row.result == Some(AnswerIn(last.records[i]).content))
            && forall k :: last.records[i].round <= k < |last.requests| ==>
                 AnswerIn(last.records[i]) in last.requests[k]
  {
    var last := LastOf(input);
    NoRequestedToolDisappears(input);
    RunAudited(input, Begin(input));
    RunFromExecutors(input, Begin(input));
    ResultIsContent(input.box, messageId, ids, last.records, i);
    RequestedInRounds(input, |last.rounds|);
    assert AskedOf(last.records[i]) == RequestedIn(input, |last.rounds|)[i];
    forall k | last.records[i].round <= k < |last.requests| ensures AnswerIn(last.records[i]) in last.requests[k] {
      ModelIsToldTheAudit(input, k);
      OutcomeIsTold(input, k, last.records, i);
    }
  }

  /** The item's text is the beginning of the content of the call's answer, whole but for the
      characters it says were cut, and that answer is in every list sent after the round of the call. */
  predicate WasTold(it: Evidence.EvidenceItem, p: PendingCall, requests: seq<seq<ChatMessage>>) {
    var answer := AnswerIn(p);
    && it.result <= answer.content
    && |it.result| + it.truncatedChars == |answer.content|
    && forall k :: p.round <= k < |requests| ==> answer in requests[k]
  }

  /** What a later turn's evidence carries of this turn is what this turn's model was told: every
      item is read off the newest usable record of its call, and wherever that record is one of the
      turn's rows, the item is what the model was told of that very call. */
  lemma EvidenceIsWhatTheModelWasTold(
      input: TurnInput, messageId: int, ids: nat -> int, before: seq<ToolCallRecord>, after: seq<ToolCallRecord>,
      budget: int, perItem: int, it: Evidence.EvidenceItem)
    requires it in Evidence.EvidenceOf(before + FiledRows(input, messageId, ids) + after, budget, perItem).items
    ensures var last, rows := LastOf(input), FiledRows(input, messageId, ids);
            var all := before + rows + after;
            && |rows| == |last.records|
            && exists r :: r in all && Evidence.LastOf(all, Evidence.KeyOf(r)) == Some(r)
                 && it.tool == r.tool && it.arguments == Evidence.ArgumentsOf(r)
                 && forall i :: 0 <= i < |rows| && rows[i] == r ==> WasTold(it, last.records[i], last.requests)
  {
    var last, rows := LastOf(input), FiledRows(input, messageId, ids);
    var all := before + rows + after;
    Evidence.CarriedItemHasARecord(all, budget, perItem, it);
    var r :| r in all && Evidence.LastOf(all, Evidence.KeyOf(r)) == Some(r)
             && r.status.Ok? && !r.redacted && r.result.Some?
             && it.tool == r.tool && it.arguments == Evidence.ArgumentsOf(r)
             && it.result <= r.result.value && |it.result| + it.truncatedChars == |r.result.value|;
    forall i | 0 <= i < |rows| && rows[i] == r ensures WasTold(it, last.records[i], last.requests) {
      RowWasTold(input, messageId, ids, i);
    }
  }
}
