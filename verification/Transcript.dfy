/** What the model is told, call by call, against what the audit records. */
module Transcript {
  import opened Sequences
  import opened Tools
  import opened ToolExecution
  import opened Receipts
  import opened Stream
  import opened Report
  import opened Turn
  import opened TurnProperties
  import opened TurnTheorems

  function OfRound(n: nat): PendingCall -> bool {
    (p: PendingCall) => p.round == n
  }

  function AnswerIn(p: PendingCall): ChatMessage { AnswerOf(p.outcome) }

  /** What the records of the first `n` rounds say the model has been told: after the built list,
      round by round, its own ask and the content of every outcome on record, in order. */
  function Told(input: TurnInput, n: nat, records: seq<PendingCall>): seq<ChatMessage> {
    if n == 0 then input.built
    else Told(input, n - 1, records) + [AskOf(input.provider(n - 1))] + Apply(AnswerIn, Keep(OfRound(n), records))
  }

  /** No record is of a later round. */
  predicate UpTo(n: nat, records: seq<PendingCall>) {
    records == [] || (records[|records| - 1].round <= n && UpTo(n, records[..|records| - 1]))
  }

  /** Every list sent is what the records say. */
  predicate AllTold(input: TurnInput, requests: seq<seq<ChatMessage>>, records: seq<PendingCall>) {
    requests == [] ||
    (AllTold(input, requests[..|requests| - 1], records)
     && requests[|requests| - 1] == Told(input, |requests| - 1, records))
  }

  lemma {:induction false} LaterUpTo(n: nat, records: seq<PendingCall>)
    requires UpTo(n, records)
    ensures UpTo(n + 1, records)
  {
    if records != [] {
      LaterUpTo(n, records[..|records| - 1]);
    }
  }

  lemma {:induction false} NoneOfLaterRound(n: nat, records: seq<PendingCall>)
    requires UpTo(n, records)
    ensures Keep(OfRound(n + 1), records) == []
  {
    if records != [] {
      NoneOfLaterRound(n, records[..|records| - 1]);
    }
  }

  lemma UpToGrows(n: nat, records: seq<PendingCall>, r: PendingCall)
    requires UpTo(n, records) && r.round <= n
    ensures UpTo(n, records + [r])
  {
    assert (records + [r])[..|records|] == records;
  }

  /** A later record changes nothing of what earlier rounds were told. */
  lemma {:induction false} LaterRecord(input: TurnInput, n: nat, records: seq<PendingCall>, r: PendingCall)
    requires r.round > n
    ensures Told(input, n, records + [r]) == Told(input, n, records)
  {
    if n > 0 {
      LaterRecord(input, n - 1, records, r);
      assert (records + [r])[..|records|] == records;
    }
  }

  lemma {:induction false} LaterRecordAll(input: TurnInput, requests: seq<seq<ChatMessage>>,
      records: seq<PendingCall>, r: PendingCall)
    requires AllTold(input, requests, records) && r.round >= |requests|
    ensures AllTold(input, requests, records + [r])
  {
    if requests != [] {
      LaterRecordAll(input, requests[..|requests| - 1], records, r);
      LaterRecord(input, |requests| - 1, records, r);
    }
  }

  /** One more outcome on record is one more answer on the wire. */
  lemma TellingGrows(input: TurnInput, n: nat, records: seq<PendingCall>, r: PendingCall)
    requires n > 0 && r.round == n
    ensures Told(input, n, records + [r]) == Told(input, n, records) + [AnswerIn(r)]
  {
    LaterRecord(input, n - 1, records, r);
    AnswersGrow(n, records, r);
    Appended(Told(input, n - 1, records) + [AskOf(input.provider(n - 1))],
             Apply(AnswerIn, Keep(OfRound(n), records)), [AnswerIn(r)]);
  }

  lemma AnswersGrow(n: nat, records: seq<PendingCall>, r: PendingCall)
    requires r.round == n
    ensures Apply(AnswerIn, Keep(OfRound(n), records + [r])) ==
            Apply(AnswerIn, Keep(OfRound(n), records)) + [AnswerIn(r)]
  {
    assert (records + [r])[..|records|] == records;
    ApplySnoc(AnswerIn, Keep(OfRound(n), records), r);
  }

  /** The records of a turn whose lists they tell, while the tools of round `n` run. */
  predicate Telling(input: TurnInput, n: nat, requests: seq<seq<ChatMessage>>, p: ToolPhase) {
    && n == |requests| > 0
    && UpTo(n, p.records) && AllTold(input, requests, p.records)
    && p.messages == Told(input, n, p.records)
  }

  lemma {:induction false} ToolsTell(input: TurnInput, n: nat, requests: seq<seq<ChatMessage>>, p: ToolPhase,
      calls: seq<ToolCall>)
    requires Telling(input, n, requests, p)
    ensures Telling(input, n, requests, RunTools(input, n, p, calls))
    decreases |calls|
  {
    if calls != [] {
      var r := PendingCall(n, Outcome(input.box, input.tools, calls[0], |p.served|));
      UpToGrows(n, p.records, r);
      LaterRecordAll(input, requests, p.records, r);
      TellingGrows(input, n, p.records, r);
      ToolsTell(input, n, requests, AfterTool(input, n, p, calls[0]), calls[1..]);
    }
  }

  lemma {:induction false} RefusalsTell(
      input: TurnInput, n: nat, requests: seq<seq<ChatMessage>>, records: seq<PendingCall>, calls: seq<ToolCall>,
      failure: ToolFailure)
    requires n == |requests| && AllTold(input, requests, records)
    ensures AllTold(input, requests, records + RefuseAll(input.box, n, calls, failure))
    decreases |calls|
  {
    if calls == [] {
      assert records + RefuseAll(input.box, n, calls, failure) == records;
    } else {
      var init, last := calls[..|calls| - 1], RefusalOf(input.box, n, calls[|calls| - 1], failure);
      RefusalsTell(input, n, requests, records, init, failure);
      LaterRecordAll(input, requests, records + RefuseAll(input.box, n, init, failure), last);
      OneMoreRefusal(input.box, n, calls, failure);
      Appended(records, RefuseAll(input.box, n, init, failure), [last]);
    }
  }

  /** A state between two calls: the lists sent, and the list to be sent, are what is on record. */
  predicate Recounted(input: TurnInput, requests: seq<seq<ChatMessage>>, messages: seq<ChatMessage>,
                      records: seq<PendingCall>)
  {
    && UpTo(|requests|, records) && AllTold(input, requests, records)
    && messages == Told(input, |requests|, records)
  }

  lemma SendingTells(input: TurnInput, requests: seq<seq<ChatMessage>>, messages: seq<ChatMessage>,
      records: seq<PendingCall>)
    requires Recounted(input, requests, messages, records)
    ensures AllTold(input, requests + [messages], records)
  {
    assert (requests + [messages])[..|requests|] == requests;
  }

  lemma EndTells(input: TurnInput, st: TurnState, last: TurnState, end: TurnEnd)
    requires |st.requests| == |st.rounds| && Recounted(input, st.requests, st.messages, st.records)
    requires Step(input, st) == Ended(last, end)
    ensures AllTold(input, last.requests, last.records)
  {
    EndShape(input, st, last, end);
    SendingTells(input, st.requests, st.messages, st.records);
    RefusingTells(input, CalledAt(input, st), input.provider(|st.rounds|), ToolFailure(RoundLimit, ROUND_LIMIT_TEXT));
    RefusingTells(input, CalledAt(input, st), input.provider(|st.rounds|), ToolFailure(TurnStopped, TURN_STOPPED_TEXT));
  }

  lemma RefusingTells(input: TurnInput, called: TurnState, call: CallResult, failure: ToolFailure)
    requires |called.requests| == |called.rounds| && AllTold(input, called.requests, called.records)
    ensures AllTold(input, called.requests, Refusing(input, called, call, failure).records)
  {
    RefusalsTell(input, |called.rounds|, called.requests, called.records, call.toolCalls, failure);
  }

  lemma ContinueTells(input: TurnInput, st: TurnState, next: TurnState)
    requires |st.requests| == |st.rounds| && Recounted(input, st.requests, st.messages, st.records)
    requires Step(input, st) == Continue(next)
    ensures |next.requests| == |next.rounds| < MAX_TOOL_ROUNDS
    ensures Recounted(input, next.requests, next.messages, next.records)
  {
    ContinueShape(input, st, next);
    var called, call := CalledAt(input, st), input.provider(|st.rounds|);
    var n := |called.rounds|;
    SendingTells(input, st.requests, st.messages, st.records);
    NoneOfLaterRound(n - 1, st.records);
    LaterUpTo(n - 1, st.records);
    assert Apply(AnswerIn, Keep(OfRound(n), st.records)) == [];
    assert Told(input, n, st.records) == st.messages + [AskOf(call)];
    ToolsTell(input, n, called.requests, PhaseOf(called, call), call.toolCalls);
  }

  lemma {:induction false} RunTells(input: TurnInput, st: TurnState)
    requires |st.rounds| < MAX_TOOL_ROUNDS
    requires |st.requests| == |st.rounds| && Recounted(input, st.requests, st.messages, st.records)
    ensures AllTold(input, RunFrom(input, st).last.requests, RunFrom(input, st).last.records)
    decreases MAX_TOOL_ROUNDS - |st.rounds|
  {
    match Step(input, st)
    case Ended(last, end) =>
      EndTells(input, st, last, end);
    case Continue(next) =>
      ContinueTells(input, st, next);
      RunTells(input, next);
  }

  lemma {:induction false} ToldAt(input: TurnInput, requests: seq<seq<ChatMessage>>, records: seq<PendingCall>, k: nat)
    requires AllTold(input, requests, records) && k < |requests|
    ensures requests[k] == Told(input, k, records)
    decreases |requests|
  {
    if k < |requests| - 1 {
      ToldAt(input, requests[..|requests| - 1], records, k);
    }
  }

  /** At every provider call the model is told what the audit recorded, and nothing else: the list
      sent is the built one followed, for each round before it, by the model's own ask and the
      content of every outcome recorded for that round, in order and under its call's id. */
  lemma ModelIsToldTheAudit(input: TurnInput, k: nat)
    requires k < |LastOf(input).requests|
    ensures LastOf(input).requests[k] == Told(input, k, LastOf(input).records)
  {
    RunTells(input, Begin(input));
    ToldAt(input, LastOf(input).requests, LastOf(input).records, k);
  }
}
