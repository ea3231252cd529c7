/** How a turn is stored as having ended, over every run: which finish, for which last call, and what
    becomes of a context that dies on the way. */
module TurnEndings {
  import opened Sequences
  import opened Tools
  import opened Accounting
  import opened Budget
  import opened Stream
  import opened Turn
  import opened TurnProperties
  import opened TurnTheorems

  /* ---- which finish is stored ---- */

  /** The exact condition of every finish a resume or a reader asks about, over every run, in terms
      of what the last call produced, how many calls there were and whether the context was over
      after it. */
  lemma StoredFinishIff(input: TurnInput)
    ensures var n := |LastOf(input).rounds|;
            && 1 <= n <= MAX_TOOL_ROUNDS
            && FinishIs(EndOf(input).finish, n, input.provider(n - 1), CauseAt(input.death, Checking(n - 1)))
  {
    RunTerminal(input, Begin(input));
  }

  /** The witness: one call whose gateway says `tool_round_limit` is stored with the runtime's own
      word for its ceiling, after one call and without an error. */
  lemma GatewaySaysRoundLimit(input: TurnInput)
    requires input.provider(0) ==
             ReadReply(Streaming([StreamEvent(None, ToolRoundLimit, [], "", "", None, None)], Drained))
    ensures |LastOf(input).rounds| == 1
    ensures EndOf(input) == TurnEnd(ToolRoundLimit, NoError, false)
  {
    var event := StreamEvent(None, ToolRoundLimit, [], "", "", None, None);
    assert [event][1..] == [];
    assert Pull(JUST_OPENED, [event], Drained) == Pull(Absorb(JUST_OPENED, event), [], Drained);
  }

  /* ---- a context that dies ---- */

  /** What a call owes to its context: it does not open in one that is over, and what stops it is
      either a reader gone from a living context or what ended the context while it was read. */
  predicate Honoured(death: Option<Death>, n: nat, call: CallResult) {
    && (CauseAt(death, Opening(n)).Some? ==> call.ending.NeverOpened?)
    && (call.ending.Stopped? ==>
          call.ending.cause.Cancelled? || CauseAt(death, Reading(n)) == Some(call.ending.cause))
  }

  ghost predicate Honours(input: TurnInput) {
    forall n: nat :: Honoured(input.death, n, input.provider(n))
  }

  predicate CauseHonoured(death: Option<Death>, n: nat, cause: StopCause) {
    cause.Cancelled? || CauseAt(death, Reading(n)) == Some(cause)
  }

  predicate FrameHonoured(death: Option<Death>, n: nat, ev: StreamEvent) {
    && (ev.reasoningSink.Some? ==> CauseHonoured(death, n, ev.reasoningSink.value))
    && (ev.deltaSink.Some? ==> CauseHonoured(death, n, ev.deltaSink.value))
  }

  /** The same for a gateway's answer: a dead context opens nothing, and every cause a frame or a
      read error names is the context's own. */
  predicate ReplyHonoured(death: Option<Death>, n: nat, reply: ProviderReply) {
    reply.Streaming? ==>
      && CauseAt(death, Opening(n)).None?
      && (forall i :: 0 <= i < |reply.events| ==> FrameHonoured(death, n, reply.events[i]))
      && (reply.end.ContextGone? ==> CauseAt(death, Reading(n)) == Some(reply.end.cause))
  }

  lemma {:induction false} PullHonoured(death: Option<Death>, n: nat, acc: CallResult, events: seq<StreamEvent>,
      end: StreamEnd)
    requires acc.ending.Complete? && (forall i :: 0 <= i < |events| ==> FrameHonoured(death, n, events[i]))
    requires end.ContextGone? ==> CauseAt(death, Reading(n)) == Some(end.cause)
    ensures var ending := Pull(acc, events, end).ending;
            !ending.NeverOpened? && (ending.Stopped? ==> CauseHonoured(death, n, ending.cause))
    decreases |events|
  {
    if events != [] {
      assert FrameHonoured(death, n, events[0]);
      PullHonoured(death, n, Absorb(acc, events[0]).(ending := Complete), events[1..], end);
    }
  }

  /** A gateway that honours the context makes calls that do. */
  lemma CallHonoured(death: Option<Death>, n: nat, reply: ProviderReply)
    requires ReplyHonoured(death, n, reply)
    ensures Honoured(death, n, ReadReply(reply))
  {
    if reply.Streaming? {
      PullHonoured(death, n, JUST_OPENED, reply.events, reply.end);
    }
  }

  /** The round an instant falls in. */
  function RoundAt(instant: nat): nat { instant / 4 }

  /** Something in round `k`, in which the context dies, names the end of the turn: the stream being
      read, be it a reader who left or the context's own end; the look at the context before the
      tools; or a gateway that says one of the two words of a finished answer. */
  predicate NamedInRound(input: TurnInput, k: nat)
    requires input.death.Some?
  {
    var call := input.provider(k);
    || call.ending.Stopped?
    || (Asks(call) && k + 1 < MAX_TOOL_ROUNDS && input.death.value.at <= Checking(k))
    || (Answers(call) && (call.finish.Deadline? || call.finish.Aborted?))
  }

  /** A turn whose context dies in a round it reaches. It makes no further call unless its tools
      were already running, and then at most one, which does not open. It is stored as `deadline`
      or `aborted` if and only if something in the round of the death names the end. */
  lemma DeathIsNamedIffSeen(input: TurnInput)
    requires Honours(input) && input.death.Some?
    requires RoundAt(input.death.value.at) < |LastOf(input).rounds|
    ensures var n, k, finish := |LastOf(input).rounds|, RoundAt(input.death.value.at), EndOf(input).finish;
            && k + 1 <= n <= k + 2
            && (n == k + 2 ==> input.death.value.at == RunningTools(k) && input.provider(n - 1).ending.NeverOpened?)
            && (finish.Deadline? || finish.Aborted? <==> NamedInRound(input, k))
  {
    RunTerminal(input, Begin(input));
    DeathEndsTheTurn(input, LastOf(input), EndOf(input));
  }

  lemma DeathEndsTheTurn(input: TurnInput, last: TurnState, end: TurnEnd)
    requires Honours(input) && Terminal(input, last, end)
    requires input.death.Some? && RoundAt(input.death.value.at) < |last.rounds|
    ensures var n, k := |last.rounds|, RoundAt(input.death.value.at);
            && n <= k + 2
            && (n == k + 2 ==> input.death.value.at == RunningTools(k) && input.provider(n - 1).ending.NeverOpened?)
            && (end.finish.Deadline? || end.finish.Aborted? <==> NamedInRound(input, k))
  {
    var n, k := |last.rounds|, RoundAt(input.death.value.at);
    EarlierAlive(input, last, end);
    if n > k + 1 {
      assert Honoured(input.death, k + 1, input.provider(k + 1));
      assert input.provider(k + 1).ending.NeverOpened?;
    }
  }

  /** Every call but the last was clean, asked for tools, and found the context alive after it. */
  lemma EarlierAlive(input: TurnInput, last: TurnState, end: TurnEnd)
    requires Terminal(input, last, end)
    ensures forall k :: 0 <= k < |last.rounds| - 1 ==>
              Asks(input.provider(k)) && CauseAt(input.death, Checking(k)).None?
  {
    forall k | 0 <= k < |last.rounds| - 1
      ensures Asks(input.provider(k)) && CauseAt(input.death, Checking(k)).None?
    {
      if end.error.BudgetRefusal? {
        AnsweredAt(input, last.rounds, k);
      } else {
        AnsweredAt(input, last.rounds[..|last.rounds| - 1], k);
      }
    }
  }

  /** The complementary case. A context that dies once a round's tools are running is named by
      nobody: whatever ended it, the turn is stored as an error, because the budget refuses the next
      call or because that call does not open. */
  lemma DeathDuringToolsIsAnError(input: TurnInput, k: nat)
    requires Honours(input) && input.death.Some? && Checking(k) < input.death.value.at <= Opening(k + 1)
    requires k < |LastOf(input).rounds| && Asks(input.provider(k)) && k + 1 < MAX_TOOL_ROUNDS
    ensures var n, end := |LastOf(input).rounds|, EndOf(input);
            && end.finish.Failed?
            && (end.error.BudgetRefusal? || end.error.OpenError?)
            && n == (if end.error.BudgetRefusal? then k + 1 else k + 2)
  {
    RunTerminal(input, Begin(input));
    DeathIsUnnamed(input, LastOf(input), EndOf(input), k);
  }

  lemma DeathIsUnnamed(input: TurnInput, last: TurnState, end: TurnEnd, k: nat)
    requires Honours(input) && Terminal(input, last, end)
    requires input.death.Some? && Checking(k) < input.death.value.at <= Opening(k + 1)
    requires k < |last.rounds| && Asks(input.provider(k)) && k + 1 < MAX_TOOL_ROUNDS
    ensures end.finish.Failed? && (end.error.BudgetRefusal? || end.error.OpenError?)
    ensures |last.rounds| == if end.error.BudgetRefusal? then k + 1 else k + 2
  {
    EarlierAlive(input, last, end);
    if |last.rounds| > k + 1 {
      assert Honoured(input.death, k + 1, input.provider(k + 1));
    }
  }

  function Dying(base: TurnInput, call: ToolCall, text: string): TurnInput {
    base.(gate := base.gate.(budget := Budget(None, None)),
          death := Some(Death(RunningTools(0), DeadlineExceeded)),
          provider := (n: nat) => if n == 0 then JUST_OPENED.(toolCalls := [call])
                                  else JUST_OPENED.(ending := NeverOpened(text)))
  }

  /** The witness: a clock that runs out while the first tool runs leaves an error behind, not a
      deadline, and so nothing to resume. */
  lemma DeadlineDuringToolsIsAnError(base: TurnInput, call: ToolCall, text: string)
    ensures Honours(Dying(base, call, text))
    ensures EndOf(Dying(base, call, text)) == TurnEnd(Failed, OpenError(text), false)
  {
    var input := Dying(base, call, text);
    RunTerminal(input, Begin(input));
    DeathDuringToolsIsAnError(input, 0);
  }
}
