/** What part of a conversation a memory consolidation reads: the newest messages that fit, whole,
    in reading order. */
module Consolidation {
  import opened Sequences
  import opened Report
  import opened Conversation
  import opened Selection

  const INPUT_BUDGET := 12000
  // The label of a speaker: arbitrary, but fixed.
  const USER_LABEL: string
  const AGENT_LABEL: string

  function Label(role: Role): string {
    if role.User? then USER_LABEL else AGENT_LABEL
  }

  function LineChars(m: Message): int { |Label(m.role)| + |m.content| + 2 }

  predicate HasContent(m: Message) { Trim(m.content) != "" }

  function Window(history: seq<Message>): seq<Message> {
    NewestThatFit(Keep(HasContent, history), INPUT_BUDGET, 0, LineChars)
  }

  /** `selectConsolidationWindow`. */
  method SelectConsolidationWindow(history: seq<Message>) returns (window: seq<Message>)
    ensures window == Window(history)
  {
    var withContent := [];
    for i := 0 to |history|
      invariant withContent == Keep(HasContent, history[..i])
    {
      assert history[..i + 1][..i] == history[..i];
      if Trim(history[i].content) != "" {
        withContent := withContent + [history[i]];
      }
    }
    assert history[..|history|] == history;
    var newestFirst := Reversed(withContent);
    var selected, _ := SelectWithinBudget(newestFirst, INPUT_BUDGET, 0, LineChars);
    window := Reversed(selected);
  }

  /** The window is the conversation with messages left out, never reordered or cut, its lines fit
      the budget, and no message with content that was left out would still fit beside it. */
  lemma WindowIsWholeAndFits(history: seq<Message>)
    ensures var w := Window(history);
            && Subsequence(w, history)
            && SumBy(LineChars, w) <= INPUT_BUDGET
            && forall m :: m in history && HasContent(m) && m !in w ==>
                 SumBy(LineChars, w) + LineChars(m) > INPUT_BUDGET
  {
    var kept := Keep(HasContent, history);
    NewestThatFitIsWhole(kept, INPUT_BUDGET, 0, LineChars);
    KeepIsSubsequence(HasContent, history);
    SubsequenceChain(Window(history), kept, history);
    KeepSound(HasContent, history);
    forall m | m in history && HasContent(m) && m !in Window(history)
      ensures SumBy(LineChars, Window(history)) + LineChars(m) > INPUT_BUDGET
    {
      NothingNewerFits(kept, INPUT_BUDGET, 0, LineChars, m);
    }
  }

  /** The recent messages come first: what came before them never displaces what they put in the
      window. */
  lemma RecentMessagesComeFirst(older: seq<Message>, recent: seq<Message>)
    ensures EndsWith(Window(older + recent), Window(recent))
  {
    KeepConcat(HasContent, older, recent);
    NewestComeFirst(Keep(HasContent, older), Keep(HasContent, recent), INPUT_BUDGET, 0, LineChars);
  }
}
