/** Continuing an interrupted turn: which turn may be continued, what the continuing turn is told,
    and what of the conversation it replays. */
module Resume {
  import opened Sequences
  import opened Accounting
  import opened Receipts
  import opened Conversation
  import ExecutionRecord

  /** The terminal reasons a turn may be resumed from. */
  predicate ResumableFinish(reason: FinishReason) {
    reason.ToolRoundLimit? || reason.Deadline?
  }

  datatype ResumeContext = ResumeContext(messageId: int, reason: FinishReason, receipt: WriteReceipt)

  datatype ResumeRefusal = NoTurns | NotTheLastTurn | NotAnAnswer | NotContinuable | NoQuestion

  datatype ResumeTarget = Declined(refusal: ResumeRefusal) | Found(target: Message, question: Message, at: nat)

  /* ---- the target ---- */

  /** The last user turn among the first `n`, as its position, or nothing. */
  function LastUserBefore(history: seq<Message>, n: nat): (r: Option<nat>)
    requires n <= |history|
    ensures r.Some? ==> r.value < n && history[r.value].role.User?
                        && forall k :: r.value < k < n ==> !history[k].role.User?
    ensures r.None? ==> forall k :: 0 <= k < n ==> !history[k].role.User?
  {
    if n == 0 then None
    else if history[n - 1].role.User? then Some(n - 1)
    else LastUserBefore(history, n - 1)
  }

  function TargetOf(history: seq<Message>, want: int): ResumeTarget {
    if history == [] then Declined(NoTurns)
    else
      var last := history[|history| - 1];
      if last.id != want then Declined(NotTheLastTurn)
      else if !last.role.Assistant? then Declined(NotAnAnswer)
      else if !ResumableFinish(last.finish) then Declined(NotContinuable)
      else
        var q := LastUserBefore(history, |history| - 1);
        if q.None? then Declined(NoQuestion) else Found(last, history[q.value], q.value)
  }

  /** `resumeTarget`. A turn is continued exactly when it is the one named, the last one, an answer
      that stopped in a resumable way, and some user turn stands before it; the question is the
      nearest one. */
  method FindResumeTarget(history: seq<Message>, want: int) returns (r: ResumeTarget)
    ensures r == TargetOf(history, want)
    ensures r.Found? <==>
              && history != [] && history[|history| - 1].id == want
              && history[|history| - 1].role.Assistant? && ResumableFinish(history[|history| - 1].finish)
              && exists k :: 0 <= k < |history| - 1 && history[k].role.User?
    ensures r.Found? ==>
              && r.target == history[|history| - 1]
              && r.at < |history| - 1 && r.question == history[r.at] && r.question.role.User?
              && forall k :: r.at < k < |history| - 1 ==> !history[k].role.User?
  {
    if |history| == 0 {
      return Declined(NoTurns);
    }
    var last := history[|history| - 1];
    if last.id != want {
      return Declined(NotTheLastTurn);
    }
    if !last.role.Assistant? {
      return Declined(NotAnAnswer);
    }
    if !ResumableFinish(last.finish) {
      return Declined(NotContinuable);
    }
    var i := |history| - 1;
    while i > 0
      invariant 0 <= i <= |history| - 1
      invariant LastUserBefore(history, i) == LastUserBefore(history, |history| - 1)
      invariant forall k :: i <= k < |history| - 1 ==> !history[k].role.User?
    {
      i := i - 1;
      if history[i].role.User? {
        return Found(last, history[i], i);
      }
    }
    return Declined(NoQuestion);
  }

  /* ---- what is replayed ---- */

  function OtherThan(id: int): Message -> bool {
    (m: Message) => m.id != id
  }

  function WithoutInterrupted(history: seq<Message>, rc: Option<ResumeContext>): seq<Message> {
    if rc.None? then history else Keep(OtherThan(rc.value.messageId), history)
  }

  /** `withoutInterruptedTurn`. */
  method WithoutInterruptedTurn(history: seq<Message>, rc: Option<ResumeContext>) returns (out: seq<Message>)
    ensures out == WithoutInterrupted(history, rc)
  {
    if rc.None? {
      return history;
    }
    out := [];
    for i := 0 to |history|
      invariant out == Keep(OtherThan(rc.value.messageId), history[..i])
    {
      assert history[..i + 1][..i] == history[..i];
      if history[i].id != rc.value.messageId {
        out := out + [history[i]];
      }
    }
    assert history[..|history|] == history;
  }

  function MessageId(m: Message): int { m.id }
  predicate HasText(m: Message) { m.content != "" }

  /** With one entry per id, dropping the interrupted turn drops exactly the last entry. */
  lemma OnlyTheAttemptIsDropped(history: seq<Message>, rc: ResumeContext)
    requires history != [] && Distinct(MessageId, history) && history[|history| - 1].id == rc.messageId
    ensures WithoutInterrupted(history, Some(rc)) == history[..|history| - 1]
  {
    var init := history[..|history| - 1];
    ImagesAreThere(MessageId, init);
    forall m | m in init ensures OtherThan(rc.messageId)(m) {
      assert MessageId(m) in Images(MessageId, init);
    }
    KeepAll(OtherThan(rc.messageId), init);
  }

  lemma {:induction false} LastWithText(s: seq<Message>, i: nat)
    requires i < |s| && HasText(s[i])
    ensures var kept := Keep(HasText, s);
            && kept != []
            && ((forall k :: i < k < |s| ==> !HasText(s[k])) ==> kept[|kept| - 1] == s[i])
            && (kept[|kept| - 1] == s[i] && Distinct(MessageId, s) ==> forall k :: i < k < |s| ==> !HasText(s[k]))
  {
    var n := |s| - 1;
    if i < n {
      LastWithText(s[..n], i);
      if HasText(s[n]) {
        if Distinct(MessageId, s) {
          ImagesAreThere(MessageId, s[..n]);
          assert s[i] in s[..n];
        }
      } else {
        assert forall k :: i < k < n ==> s[..n][k] == s[k];
      }
    }
  }

  /** Nothing strictly between two positions has any text. */
  predicate SilentBetween(s: seq<Message>, i: nat, j: nat) {
    forall k :: i < k < j && k < |s| ==> !HasText(s[k])
  }

  lemma EndsOnIffSilent(init: seq<Message>, at: nat)
    requires at < |init| && HasText(init[at]) && Distinct(MessageId, init)
    ensures var said := Keep(HasText, init);
            said != [] && (said[|said| - 1] == init[at] <==> SilentBetween(init, at, |init|))
  {
    LastWithText(init, at);
  }

  lemma AttemptIsGone(init: seq<Message>, attempt: Message)
    requires Distinct(MessageId, init + [attempt])
    ensures Distinct(MessageId, init) && attempt !in Keep(HasText, init)
  {
    ImagesAreThere(MessageId, init);
    KeepSound(HasText, init);
  }

  /** What a resumed turn replays ends on its question if and only if nothing that was said between
      the question and the interrupted turn has any text. A turn that directly follows its question
      always does. A resumed resume does not, once the attempt before it said anything: only the
      last attempt is dropped. */
  lemma ReplayEndsOnQuestionIff(history: seq<Message>, want: int, rc: ResumeContext)
    requires TargetOf(history, want).Found? && rc.messageId == want
    requires Distinct(MessageId, history) && HasText(TargetOf(history, want).question)
    ensures var t := TargetOf(history, want);
            var said := Keep(HasText, WithoutInterrupted(history, Some(rc)));
            && said != []
            && (said[|said| - 1] == t.question <==> SilentBetween(history, t.at, |history| - 1))
            && t.target !in said
  {
    var t := TargetOf(history, want);
    var init := history[..|history| - 1];
    OnlyTheAttemptIsDropped(history, rc);
    assert history == init + [t.target];
    AttemptIsGone(init, t.target);
    EndsOnIffSilent(init, t.at);
  }

  /** The witness: an attempt that said something, resumed, and resumed again. */
  lemma ChainedResumeEndsOnTheEarlierAttempt(question: Message, first: Message, second: Message, rc: ResumeContext)
    requires question.role.User? && first.role.Assistant? && second.role.Assistant?
    requires question.content != "" && first.content != "" && second.finish == Deadline
    requires question.id != first.id && question.id != second.id && first.id != second.id && rc.messageId == second.id
    ensures TargetOf([question, first, second], second.id) == Found(second, question, 0)
    ensures var said := Keep(HasText, WithoutInterrupted([question, first, second], Some(rc)));
            said != [] && said[|said| - 1] == first
  {
    var history := [question, first, second];
    assert LastUserBefore(history, 1) == Some(0) && LastUserBefore(history, 2) == Some(0);
    DistinctMeans(MessageId, history);
    OnlyTheAttemptIsDropped(history, rc);
    assert history[..2] == [question, first];
    LastWithText([question, first], 1);
  }

  /* ---- the block ---- */

  // The sentences of the block: arbitrary, but fixed.
  const RESUME_HEADER: string
  const DONE_TITLE: string
  const NOTHING_DONE: string
  const PENDING_TITLE: string
  const NOTHING_PENDING: string
  const REASON_TITLE: string

  function ReasonText(reason: FinishReason): string {
    match reason
    case Silent => ""
    case Stop => "stop"
    case Length => "length"
    case Aborted => "aborted"
    case Deadline => "deadline"
    case Failed => "error"
    case ToolCalls => "tool_calls"
    case ToolRoundLimit => "tool_round_limit"
    case Vendor(text) => text
  }

  function DoneLine(w: WriteExecution): string {
    "\n- " + ExecutionRecord.StatusText(Executed) + " " + w.capability
    + (if w.ref.Some? then " ref=" + w.ref.value.Text() else "")
  }

  function PendingLine(w: WriteExecution): string {
    var code := ExecutionRecord.CodeText(w.errorCode);
    "\n- " + ExecutionRecord.StatusText(w.status) + " " + w.capability + (if code != "" then " " + code else "")
  }

  function Lines(line: WriteExecution -> string, writes: seq<WriteExecution>): string {
    if writes == [] then "" else Lines(line, writes[..|writes| - 1]) + line(writes[|writes| - 1])
  }

  predicate IsPending(w: WriteExecution) { !w.status.Executed? }

  /** The block, from the two lists its sections show. */
  function ResumeText(reason: FinishReason, done: seq<WriteExecution>, pending: seq<WriteExecution>): string {
    RESUME_HEADER
    + DONE_TITLE + (if done == [] then NOTHING_DONE else Lines(DoneLine, done))
    + PENDING_TITLE + (if pending == [] then NOTHING_PENDING else Lines(PendingLine, pending))
    + REASON_TITLE + ReasonText(reason) + "."
  }

  function RenderResumeBlock(rc: ResumeContext): string {
    ResumeText(rc.reason, Keep(IsExecuted, rc.receipt.writes), Keep(IsPending, rc.receipt.writes))
  }

  /** `RenderResumeBlock`, splitting the receipt and writing both sections. */
  method WriteResumeBlock(rc: ResumeContext) returns (text: string)
    ensures text == RenderResumeBlock(rc)
  {
    var writes := rc.receipt.writes;
    var executed, pending := [], [];
    for i := 0 to |writes|
      invariant executed == Keep(IsExecuted, writes[..i]) && pending == Keep(IsPending, writes[..i])
    {
      assert writes[..i + 1][..i] == writes[..i];
      match writes[i].status {
        case Executed => executed := executed + [writes[i]];
        case _ => pending := pending + [writes[i]];
      }
    }
    assert writes[..|writes|] == writes;
    var doneLines := WriteLines(DoneLine, executed);
    var pendingLines := WriteLines(PendingLine, pending);
    if |executed| == 0 {
      doneLines := NOTHING_DONE;
    }
    if |pending| == 0 {
      pendingLines := NOTHING_PENDING;
    }
    text := RESUME_HEADER + DONE_TITLE + doneLines + PENDING_TITLE + pendingLines
            + REASON_TITLE + ReasonText(rc.reason) + ".";
  }

  method WriteLines(line: WriteExecution -> string, writes: seq<WriteExecution>) returns (text: string)
    ensures text == Lines(line, writes)
  {
    text := "";
    for i := 0 to |writes|
      invariant text == Lines(line, writes[..i])
    {
      assert writes[..i + 1][..i] == writes[..i];
      text := text + line(writes[i]);
    }
    assert writes[..|writes|] == writes;
  }

  lemma {:induction false} KeepSplits<T>(p: T -> bool, q: T -> bool, s: seq<T>)
    requires forall x :: x in s ==> q(x) == !p(x)
    ensures Interleaves(s, Keep(p, s), Keep(q, s))
  {
    if s != [] {
      var init, last := s[..|s| - 1], s[|s| - 1];
      KeepSplits(p, q, init);
      assert last in s && s == init + [last];
    }
  }

  /** Every write of the receipt is listed exactly once, in order: as done if it executed, as pending
      if it did not. */
  lemma ResumeBlockListsEveryWriteOnce(rc: ResumeContext)
    ensures exists done: seq<WriteExecution>, pending: seq<WriteExecution> ::
              && RenderResumeBlock(rc) == ResumeText(rc.reason, done, pending)
              && Interleaves(rc.receipt.writes, done, pending)
              && (forall w :: w in done ==> w.status.Executed?)
              && (forall w :: w in pending ==> !w.status.Executed?)
  {
    var writes := rc.receipt.writes;
    KeepSplits(IsExecuted, IsPending, writes);
    KeepSound(IsExecuted, writes);
    KeepSound(IsPending, writes);
    assert RenderResumeBlock(rc) == ResumeText(rc.reason, Keep(IsExecuted, writes), Keep(IsPending, writes));
  }
}
