/** One completion: `streamOneCall` pulling a provider's stream and forwarding it to a reader
    who may hang up at any frame. */
module Stream {
  import opened Sequences
  import opened Tools
  import opened Accounting

  /** What ended a context, as `context.Cause` names it. A live context whose reader is gone
      counts as cancelled. */
  datatype StopCause = Cancelled | DeadlineExceeded | OtherCause(text: string)

  /** `terminalFor`: only an expired clock is a deadline; everything else is somebody leaving. */
  function TerminalFor(cause: StopCause): FinishReason {
    if cause.DeadlineExceeded? then Deadline else Aborted
  }

  /** One frame of a stream. The two sink fields say whether the reader was gone when the frame
      was forwarded, and what the context gave as the cause. */
  datatype StreamEvent = StreamEvent(
    usage: Option<Usage>,
    finish: FinishReason,
    toolCalls: seq<ToolCall>,
    reasoning: string,
    delta: string,
    reasoningSink: Option<StopCause>,
    deltaSink: Option<StopCause>)

  /** How the frames end: drained, a read error on a live context, or a read error on a context
      that is gone. */
  datatype StreamEnd = Drained | Faulted(error: string) | ContextGone(cause: StopCause)

  datatype ProviderReply =
    | OpenFailed(error: string)
    | Streaming(events: seq<StreamEvent>, end: StreamEnd)

  /** How one call ended: it never opened, its stream broke, the turn's reader or clock stopped
      it, or it drained. */
  datatype CallEnding = NeverOpened(error: string) | Broken(error: string) | Stopped(cause: StopCause) | Complete

  datatype CallResult = CallResult(
    ending: CallEnding,
    content: string,
    reasoning: string,
    finish: FinishReason,
    usage: Option<Usage>,
    toolCalls: seq<ToolCall>)
  {
    predicate Opened() { !ending.NeverOpened? }
  }

  const JUST_OPENED := CallResult(Complete, "", "", Silent, None, [])

  /** Where the call stands after a frame: stopped, if the reader turned out to be gone. */
  function EndingAfter(ev: StreamEvent): CallEnding {
    if ev.reasoning != "" && ev.reasoningSink.Some? then Stopped(ev.reasoningSink.value)
    else if ev.delta != "" && ev.deltaSink.Some? then Stopped(ev.deltaSink.value)
    else Complete
  }

  /** The answer text of a frame; a frame whose reasoning was refused does not get that far. */
  function Delivered(ev: StreamEvent): string {
    if ev.reasoning != "" && ev.reasoningSink.Some? then "" else ev.delta
  }

  /** One frame folded in. */
  function Absorb(acc: CallResult, ev: StreamEvent): CallResult {
    acc.(usage := if ev.usage.Some? then ev.usage else acc.usage,
         finish := if ev.finish.Silent? then acc.finish else ev.finish,
         toolCalls := if ev.toolCalls != [] then ev.toolCalls else acc.toolCalls,
         reasoning := acc.reasoning + ev.reasoning,
         content := acc.content + Delivered(ev),
         ending := EndingAfter(ev))
  }

  /** The frames in order, ending at the first one whose reader is gone. */
  function Pull(acc: CallResult, events: seq<StreamEvent>, end: StreamEnd): CallResult
    decreases |events|
  {
    if events != [] then
      var next := Absorb(acc, events[0]);
      if next.ending.Stopped? then next else Pull(next, events[1..], end)
    else
      match end
      case Drained => acc
      case Faulted(error) => acc.(ending := Broken(error))
      case ContextGone(cause) => acc.(ending := Stopped(cause))
  }

  function ReadReply(reply: ProviderReply): CallResult {
    match reply
    case OpenFailed(error) => JUST_OPENED.(ending := NeverOpened(error))
    case Streaming(events, end) => Pull(JUST_OPENED, events, end)
  }

  /** `streamOneCall`, as the loop that pulls frames and keeps the turn's two builders. */
  method StreamOneCall(reply: ProviderReply, replySoFar: string, reasoningSoFar: string)
    returns (out: CallResult, replyText: string, reasoningText: string)
    ensures out == ReadReply(reply)
    ensures replyText == replySoFar + out.content
    ensures reasoningText == reasoningSoFar + out.reasoning
  {
    out, replyText, reasoningText := JUST_OPENED, replySoFar, reasoningSoFar;
    if reply.OpenFailed? {
      out := out.(ending := NeverOpened(reply.error));
      return;
    }
    var i := 0;
    while i < |reply.events| && out.ending.Complete?
      invariant 0 <= i <= |reply.events|
      invariant out.ending.Complete? || out.ending.Stopped?
      invariant ReadReply(reply) == if out.ending.Stopped? then out else Pull(out, reply.events[i..], reply.end)
      invariant replyText == replySoFar + out.content
      invariant reasoningText == reasoningSoFar + out.reasoning
      decreases |reply.events| - i
    {
      PullOne(out, reply.events, i, reply.end);
      Appended(replySoFar, out.content, Delivered(reply.events[i]));
      Appended(reasoningSoFar, out.reasoning, reply.events[i].reasoning);
      out, replyText, reasoningText := Forward(out, reply.events[i], replyText, reasoningText);
      i := i + 1;
    }
    if out.ending.Stopped? {
      return;
    }
    match reply.end
    case Drained =>
    case Faulted(error) => out := out.(ending := Broken(error));
    case ContextGone(cause) => out := out.(ending := Stopped(cause));
  }

  lemma PullOne(acc: CallResult, events: seq<StreamEvent>, i: nat, end: StreamEnd)
    requires i < |events|
    ensures var next := Absorb(acc, events[i]);
            Pull(acc, events[i..], end) == if next.ending.Stopped? then next else Pull(next, events[i + 1..], end)
  {
    assert events[i..][1..] == events[i + 1..];
  }

  /** One frame of the loop: noted, shown to the reader, kept in the turn's builders. */
  method Forward(acc: CallResult, ev: StreamEvent, replyText: string, reasoningText: string)
    returns (out: CallResult, replyText': string, reasoningText': string)
    requires acc.ending.Complete?
    ensures out == Absorb(acc, ev)
    ensures replyText' == replyText + Delivered(ev)
    ensures reasoningText' == reasoningText + ev.reasoning
  {
    out, replyText', reasoningText' := acc, replyText, reasoningText;
    if ev.usage.Some? {
      out := out.(usage := ev.usage);
    }
    if !ev.finish.Silent? {
      out := out.(finish := ev.finish);
    }
    if ev.toolCalls != [] {
      out := out.(toolCalls := ev.toolCalls);
    }
    if ev.reasoning != "" {
      out := out.(reasoning := out.reasoning + ev.reasoning);
      reasoningText' := reasoningText + ev.reasoning;
      if ev.reasoningSink.Some? {
        out := out.(ending := Stopped(ev.reasoningSink.value));
        return;
      }
    }
    if ev.delta != "" {
      out := out.(content := out.content + ev.delta);
      replyText' := replyText + ev.delta;
      if ev.deltaSink.Some? {
        out := out.(ending := Stopped(ev.deltaSink.value));
      }
    }
  }

  /* ---- what a clean call carries ---- */

  function DeltaOf(ev: StreamEvent): string { ev.delta }
  function ThinkingOf(ev: StreamEvent): string { ev.reasoning }

  /** A call that completes carries every frame: the whole answer and the whole reasoning in
      order, and the last tool request, usage and reason the provider gave. */
  lemma CompleteCallCarriesEverything(reply: ProviderReply)
    requires ReadReply(reply).ending.Complete?
    ensures var call := ReadReply(reply);
            && reply.Streaming? && reply.end.Drained?
            && Gathered(call, reply.events)
  {
    PullIsComplete(JUST_OPENED, [], reply.events, reply.end);
    assert [] + reply.events == reply.events;
  }

  function LastRequest(events: seq<StreamEvent>): seq<ToolCall> {
    if events == [] then []
    else if events[|events| - 1].toolCalls != [] then events[|events| - 1].toolCalls
    else LastRequest(events[..|events| - 1])
  }

  function LastUsage(events: seq<StreamEvent>): Option<Usage> {
    if events == [] then None
    else if events[|events| - 1].usage.Some? then events[|events| - 1].usage
    else LastUsage(events[..|events| - 1])
  }

  function LastFinish(events: seq<StreamEvent>): FinishReason {
    if events == [] then Silent
    else if !events[|events| - 1].finish.Silent? then events[|events| - 1].finish
    else LastFinish(events[..|events| - 1])
  }

  /** What a call has gathered from the frames it has seen. */
  predicate Gathered(call: CallResult, seen: seq<StreamEvent>) {
    && call.content == Flatten(Apply(DeltaOf, seen))
    && call.reasoning == Flatten(Apply(ThinkingOf, seen))
    && call.toolCalls == LastRequest(seen)
    && call.usage == LastUsage(seen)
    && call.finish == LastFinish(seen)
  }

  lemma LastsGrow(seen: seq<StreamEvent>, ev: StreamEvent)
    ensures LastRequest(seen + [ev]) == if ev.toolCalls != [] then ev.toolCalls else LastRequest(seen)
    ensures LastUsage(seen + [ev]) == if ev.usage.Some? then ev.usage else LastUsage(seen)
    ensures LastFinish(seen + [ev]) == if ev.finish.Silent? then LastFinish(seen) else ev.finish
  {
    assert (seen + [ev])[..|seen|] == seen;
  }

  lemma GatheredGrows(acc: CallResult, seen: seq<StreamEvent>, ev: StreamEvent)
    requires Gathered(acc, seen) && EndingAfter(ev).Complete?
    ensures Gathered(Absorb(acc, ev), seen + [ev])
  {
    LastsGrow(seen, ev);
  }

  lemma {:induction false} PullIsComplete(
      acc: CallResult, seen: seq<StreamEvent>, events: seq<StreamEvent>, end: StreamEnd)
    requires acc.ending.Complete? && Gathered(acc, seen)
    ensures var call := Pull(acc, events, end);
            call.Opened() && (call.ending.Complete? ==> end.Drained? && Gathered(call, seen + events))
    decreases |events|
  {
    if events == [] {
      assert seen + events == seen;
    } else {
      var next := Absorb(acc, events[0]);
      assert seen + [events[0]] + events[1..] == seen + events;
      if next.ending.Complete? {
        GatheredGrows(acc, seen, events[0]);
        PullIsComplete(next, seen + [events[0]], events[1..], end);
      }
    }
  }
}
