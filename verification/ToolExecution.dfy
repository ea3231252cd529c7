/** `executeToolCall`: resolve, authorize, validate, execute. The first three gates refuse a call
    before anything runs; only the fourth can fail at its job. */
module ToolExecution {
  import opened Sequences
  import opened Tools

  /** What an executor gave back: an output (`None` when it cannot be encoded) with the entity it
      says it touched, or an error, typed or not. */
  datatype ExecutorAnswer =
    | Returned(encoded: Option<string>, reported: Option<EffectRef>)
    | Broke(failure: Option<ToolFailure>, message: string)

  /** `expired` is whether the executor's own context was over when it came back. */
  datatype ExecutorReply = ExecutorReply(answer: ExecutorAnswer, expired: bool)

  /** The build's capabilities and the libraries around them. `executors(n)` is what the n-th
      executor invocation of a turn answers. */
  datatype ToolBox = ToolBox(
    registry: map<ToolName, ToolDefinition>,
    decode: string -> Decoded,
    blank: string -> bool,
    encodeFailure: ToolFailure -> string,
    executors: nat -> ExecutorReply)

  datatype ToolOutcome = ToolOutcome(
    call: ToolCall,
    content: string,
    status: CallStatus,
    failure: Option<ToolFailure>,
    result: Option<string>,
    effectRef: Option<EffectRef>)

  // The sentences of the refusals: arbitrary, but fixed.
  const UNKNOWN_TOOL: string
  const NOT_AUTHORIZED: string
  const BAD_ARGUMENTS: string
  const TIMED_OUT: string
  const UNENCODABLE: string
  const TOO_LARGE: string

  /** The first gate that turns the call away, if one does. */
  function GateFailure(box: ToolBox, authorized: seq<ToolDefinition>, call: ToolCall): Option<ToolFailure> {
    if call.name !in box.registry then Some(ToolFailure(NotFound, UNKNOWN_TOOL + call.name))
    else
      var def := IsAuthorized(authorized, call.name);
      if def.None? then Some(ToolFailure(NotAuthorized, NOT_AUTHORIZED + call.name))
      else if !ArgumentsFit(def.value.schema, call.arguments, box.blank(call.arguments), box.decode(call.arguments))
      then Some(ToolFailure(InvalidArguments, BAD_ARGUMENTS))
      else None
  }

  predicate ReachesExecutor(box: ToolBox, authorized: seq<ToolDefinition>, call: ToolCall) {
    GateFailure(box, authorized, call).None?
  }

  function Failure(box: ToolBox, call: ToolCall, status: CallStatus, failure: ToolFailure): ToolOutcome {
    ToolOutcome(call, box.encodeFailure(failure), status, Some(failure), None, None)
  }

  /** The outcome of a call that ran. An executor that breaks after its time is up is a timeout
      whatever it says; one that returns is a success even then. */
  function Ran(box: ToolBox, call: ToolCall, reply: ExecutorReply): ToolOutcome {
    match reply.answer
    case Broke(failure, message) =>
      Failure(box, call, Error,
              if reply.expired then ToolFailure(Timeout, TIMED_OUT)
              else if failure.Some? then failure.value
              else ToolFailure(ExecutionFailed, message))
    case Returned(encoded, reported) =>
      if encoded.None? then Failure(box, call, Error, ToolFailure(ExecutionFailed, UNENCODABLE))
      else if |encoded.value| > MAX_TOOL_RESULT_BYTES then
        Failure(box, call, Error, ToolFailure(ExecutionFailed, TOO_LARGE))
      else ToolOutcome(call, encoded.value, Ok, None, encoded, ValidRef(reported))
  }

  /** The outcome of one call when `served` executor invocations came before it in the turn. */
  function Outcome(box: ToolBox, authorized: seq<ToolDefinition>, call: ToolCall, served: nat): ToolOutcome {
    var refusal := GateFailure(box, authorized, call);
    if refusal.Some? then Failure(box, call, NotExecuted, refusal.value)
    else Ran(box, call, box.executors(served))
  }

  /** The executors as the runtime meets them: every invocation is on the log. */
  class Executors {
    const box: ToolBox
    var log: seq<ToolCall>

    constructor (box: ToolBox)
      ensures this.box == box && log == []
    {
      this.box := box;
      log := [];
    }

    method Execute(call: ToolCall) returns (reply: ExecutorReply)
      modifies this
      ensures reply == box.executors(|old(log)|)
      ensures log == old(log) + [call]
    {
      reply := box.executors(|log|);
      log := log + [call];
    }
  }

  /** The four gates in order, with an executor that is invoked in the last one only. */
  method ExecuteToolCall(executors: Executors, authorized: seq<ToolDefinition>, call: ToolCall)
    returns (outcome: ToolOutcome)
    modifies executors
    ensures outcome == Outcome(executors.box, authorized, call, |old(executors.log)|)
    ensures executors.log ==
            if ReachesExecutor(executors.box, authorized, call) then old(executors.log) + [call]
            else old(executors.log)
  {
    var box := executors.box;
    if call.name !in box.registry {
      return Failure(box, call, NotExecuted, ToolFailure(NotFound, UNKNOWN_TOOL + call.name));
    }
    var def := IsAuthorized(authorized, call.name);
    if def.None? {
      return Failure(box, call, NotExecuted, ToolFailure(NotAuthorized, NOT_AUTHORIZED + call.name));
    }
    var misfit := ValidateArguments(def.value.schema, call.arguments, box.blank(call.arguments),
                                    box.decode(call.arguments));
    if misfit.Some? {
      return Failure(box, call, NotExecuted, ToolFailure(InvalidArguments, BAD_ARGUMENTS));
    }
    var reply := executors.Execute(call);
    return Ran(box, call, reply);
  }

  /** What an outcome proves. NOT_EXECUTED exactly when no executor ran; a failure is attached
      exactly when it is not a success; a payload and an identity exist only on a success, and
      the identity is well formed; and a call that ran was registered, authorized for this turn
      and fit the schema it was authorized with. */
  lemma OutcomeMeaning(box: ToolBox, authorized: seq<ToolDefinition>, call: ToolCall, served: nat)
    ensures var o := Outcome(box, authorized, call, served);
            && o.call == call
            && (o.status.NotExecuted? <==> !ReachesExecutor(box, authorized, call))
            && !o.status.Unrecognised?
            && (o.failure.Some? <==> !o.status.Ok?)
            && (o.result.Some? <==> o.status.Ok?)
            && (o.status.Ok? ==> o.result == Some(o.content) && |o.content| <= MAX_TOOL_RESULT_BYTES)
            && (o.effectRef.Some? ==> o.status.Ok? && o.effectRef.value.Valid())
            && (o.status.NotExecuted? ==> o.failure.value.code in {NotFound, NotAuthorized, InvalidArguments})
            && (!o.status.NotExecuted? ==>
                  && call.name in box.registry
                  && (exists d :: d in authorized && d.name == call.name
                        && ArgumentsFit(d.schema, call.arguments, box.blank(call.arguments),
                                         box.decode(call.arguments))))
  {
    var o := Outcome(box, authorized, call, served);
    if !o.status.NotExecuted? {
      var d := IsAuthorized(authorized, call.name).value;
      assert d in authorized && d.name == call.name;
    }
  }
}
