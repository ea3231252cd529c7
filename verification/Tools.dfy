/** The vocabulary of the tool boundary: what a capability is, what the model may ask of it,
    and what the audit trail keeps of a call. */
module Tools {
  import opened Sequences

  type ToolName = string

  datatype Effect = Read | Write

  /** How a call ended. `Unrecognised` stands for a stored value outside the vocabulary. */
  datatype CallStatus = Ok | Error | NotExecuted | Unrecognised(text: string)

  /** `NoCode` is the empty code of a success; `Custom` is whatever an executor's own typed
      failure carries. */
  datatype ErrorCode =
    | NoCode
    | NotFound
    | NotAuthorized
    | InvalidArguments
    | ExecutionFailed
    | Timeout
    | RoundLimit
    | TurnStopped
    | Custom(text: string)

  datatype ToolFailure = ToolFailure(code: ErrorCode, message: string)

  /** An identifier as `uuid.Parse` sees it: parsed, or not a UUID at all. */
  datatype RefId = Uuid(text: string) | NotAUuid(text: string)

  /** The entity a capability says it touched. */
  datatype EffectRef = EffectRef(kind: string, id: RefId) {

    /** A short lower-case type and a real UUID; anything else is dropped, never repaired. */
    predicate Valid() {
      && 0 < |kind| <= MAX_EFFECT_TYPE_LENGTH
      && (forall i :: 0 <= i < |kind| ==>
            'a' <= kind[i] <= 'z' || '0' <= kind[i] <= '9' || kind[i] == '_')
      && id.Uuid?
    }

    function Text(): string {
      kind + ":" + id.text
    }
  }

  const MAX_EFFECT_TYPE_LENGTH := 40
  const MAX_TOOL_ARGUMENTS_BYTES := 16384
  const MAX_TOOL_RESULT_BYTES := 32768

  /** A ref passes through only while it is well formed. */
  function ValidRef(ref: Option<EffectRef>): (r: Option<EffectRef>)
    ensures r.Some? ==> r.value.Valid() && ref == r
    ensures ref.Some? && ref.value.Valid() ==> r == ref
  {
    if ref.None? || !ref.value.Valid() then None else ref
  }

  datatype PropertyType = StringType | NumberType | IntegerType | BooleanType

  datatype Property = Property(kind: PropertyType, description: string, maxLength: int)

  datatype Schema = Schema(properties: map<string, Property>, required: seq<string>)

  datatype ToolDefinition = ToolDefinition(
    name: ToolName,
    title: string,
    description: string,
    effect: Effect,
    confidential: bool,
    external: bool,
    schema: Schema)

  /** What the model asked for: a request, not a permission. */
  datatype ToolCall = ToolCall(id: string, name: ToolName, arguments: string)

  /** The first dot-separated segment of a tool's name, or all of it when it has no dot. */
  function Namespace(name: ToolName): string {
    NamespaceTo(name, 0)
  }

  function NamespaceTo(name: ToolName, i: nat): string
    requires i <= |name|
    decreases |name| - i
  {
    if i == |name| then name
    else if name[i] == '.' then (if i > 0 then name[..i] else name)
    else NamespaceTo(name, i + 1)
  }

  /** The definition of `name` among the turn's authorized tools: the first one of that name. */
  function IsAuthorized(tools: seq<ToolDefinition>, name: ToolName): (r: Option<ToolDefinition>)
    ensures r.Some? <==> exists i :: 0 <= i < |tools| && tools[i].name == name
    ensures r.Some? ==> r.value in tools && r.value.name == name
  {
    if tools == [] then None
    else if tools[0].name == name then
      assert tools[0].name == name;
      Some(tools[0])
    else
      var rest := IsAuthorized(tools[1..], name);
      assert forall i :: 0 < i < |tools| ==> tools[i] == tools[1..][i - 1];
      assert forall i :: 0 <= i < |tools| - 1 ==> tools[1..][i] == tools[i + 1];
      rest
  }

  /* ---- the arguments ---- */

  /** A decoded JSON value, at the granularity the schema looks at. */
  datatype Json =
    | Null
    | Text(length: nat)
    | Bool
    | Number(isInt64: bool)
    | Composite

  /** What decoding an argument string as a JSON object gives. */
  datatype Decoded = NotAnObject | Fields(fields: map<string, Json>)

  /** A JSON null decodes into a string, a boolean or a number without complaint and leaves it
      empty; as an integer it does not parse. */
  predicate Conforms(property: Property, value: Json) {
    match property.kind
    case StringType =>
      value.Null? ||
      (value.Text? && (property.maxLength > 0 ==> value.length <= property.maxLength))
    case BooleanType => value.Null? || value.Bool?
    case NumberType => value.Null? || value.Number?
    case IntegerType => value.Number? && value.isInt64
  }

  /** The third gate: size, shape, no unknown argument, no missing one, every value of its
      declared type. A blank argument string stands for the empty object. */
  predicate ArgumentsFit(schema: Schema, raw: string, blank: bool, decoded: Decoded) {
    && |raw| <= MAX_TOOL_ARGUMENTS_BYTES
    && (blank || decoded.Fields?)
    && (var fields := if blank then map[] else decoded.fields;
        && fields.Keys <= schema.properties.Keys
        && (forall i :: 0 <= i < |schema.required| ==> schema.required[i] in fields)
        && (forall name :: name in fields ==> Conforms(schema.properties[name], fields[name])))
  }

  /** Why an argument string is turned away. */
  datatype ArgumentError =
    | ArgumentsTooLong
    | NotAJsonObject
    | UnknownArgument(name: string)
    | MissingArgument(name: string)
    | UnfitValue(name: string)

  /** `ValidateArguments`: the error names a real fault, and the first kind of fault there is, in the
      order size, shape, unknown, missing, type. Fields come in no particular order. */
  method ValidateArguments(schema: Schema, raw: string, blank: bool, decoded: Decoded)
    returns (error: Option<ArgumentError>)
    ensures error.None? <==> ArgumentsFit(schema, raw, blank, decoded)
    ensures error == Some(ArgumentsTooLong) <==> |raw| > MAX_TOOL_ARGUMENTS_BYTES
    ensures error == Some(NotAJsonObject) <==> |raw| <= MAX_TOOL_ARGUMENTS_BYTES && !blank && !decoded.Fields?
    ensures error.Some? && !error.value.ArgumentsTooLong? && !error.value.NotAJsonObject? ==>
              var fields := if blank then map[] else decoded.fields;
              match error.value
              case UnknownArgument(name) => name in fields && name !in schema.properties
              case MissingArgument(name) =>
                name in schema.required && name !in fields && fields.Keys <= schema.properties.Keys
              case UnfitValue(name) =>
                && fields.Keys <= schema.properties.Keys
                && (forall i :: 0 <= i < |schema.required| ==> schema.required[i] in fields)
                && name in fields && !Conforms(schema.properties[name], fields[name])
  {
    if |raw| > MAX_TOOL_ARGUMENTS_BYTES {
      return Some(ArgumentsTooLong);
    }
    if !blank && !decoded.Fields? {
      return Some(NotAJsonObject);
    }
    var fields: map<string, Json> := map[];
    if !blank {
      fields := decoded.fields;
    }
    var unseen := fields.Keys;
    while unseen != {}
      invariant unseen <= fields.Keys && fields.Keys - unseen <= schema.properties.Keys
      decreases |unseen|
    {
      var name :| name in unseen;
      if name !in schema.properties {
        return Some(UnknownArgument(name));
      }
      unseen := unseen - {name};
    }
    for i := 0 to |schema.required|
      invariant forall k :: 0 <= k < i ==> schema.required[k] in fields
    {
      if schema.required[i] !in fields {
        return Some(MissingArgument(schema.required[i]));
      }
    }
    unseen := fields.Keys;
    while unseen != {}
      invariant unseen <= fields.Keys
      invariant forall name :: name in fields && name !in unseen ==> Conforms(schema.properties[name], fields[name])
      decreases |unseen|
    {
      var name :| name in unseen;
      if !Conforms(schema.properties[name], fields[name]) {
        return Some(UnfitValue(name));
      }
      unseen := unseen - {name};
    }
    return None;
  }

  /* ---- the audit record ---- */

  /** One executed or refused call as it is stored. Identifiers of workspace and conversation,
      which are copied through unread, are not carried. */
  datatype ToolCallRecord = ToolCallRecord(
    id: int,
    messageId: int,
    round: nat,
    providerCallId: string,
    tool: ToolName,
    arguments: Option<string>,
    result: Option<string>,
    status: CallStatus,
    effect: Effect,
    external: bool,
    effectRef: Option<EffectRef>,
    errorCode: ErrorCode,
    errorMessage: string,
    redacted: bool)
}
