/** The audit rows a turn files, and the two receipts derived from them: did anything change,
    and was anything read outside. */
module Receipts {
  import opened Sequences
  import opened Tools
  import opened ToolExecution

  /** A call waiting for the message id it will be filed under. */
  datatype PendingCall = PendingCall(round: nat, outcome: ToolOutcome)

  const MAX_PROVIDER_ID_BYTES := 128
  const MAX_ERROR_MESSAGE_BYTES := 500

  /** A length here counts characters, where the stored limits count bytes; a cut at a byte can
      split a character and this one never does. */
  function Truncate(s: string, n: nat): string {
    if |s| <= n then s else s[..n]
  }

  /** One audit row. The effect, the provenance and the redaction come from the registered
      definition; a tool the build no longer has claims the least. */
  function RecordOf(registry: map<ToolName, ToolDefinition>, messageId: int, id: int, c: PendingCall): ToolCallRecord {
    var o := c.outcome;
    var known := o.call.name in registry;
    var confidential := known && registry[o.call.name].confidential;
    ToolCallRecord(
      id, messageId, c.round,
      Truncate(o.call.id, MAX_PROVIDER_ID_BYTES),
      o.call.name,
      if confidential then None else Some(Truncate(o.call.arguments, MAX_TOOL_ARGUMENTS_BYTES)),
      if confidential then None else o.result,
      o.status,
      if known then registry[o.call.name].effect else Read,
      known && registry[o.call.name].external,
      o.effectRef,
      if o.failure.Some? then o.failure.value.code else NoCode,
      if o.failure.Some? then Truncate(o.failure.value.message, MAX_ERROR_MESSAGE_BYTES) else "",
      confidential)
  }

  /** `persistToolCalls`: one row per pending call, in order, nothing merged and nothing lost. */
  method PersistToolCalls(
      registry: map<ToolName, ToolDefinition>, messageId: int, ids: nat -> int, calls: seq<PendingCall>)
    returns (records: seq<ToolCallRecord>)
    ensures |records| == |calls|
    ensures forall i :: 0 <= i < |calls| ==> records[i] == RecordOf(registry, messageId, ids(i), calls[i])
  {
    records := [];
    for i := 0 to |calls|
      invariant |records| == i
      invariant forall k :: 0 <= k < i ==> records[k] == RecordOf(registry, messageId, ids(k), calls[k])
    {
      var o := calls[i].outcome;
      var effect, external, confidential := Read, false, false;
      if o.call.name in registry {
        var def := registry[o.call.name];
        effect, external, confidential := def.effect, def.external, def.confidential;
      }
      var arguments, result := None, None;
      if !confidential {
        result := o.result;
        arguments := Some(Truncate(o.call.arguments, MAX_TOOL_ARGUMENTS_BYTES));
      }
      var code, message := NoCode, "";
      if o.failure.Some? {
        code, message := o.failure.value.code, Truncate(o.failure.value.message, MAX_ERROR_MESSAGE_BYTES);
      }
      records := records + [ToolCallRecord(
        ids(i), messageId, calls[i].round, Truncate(o.call.id, MAX_PROVIDER_ID_BYTES), o.call.name,
        arguments, result, o.status, effect, external, o.effectRef, code, message, confidential)];
    }
  }

  /* ---- write receipts ---- */

  datatype WriteStatus = Requested | Executed | WriteFailed | Refused

  datatype WriteExecution = WriteExecution(
    callId: int,
    capability: ToolName,
    status: WriteStatus,
    errorCode: ErrorCode,
    ref: Option<EffectRef>)

  datatype WriteReceipt = WriteReceipt(
    messageId: int,
    writes: seq<WriteExecution>,
    executed: nat,
    failed: nat,
    refused: nat)

  function WriteStatusOf(s: CallStatus): WriteStatus {
    match s
    case Ok => Executed
    case Error => WriteFailed
    case NotExecuted => Refused
    case Unrecognised(_) => Requested
  }

  function WriteOf(rec: ToolCallRecord): WriteExecution {
    WriteExecution(rec.id, rec.tool, WriteStatusOf(rec.status), rec.errorCode, ValidRef(rec.effectRef))
  }

  predicate IsWrite(rec: ToolCallRecord) { rec.effect.Write? }
  predicate IsExecuted(w: WriteExecution) { w.status.Executed? }
  predicate IsFailed(w: WriteExecution) { w.status.WriteFailed? }
  predicate IsRefused(w: WriteExecution) { w.status.Refused? }

  /** One record folded into a receipt: a read changes nothing, a write is listed and counted
      under its own status. */
  function AddRecord(r: WriteReceipt, rec: ToolCallRecord): WriteReceipt {
    if !rec.effect.Write? then r
    else
      var w := WriteOf(rec);
      r.(writes := r.writes + [w],
         executed := r.executed + (if IsExecuted(w) then 1 else 0),
         failed := r.failed + (if IsFailed(w) then 1 else 0),
         refused := r.refused + (if IsRefused(w) then 1 else 0))
  }

  function ReceiptOf(messageId: int, records: seq<ToolCallRecord>): WriteReceipt {
    if records == [] then WriteReceipt(messageId, [], 0, 0, 0)
    else AddRecord(ReceiptOf(messageId, records[..|records| - 1]), records[|records| - 1])
  }

  /** `NewWriteReceipt`, counting as it walks the records. */
  method NewWriteReceipt(messageId: int, records: seq<ToolCallRecord>) returns (r: WriteReceipt)
    ensures r == ReceiptOf(messageId, records)
  {
    var writes, executed, failed, refused := [], 0, 0, 0;
    for i := 0 to |records|
      invariant WriteReceipt(messageId, writes, executed, failed, refused) == ReceiptOf(messageId, records[..i])
    {
      var rec := records[i];
      assert records[..i + 1][..i] == records[..i];
      if rec.effect.Write? {
        var status;
        match rec.status {
          case Ok =>
            status, executed := Executed, executed + 1;
          case Error =>
            status, failed := WriteFailed, failed + 1;
          case NotExecuted =>
            status, refused := Refused, refused + 1;
          case Unrecognised(_) =>
            status := Requested;
        }
        writes := writes + [WriteExecution(rec.id, rec.tool, status, rec.errorCode, ValidRef(rec.effectRef))];
      }
    }
    assert records[..|records|] == records;
    r := WriteReceipt(messageId, writes, executed, failed, refused);
  }

  /** A receipt against its own list: the writes of the records, all of them and in order, and
      three counts that are counts of that list. */
  lemma {:induction false} ReceiptIsItsList(messageId: int, records: seq<ToolCallRecord>)
    ensures var r := ReceiptOf(messageId, records);
            && r.messageId == messageId
            && r.writes == Apply(WriteOf, Keep(IsWrite, records))
            && r.executed == |Keep(IsExecuted, r.writes)|
            && r.failed == |Keep(IsFailed, r.writes)|
            && r.refused == |Keep(IsRefused, r.writes)|
  {
    if records != [] {
      var init, last := records[..|records| - 1], records[|records| - 1];
      ReceiptIsItsList(messageId, init);
      var kept, writes := Keep(IsWrite, init), ReceiptOf(messageId, init).writes;
      if last.effect.Write? {
        assert (kept + [last])[..|kept|] == kept;
        assert (writes + [WriteOf(last)])[..|writes|] == writes;
      }
    }
  }

  /* ---- read receipts ---- */

  datatype ReadStatus = VerifiedRead | FailedRead | NoRead

  datatype ExternalRead = ExternalRead(
    callId: int, capability: ToolName, source: string, status: ReadStatus, errorCode: ErrorCode)

  datatype ReadReceipt = ReadReceipt(
    messageId: int, readings: seq<ExternalRead>, status: ReadStatus, verified: nat, failed: nat, available: bool)
  {
    predicate Verifiable() { status.VerifiedRead? }
  }

  predicate IsExternal(rec: ToolCallRecord) { rec.external }
  predicate IsVerified(r: ExternalRead) { r.status.VerifiedRead? }
  predicate IsFailedRead(r: ExternalRead) { r.status.FailedRead? }

  function ReadOf(rec: ToolCallRecord): ExternalRead {
    ExternalRead(rec.id, rec.tool, Namespace(rec.tool),
                 if rec.status.Ok? then VerifiedRead else FailedRead, rec.errorCode)
  }

  function ReadingsOf(records: seq<ToolCallRecord>): seq<ExternalRead> {
    Apply(ReadOf, Keep(IsExternal, records))
  }

  datatype ReadTally = ReadTally(readings: seq<ExternalRead>, verified: nat, failed: nat)

  function TallyOf(records: seq<ToolCallRecord>): ReadTally {
    var readings := ReadingsOf(records);
    ReadTally(readings, |Keep(IsVerified, readings)|, |Keep(IsFailedRead, readings)|)
  }

  /** Any success verifies the turn, whatever failed beside it. */
  function ReadReceiptOf(messageId: int, available: bool, records: seq<ToolCallRecord>): ReadReceipt {
    var tally := TallyOf(records);
    ReadReceipt(messageId, tally.readings,
                if exists r :: r in tally.readings && IsVerified(r) then VerifiedRead
                else if tally.readings != [] then FailedRead
                else NoRead,
                tally.verified, tally.failed, available)
  }

  /** `NewReadReceipt`, whose precedence rule reads the counters and not the list. */
  method NewReadReceipt(messageId: int, available: bool, records: seq<ToolCallRecord>) returns (r: ReadReceipt)
    ensures r == ReadReceiptOf(messageId, available, records)
  {
    var readings, verified, failed := [], 0, 0;
    for i := 0 to |records|
      invariant ReadTally(readings, verified, failed) == TallyOf(records[..i])
    {
      var rec := records[i];
      TallyGrows(records[..i], rec);
      assert records[..i + 1] == records[..i] + [rec];
      if rec.external {
        var status;
        if rec.status.Ok? {
          status, verified := VerifiedRead, verified + 1;
        } else {
          status, failed := FailedRead, failed + 1;
        }
        readings := readings + [ExternalRead(rec.id, rec.tool, Namespace(rec.tool), status, rec.errorCode)];
      }
    }
    assert records[..|records|] == records;
    TallyMeaning(records);
    VerifiedCount(readings);
    r := ReadReceipt(messageId, readings,
                     if verified > 0 then VerifiedRead else if failed > 0 then FailedRead else NoRead,
                     verified, failed, available);
  }

  lemma TallyGrows(records: seq<ToolCallRecord>, rec: ToolCallRecord)
    ensures var before := TallyOf(records);
            TallyOf(records + [rec]) ==
            if !rec.external then before
            else if rec.status.Ok? then
              ReadTally(before.readings + [ReadOf(rec)], before.verified + 1, before.failed)
            else ReadTally(before.readings + [ReadOf(rec)], before.verified, before.failed + 1)
  {
    assert (records + [rec])[..|records|] == records;
    var kept := Keep(IsExternal, records);
    if rec.external {
      assert (kept + [rec])[..|kept|] == kept;
      var before := ReadingsOf(records);
      assert (before + [ReadOf(rec)])[..|before|] == before;
    }
  }

  /** Every external call is counted once, as verified or as failed. */
  lemma {:induction false} TallyMeaning(records: seq<ToolCallRecord>)
    ensures TallyOf(records).verified + TallyOf(records).failed == |TallyOf(records).readings|
  {
    if records != [] {
      var init := records[..|records| - 1];
      TallyMeaning(init);
      TallyGrows(init, records[|records| - 1]);
      assert records == init + [records[|records| - 1]];
    }
  }

  lemma VerifiedCount(readings: seq<ExternalRead>)
    ensures |Keep(IsVerified, readings)| > 0 <==> exists r :: r in readings && IsVerified(r)
  {
    KeepSound(IsVerified, readings);
    if |Keep(IsVerified, readings)| > 0 {
      assert Keep(IsVerified, readings)[0] in readings;
    }
  }

  /** A turn may be presented as resting on an external reading exactly when one of its calls
      really read something outside and succeeded. */
  lemma VerifiableMeansRead(messageId: int, available: bool, records: seq<ToolCallRecord>)
    ensures ReadReceiptOf(messageId, available, records).Verifiable() <==>
            exists rec :: rec in records && rec.external && rec.status.Ok?
  {
    var kept := Keep(IsExternal, records);
    var readings := ReadingsOf(records);
    KeepSound(IsExternal, records);
    if rec :| rec in records && rec.external && rec.status.Ok? {
      assert IsExternal(rec);
      var i :| 0 <= i < |kept| && kept[i] == rec;
      assert IsVerified(readings[i]);
    }
    if r :| r in readings && IsVerified(r) {
      var i :| 0 <= i < |readings| && readings[i] == r;
      assert kept[i] in records && kept[i].external && kept[i].status.Ok?;
    }
  }
}
