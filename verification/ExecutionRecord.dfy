/** What a conversation's earlier turns did, folded for the model to read: derived from the same
    receipt everything else reads, and carrying no payload at all. */
module ExecutionRecord {
  import opened Sequences
  import opened Tools
  import opened Receipts
  import opened Selection

  // The header of the block: arbitrary, but fixed.
  const EXECUTION_HEADER: string
  const TURN_MARKER := "\n\n### turn\n"

  /** One capability's outcome on one turn, identical outcomes folded together. */
  datatype ExecutionEntry = ExecutionEntry(
    capability: ToolName, status: WriteStatus, errorCode: ErrorCode, refs: seq<EffectRef>, count: nat)

  datatype ExecutionTurn = ExecutionTurn(messageId: int, entries: seq<ExecutionEntry>)

  datatype ExecutionEvidence = ExecutionEvidence(turns: seq<ExecutionTurn>, droppedTurns: int, droppedChars: int)

  datatype EntryKey = EntryKey(capability: ToolName, status: WriteStatus, errorCode: ErrorCode)

  function KeyOfEntry(e: ExecutionEntry): EntryKey { EntryKey(e.capability, e.status, e.errorCode) }
  function KeyOfWrite(w: WriteExecution): EntryKey { EntryKey(w.capability, w.status, w.errorCode) }

  /* ---- folding ---- */

  /** `appendRef`: a valid identity not seen yet joins; anything else adds nothing. */
  function AppendRef(refs: seq<EffectRef>, ref: Option<EffectRef>): seq<EffectRef> {
    if ref.None? || !ref.value.Valid() || ref.value in refs then refs else refs + [ref.value]
  }

  function EntryFor(entries: seq<ExecutionEntry>, key: EntryKey): (i: nat)
    ensures i <= |entries| && (i < |entries| ==> KeyOfEntry(entries[i]) == key)
  {
    if entries == [] then 0
    else
      var n := |entries| - 1;
      var i := EntryFor(entries[..n], key);
      if i < n then i else if KeyOfEntry(entries[n]) == key then n else n + 1
  }

  function Grown(e: ExecutionEntry, w: WriteExecution): ExecutionEntry {
    e.(count := e.count + 1, refs := AppendRef(e.refs, w.ref))
  }

  function NewEntry(w: WriteExecution): ExecutionEntry {
    ExecutionEntry(w.capability, w.status, w.errorCode, AppendRef([], w.ref), 1)
  }

  function AddWrite(entries: seq<ExecutionEntry>, w: WriteExecution): seq<ExecutionEntry> {
    var i := EntryFor(entries, KeyOfWrite(w));
    if i < |entries| then entries[i := Grown(entries[i], w)] else entries + [NewEntry(w)]
  }

  function EntriesOf(writes: seq<WriteExecution>): seq<ExecutionEntry> {
    if writes == [] then [] else AddWrite(EntriesOf(writes[..|writes| - 1]), writes[|writes| - 1])
  }

  function TurnOf(messageId: int, records: seq<ToolCallRecord>): ExecutionTurn {
    ExecutionTurn(messageId, EntriesOf(ReceiptOf(messageId, records).writes))
  }

  /** The index of the fold points at the entry of every key, and at nothing else. */
  ghost predicate Indexes(index: map<EntryKey, nat>, entries: seq<ExecutionEntry>) {
    forall k :: if k in index then index[k] == EntryFor(entries, k) < |entries| else EntryFor(entries, k) == |entries|
  }

  /** `executionTurnFor`. */
  method ExecutionTurnFor(messageId: int, records: seq<ToolCallRecord>) returns (turn: ExecutionTurn)
    ensures turn == TurnOf(messageId, records)
  {
    if |records| == 0 {
      return ExecutionTurn(messageId, []);
    }
    var receipt := NewWriteReceipt(messageId, records);
    var writes := receipt.writes;
    var entries: seq<ExecutionEntry> := [];
    var index: map<EntryKey, nat> := map[];
    for n := 0 to |writes|
      invariant entries == EntriesOf(writes[..n]) && Indexes(index, entries)
    {
      assert writes[..n + 1][..n] == writes[..n];
      entries, index := FoldWrite(entries, index, writes[n]);
    }
    assert writes[..|writes|] == writes;
    turn := ExecutionTurn(messageId, entries);
  }

  /** The body of that loop. */
  method FoldWrite(entries: seq<ExecutionEntry>, index: map<EntryKey, nat>, w: WriteExecution)
    returns (after: seq<ExecutionEntry>, places: map<EntryKey, nat>)
    requires Indexes(index, entries)
    ensures after == AddWrite(entries, w) && Indexes(places, after)
  {
    var key := KeyOfWrite(w);
    AddWriteFinds(entries, w);
    if key in index {
      var i := index[key];
      var e := entries[i];
      after := entries[i := e.(count := e.count + 1, refs := AppendRef(e.refs, w.ref))];
      places := index;
    } else {
      places := index[key := |entries|];
      after := entries + [ExecutionEntry(w.capability, w.status, w.errorCode, AppendRef([], w.ref), 1)];
    }
  }

  lemma {:induction false} UpdateKeepsPlaces(entries: seq<ExecutionEntry>, i: nat, e: ExecutionEntry, key: EntryKey)
    requires i < |entries| && KeyOfEntry(e) == KeyOfEntry(entries[i])
    ensures EntryFor(entries[i := e], key) == EntryFor(entries, key)
  {
    var n := |entries| - 1;
    if i < n {
      assert entries[i := e][..n] == entries[..n][i := e];
      UpdateKeepsPlaces(entries[..n], i, e, key);
    } else {
      assert entries[i := e][..n] == entries[..n];
    }
  }

  /** Adding a write moves no entry and adds at most one, at the end. */
  lemma AddWriteFinds(entries: seq<ExecutionEntry>, w: WriteExecution)
    ensures forall key :: EntryFor(AddWrite(entries, w), key) ==
              if EntryFor(entries, key) < |entries| then EntryFor(entries, key)
              else if key == KeyOfWrite(w) then |entries|
              else |AddWrite(entries, w)|
  {
    var i, after := EntryFor(entries, KeyOfWrite(w)), AddWrite(entries, w);
    forall key
      ensures EntryFor(after, key) ==
                if EntryFor(entries, key) < |entries| then EntryFor(entries, key)
                else if key == KeyOfWrite(w) then |entries|
                else |after|
    {
      if i < |entries| {
        UpdateKeepsPlaces(entries, i, Grown(entries[i], w), key);
      } else {
        assert after[..|entries|] == entries;
      }
    }
  }

  /* ---- what the fold conserves ---- */

  function CountIf(status: WriteStatus): ExecutionEntry -> int {
    (e: ExecutionEntry) => if e.status == status then e.count else 0
  }

  function HasStatus(status: WriteStatus): WriteExecution -> bool {
    (w: WriteExecution) => w.status == status
  }

  /** Folding loses no write: the counts of a status add up to the writes of that status. */
  lemma {:induction false} FoldConserves(writes: seq<WriteExecution>, status: WriteStatus)
    ensures SumBy(CountIf(status), EntriesOf(writes)) == |Keep(HasStatus(status), writes)|
  {
    if writes != [] {
      var init, w := writes[..|writes| - 1], writes[|writes| - 1];
      FoldConserves(init, status);
      AddWriteCounts(EntriesOf(init), w, status);
    }
  }

  lemma AddWriteCounts(entries: seq<ExecutionEntry>, w: WriteExecution, status: WriteStatus)
    ensures SumBy(CountIf(status), AddWrite(entries, w)) ==
            SumBy(CountIf(status), entries) + (if w.status == status then 1 else 0)
  {
    var i := EntryFor(entries, KeyOfWrite(w));
    if i < |entries| {
      SumAfterUpdate(CountIf(status), entries, i, Grown(entries[i], w));
    } else {
      assert (entries + [NewEntry(w)])[..|entries|] == entries;
    }
  }

  /** A carried turn says what its receipt says: per status, the entry counts add up to the
      receipt's own counts, and together to every write it lists. */
  lemma TurnConservesItsReceipt(messageId: int, records: seq<ToolCallRecord>)
    ensures var receipt, entries := ReceiptOf(messageId, records), TurnOf(messageId, records).entries;
            && SumBy(CountIf(Executed), entries) == receipt.executed
            && SumBy(CountIf(WriteFailed), entries) == receipt.failed
            && SumBy(CountIf(Refused), entries) == receipt.refused
            && (entries == [] <==> receipt.writes == [])
  {
    var receipt := ReceiptOf(messageId, records);
    ReceiptIsItsList(messageId, records);
    FoldConserves(receipt.writes, Executed);
    FoldConserves(receipt.writes, WriteFailed);
    FoldConserves(receipt.writes, Refused);
    KeepSame(HasStatus(Executed), IsExecuted, receipt.writes);
    KeepSame(HasStatus(WriteFailed), IsFailed, receipt.writes);
    KeepSame(HasStatus(Refused), IsRefused, receipt.writes);
  }

  /** The identities of the writes of one key, each once, in the order they were touched. */
  function RefsFor(key: EntryKey, writes: seq<WriteExecution>): seq<EffectRef> {
    if writes == [] then []
    else
      var refs, w := RefsFor(key, writes[..|writes| - 1]), writes[|writes| - 1];
      if KeyOfWrite(w) == key then AppendRef(refs, w.ref) else refs
  }

  function HasKey(key: EntryKey): WriteExecution -> bool {
    (w: WriteExecution) => KeyOfWrite(w) == key
  }

  /** An entry is its group: how many writes share its key, and which identities they touched. */
  predicate IsGroup(e: ExecutionEntry, writes: seq<WriteExecution>) {
    e.count == |Keep(HasKey(KeyOfEntry(e)), writes)| && e.refs == RefsFor(KeyOfEntry(e), writes)
  }

  lemma {:induction false} NoEntryNoWrites(writes: seq<WriteExecution>, key: EntryKey)
    requires EntryFor(EntriesOf(writes), key) == |EntriesOf(writes)|
    ensures Keep(HasKey(key), writes) == [] && RefsFor(key, writes) == []
  {
    if writes != [] {
      var init, w := writes[..|writes| - 1], writes[|writes| - 1];
      AddWriteFinds(EntriesOf(init), w);
      assert EntryFor(AddWrite(EntriesOf(init), w), key) == |EntriesOf(writes)|;
      assert |EntriesOf(init)| <= |EntriesOf(writes)|;
      if EntryFor(EntriesOf(init), KeyOfWrite(w)) == |EntriesOf(init)| {
        assert |EntriesOf(writes)| == |EntriesOf(init)| + 1;
      }
      NoEntryNoWrites(init, key);
    }
  }

  /** One more write: its own group grows, every other group stays. */
  lemma GroupGrows(writes: seq<WriteExecution>, w: WriteExecution, key: EntryKey)
    ensures var all := writes + [w];
            && |Keep(HasKey(key), all)| == |Keep(HasKey(key), writes)| + (if KeyOfWrite(w) == key then 1 else 0)
            && RefsFor(key, all) ==
               if KeyOfWrite(w) == key then AppendRef(RefsFor(key, writes), w.ref) else RefsFor(key, writes)
  {
    assert (writes + [w])[..|writes|] == writes;
  }

  /** The fold is a group-by. Every entry is exactly the group of its key, no two entries share a
      key, and every write has its entry. */
  lemma {:induction false} EntriesAreGroups(writes: seq<WriteExecution>)
    ensures var entries := EntriesOf(writes);
            && (forall i :: 0 <= i < |entries| ==> IsGroup(entries[i], writes))
            && (forall i :: 0 <= i < |entries| ==> EntryFor(entries, KeyOfEntry(entries[i])) == i)
            && (forall w :: w in writes ==> EntryFor(entries, KeyOfWrite(w)) < |entries|)
  {
    if writes != [] {
      var init, w := writes[..|writes| - 1], writes[|writes| - 1];
      var before, after := EntriesOf(init), EntriesOf(writes);
      assert writes == init + [w];
      EntriesAreGroups(init);
      AddWriteFinds(before, w);
      forall i | 0 <= i < |after|
        ensures IsGroup(after[i], writes) && EntryFor(after, KeyOfEntry(after[i])) == i
      {
        OneEntryIsItsGroup(init, w, before, after, i);
      }
    }
  }

  /** One entry of the fold after one more write, given the same entry before it. */
  lemma OneEntryIsItsGroup(init: seq<WriteExecution>, w: WriteExecution, before: seq<ExecutionEntry>,
                           after: seq<ExecutionEntry>, i: nat)
    requires before == EntriesOf(init) && after == AddWrite(before, w) && i < |after|
    requires i < |before| ==> IsGroup(before[i], init) && EntryFor(before, KeyOfEntry(before[i])) == i
    ensures IsGroup(after[i], init + [w]) && EntryFor(after, KeyOfEntry(after[i])) == i
  {
    AddWriteFinds(before, w);
    GroupGrows(init, w, KeyOfEntry(after[i]));
    if i == |before| {
      NoEntryNoWrites(init, KeyOfWrite(w));
    }
  }

  /** Some write of that key touched that entity, and named it well. */
  predicate Touched(key: EntryKey, writes: seq<WriteExecution>, r: EffectRef) {
    exists w :: w in writes && KeyOfWrite(w) == key && w.ref == Some(r) && r.Valid()
  }

  lemma TouchedGrows(key: EntryKey, writes: seq<WriteExecution>, w: WriteExecution, r: EffectRef)
    ensures Touched(key, writes + [w], r) <==>
            Touched(key, writes, r) || (KeyOfWrite(w) == key && w.ref == Some(r) && r.Valid())
  {
    var all := writes + [w];
    if Touched(key, writes, r) {
      var x :| x in writes && KeyOfWrite(x) == key && x.ref == Some(r) && r.Valid();
      assert x in all;
    }
    assert w in all;
  }

  /** The identities of a group are exactly the valid ones its writes touched, without repetition. */
  lemma {:induction false} RefsAreDistinctAndComplete(key: EntryKey, writes: seq<WriteExecution>)
    ensures var refs := RefsFor(key, writes);
            && (forall i, j :: 0 <= i < j < |refs| ==> refs[i] != refs[j])
            && (forall r :: r in refs <==> Touched(key, writes, r))
  {
    if writes != [] {
      var init, last := writes[..|writes| - 1], writes[|writes| - 1];
      RefsAreDistinctAndComplete(key, init);
      forall r ensures r in RefsFor(key, writes) <==> Touched(key, writes, r) {
        assert writes == init + [last];
        TouchedGrows(key, init, last, r);
      }
    }
  }

  /* ---- the text ---- */

  function StatusText(s: WriteStatus): string {
    match s
    case Requested => "REQUESTED"
    case Executed => "EXECUTED"
    case WriteFailed => "FAILED"
    case Refused => "NOT_EXECUTED"
  }

  function CodeText(c: ErrorCode): string {
    match c
    case NoCode => ""
    case NotFound => "tool_not_found"
    case NotAuthorized => "tool_not_authorized"
    case InvalidArguments => "tool_invalid_arguments"
    case ExecutionFailed => "tool_execution_failed"
    case Timeout => "tool_timeout"
    case RoundLimit => "tool_round_limit"
    case TurnStopped => "tool_turn_stopped"
    case Custom(text) => text
  }

  function Itoa(n: nat): string {
    if n < 10 then [('0' as int + n) as char] else Itoa(n / 10) + [('0' as int + n % 10) as char]
  }

  function RefsText(refs: seq<EffectRef>): string {
    if refs == [] then "" else RefsText(refs[..|refs| - 1]) + " ref=" + refs[|refs| - 1].Text()
  }

  function EntryText(e: ExecutionEntry): string {
    StatusText(e.status) + " " + e.capability + " x" + Itoa(e.count)
    + (if CodeText(e.errorCode) != "" then " " + CodeText(e.errorCode) else "")
    + RefsText(e.refs) + "\n"
  }

  function EntriesText(entries: seq<ExecutionEntry>): string {
    if entries == [] then "" else EntriesText(entries[..|entries| - 1]) + EntryText(entries[|entries| - 1])
  }

  function TurnText(t: ExecutionTurn): string {
    TURN_MARKER + EntriesText(t.entries)
  }

  function TurnCost(t: ExecutionTurn): int { |TurnText(t)| }

  function RenderExecutionBlock(turns: seq<ExecutionTurn>): string {
    if turns == [] then EXECUTION_HEADER
    else RenderExecutionBlock(turns[..|turns| - 1]) + TurnText(turns[|turns| - 1])
  }

  lemma {:induction false} ExecutionBlockLength(turns: seq<ExecutionTurn>)
    ensures |RenderExecutionBlock(turns)| == |EXECUTION_HEADER| + SumBy(TurnCost, turns)
  {
    if turns != [] {
      ExecutionBlockLength(turns[..|turns| - 1]);
    }
  }

  /* ---- the selection ---- */

  function OfMessage(id: int): ToolCallRecord -> bool {
    (r: ToolCallRecord) => r.messageId == id
  }

  function TurnFor(records: seq<ToolCallRecord>): int -> ExecutionTurn {
    id => TurnOf(id, Keep(OfMessage(id), records))
  }

  predicate HasEntries(t: ExecutionTurn) { t.entries != [] }

  /** The turns of the window that wrote anything, in the order of the history. */
  function WritingTurns(order: seq<int>, records: seq<ToolCallRecord>): seq<ExecutionTurn> {
    Keep(HasEntries, Apply(TurnFor(records), order))
  }

  function ExecutionOf(order: seq<int>, records: seq<ToolCallRecord>, budget: int): ExecutionEvidence {
    var s := ChosenTurns(order, records, budget);
    ExecutionEvidence(Reverse(s.selected), |s.dropped|, SumBy(TurnCost, s.dropped))
  }

  lemma WritingTurnsGrow(order: seq<int>, records: seq<ToolCallRecord>)
    requires order != []
    ensures var t := TurnOf(order[0], Keep(OfMessage(order[0]), records));
            WritingTurns(order, records) ==
            if t.entries == [] then WritingTurns(order[1..], records) else [t] + WritingTurns(order[1..], records)
  {
    assert order == [order[0]] + order[1..];
    KeepApplyPrepend(HasEntries, TurnFor(records), order[0], order[1..]);
  }

  /** The records of every message, as the map the selection builds. */
  method GroupByMessage(records: seq<ToolCallRecord>) returns (byMessage: map<int, seq<ToolCallRecord>>)
    ensures forall id :: (if id in byMessage then byMessage[id] else []) == Keep(OfMessage(id), records)
  {
    byMessage := map[];
    for i := 0 to |records|
      invariant forall id :: (if id in byMessage then byMessage[id] else []) == Keep(OfMessage(id), records[..i])
    {
      assert records[..i + 1][..i] == records[..i];
      var id := records[i].messageId;
      var group := if id in byMessage then byMessage[id] else [];
      byMessage := byMessage[id := group + [records[i]]];
    }
    assert records[..|records|] == records;
  }

  /** What the walk over the window keeps in its variables. */
  datatype TurnTally = TurnTally(picked: seq<ExecutionTurn>, used: int, dropped: int, chars: int)

  ghost predicate TalliesTurns(t: TurnTally, s: Selection<ExecutionTurn>) {
    t.picked == s.selected && t.used == s.used && t.dropped == |s.dropped| && t.chars == SumBy(TurnCost, s.dropped)
  }

  /** One step of that walk: a turn that wrote nothing is passed over. */
  method ConsiderTurn(t: TurnTally, turn: ExecutionTurn, budget: int, ghost s: Selection<ExecutionTurn>)
    returns (next: TurnTally)
    requires TalliesTurns(t, s)
    ensures TalliesTurns(next, if turn.entries == [] then s else Pick(s, turn, budget, TurnCost))
  {
    if |turn.entries| == 0 {
      return t;
    }
    var cost := |TurnText(turn)|;
    if t.used + cost > budget {
      assert (s.dropped + [turn])[..|s.dropped|] == s.dropped;
      return t.(dropped := t.dropped + 1, chars := t.chars + cost);
    }
    return t.(used := t.used + cost, picked := t.picked + [turn]);
  }

  function ChosenTurns(order: seq<int>, records: seq<ToolCallRecord>, budget: int): Selection<ExecutionTurn> {
    NewestFirst(WritingTurns(order, records), budget, |EXECUTION_HEADER|, TurnCost)
  }

  lemma ChosenTurnsGrow(order: seq<int>, records: seq<ToolCallRecord>, budget: int)
    requires order != []
    ensures var t := TurnOf(order[0], Keep(OfMessage(order[0]), records));
            var later := ChosenTurns(order[1..], records, budget);
            ChosenTurns(order, records, budget) == if t.entries == [] then later else Pick(later, t, budget, TurnCost)
  {
    WritingTurnsGrow(order, records);
    NewestFirstGrows(TurnOf(order[0], Keep(OfMessage(order[0]), records)), WritingTurns(order[1..], records),
                     budget, |EXECUTION_HEADER|, TurnCost);
  }

  /** `SelectExecutionEvidence`. */
  method SelectExecutionEvidence(order: seq<int>, records: seq<ToolCallRecord>, budget: int)
    returns (out: ExecutionEvidence)
    ensures out == ExecutionOf(order, records, budget)
  {
    var byMessage := GroupByMessage(records);
    var t := TurnTally([], |EXECUTION_HEADER|, 0, 0);
    assert order[|order|..] == [];
    var i := |order|;
    while i > 0
      invariant 0 <= i <= |order|
      invariant TalliesTurns(t, ChosenTurns(order[i..], records, budget))
    {
      i := i - 1;
      assert order[i..][1..] == order[i + 1..];
      ChosenTurnsGrow(order[i..], records, budget);
      var turn := ExecutionTurnFor(order[i], if order[i] in byMessage then byMessage[order[i]] else []);
      t := ConsiderTurn(t, turn, budget, ChosenTurns(order[i + 1..], records, budget));
    }
    assert order[0..] == order;
    var turns := Reversed(t.picked);
    out := ExecutionEvidence(turns, t.dropped, t.chars);
  }

  /** What is carried: turns that wrote something, in the order of the history; within the budget
      once there is anything; and no writing turn that was left out would still fit. */
  lemma CarriedExecution(order: seq<int>, records: seq<ToolCallRecord>, budget: int)
    ensures var turns := ExecutionOf(order, records, budget).turns;
            && Subsequence(turns, Apply(TurnFor(records), order))
            && (turns != [] ==> |RenderExecutionBlock(turns)| <= budget)
            && (forall t :: t in turns ==> t.entries != [])
            && (forall t :: t in WritingTurns(order, records) && t !in turns ==>
                  |RenderExecutionBlock(turns)| + TurnCost(t) > budget)
  {
    var all, every := WritingTurns(order, records), Apply(TurnFor(records), order);
    var turns := ExecutionOf(order, records, budget).turns;
    NewestThatFitIsWhole(all, budget, |EXECUTION_HEADER|, TurnCost);
    KeepIsSubsequence(HasEntries, every);
    SubsequenceChain(turns, all, every);
    SubsequenceMembers(turns, all);
    KeepSound(HasEntries, every);
    ExecutionBlockLength(turns);
    forall t | t in all && t !in turns ensures |RenderExecutionBlock(turns)| + TurnCost(t) > budget {
      NothingNewerFits(all, budget, |EXECUTION_HEADER|, TurnCost, t);
    }
  }
}
