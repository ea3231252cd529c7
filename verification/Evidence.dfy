/** Which of a conversation's recorded calls a later turn carries: the newest usable copy of each
    call, newest first while the budget lasts, in the order things happened. */
module Evidence {
  import opened Sequences
  import opened Tools
  import opened Selection

  // The header and the note of a cut entry: arbitrary, but fixed.
  const EVIDENCE_HEADER: string
  const EVIDENCE_CUT_NOTE: string
  const MARKER_PREFIX := "\n\n### "
  const MARKER_ARGS := " "
  const MARKER_END := "\n"

  datatype EvidenceItem = EvidenceItem(tool: ToolName, arguments: string, result: string, truncatedChars: int)

  /** What a turn will carry and an account of what it will not. */
  datatype EvidenceSelection = EvidenceSelection(
    items: seq<EvidenceItem>,
    failedItems: int,
    supersededItems: int,
    droppedItems: int,
    droppedChars: int,
    truncatedChars: int)

  /* ---- one record ---- */

  /** A call that observed something and may be replayed. */
  predicate Usable(r: ToolCallRecord) {
    r.status.Ok? && !r.redacted && r.result.Some? && r.result.value != ""
  }

  function ArgumentsOf(r: ToolCallRecord): string {
    if r.arguments.Some? then r.arguments.value else ""
  }

  /** The key two calls share when they asked the same thing. */
  function KeyOf(r: ToolCallRecord): string {
    r.tool + "\0" + ArgumentsOf(r)
  }

  function Truncated(s: string, max: int): string {
    if max <= 0 || |s| <= max then s else s[..max]
  }

  function CutOf(s: string, max: int): int {
    if max <= 0 || |s| <= max then 0 else |s| - max
  }

  /** `truncateRunes`, walking the text up to the cut. */
  method TruncateRunes(s: string, max: int) returns (text: string, cut: int)
    ensures text == Truncated(s, max) && cut == CutOf(s, max)
    ensures |text| + cut == |s| && text <= s && (max > 0 ==> |text| <= max)
  {
    if max <= 0 || |s| <= max {
      return s, 0;
    }
    var i, n := 0, 0;
    while i < |s| && n != max
      invariant i == n && 0 <= n <= max && i <= |s|
    {
      n := n + 1;
      i := i + 1;
    }
    return s[..i], |s| - max;
  }

  function ItemOf(r: ToolCallRecord, perItem: int): EvidenceItem {
    var result := if r.result.Some? then r.result.value else "";
    EvidenceItem(r.tool, ArgumentsOf(r), Truncated(result, perItem), CutOf(result, perItem))
  }

  function Carrying(perItem: int): ToolCallRecord -> EvidenceItem {
    r => ItemOf(r, perItem)
  }

  function ItemCost(it: EvidenceItem): int {
    |MARKER_PREFIX| + |MARKER_ARGS| + |MARKER_END| + |it.tool| + |it.arguments| + |it.result|
    + (if it.truncatedChars > 0 then |EVIDENCE_CUT_NOTE| else 0)
  }

  function CutLength(it: EvidenceItem): int { it.truncatedChars }

  /* ---- the rule ---- */

  function UsableKeys(records: seq<ToolCallRecord>): set<string> {
    if records == [] then {}
    else if Usable(records[0]) then UsableKeys(records[1..]) + {KeyOf(records[0])}
    else UsableKeys(records[1..])
  }

  /** The newest usable copy of each call, oldest first. */
  function Newest(records: seq<ToolCallRecord>): seq<ToolCallRecord> {
    if records == [] then []
    else if Usable(records[0]) && KeyOf(records[0]) !in UsableKeys(records[1..]) then
      [records[0]] + Newest(records[1..])
    else Newest(records[1..])
  }

  function UsableCount(records: seq<ToolCallRecord>): nat {
    if records == [] then 0 else UsableCount(records[1..]) + (if Usable(records[0]) then 1 else 0)
  }

  function Candidates(records: seq<ToolCallRecord>, perItem: int): seq<EvidenceItem> {
    Apply(Carrying(perItem), Newest(records))
  }

  /** The state of the backward walk over a suffix of the records. */
  datatype Walk = Walk(seen: set<string>, failed: int, superseded: int, chosen: Selection<EvidenceItem>)

  function WalkOf(records: seq<ToolCallRecord>, budget: int, perItem: int): Walk {
    Walk(UsableKeys(records), |records| - UsableCount(records), UsableCount(records) - |Newest(records)|,
         NewestFirst(Candidates(records, perItem), budget, |EVIDENCE_HEADER|, ItemCost))
  }

  /** What one more, older record does to the walk. */
  function WalkStep(w: Walk, r: ToolCallRecord, budget: int, perItem: int): Walk {
    if !Usable(r) then w.(failed := w.failed + 1)
    else if KeyOf(r) in w.seen then w.(superseded := w.superseded + 1)
    else w.(seen := w.seen + {KeyOf(r)}, chosen := Pick(w.chosen, ItemOf(r, perItem), budget, ItemCost))
  }

  lemma NewCopy(records: seq<ToolCallRecord>, budget: int, perItem: int)
    requires records != [] && Usable(records[0]) && KeyOf(records[0]) !in UsableKeys(records[1..])
    ensures NewestFirst(Candidates(records, perItem), budget, |EVIDENCE_HEADER|, ItemCost) ==
            Pick(NewestFirst(Candidates(records[1..], perItem), budget, |EVIDENCE_HEADER|, ItemCost),
                 ItemOf(records[0], perItem), budget, ItemCost)
    ensures |Newest(records)| == |Newest(records[1..])| + 1
  {
    ApplyPrepend(Carrying(perItem), records[0], Newest(records[1..]));
    NewestFirstGrows(ItemOf(records[0], perItem), Candidates(records[1..], perItem), budget, |EVIDENCE_HEADER|,
        ItemCost);
  }

  /** What `SelectEvidence` decides: of the newest usable copies, the newest that fit. */
  function EvidenceOf(records: seq<ToolCallRecord>, budget: int, perItem: int): EvidenceSelection {
    Summary(WalkOf(records, budget, perItem))
  }

  function Summary(w: Walk): EvidenceSelection {
    EvidenceSelection(Reverse(w.chosen.selected), w.failed, w.superseded, |w.chosen.dropped|,
                      SumBy(ItemCost, w.chosen.dropped), SumBy(CutLength, w.chosen.selected))
  }

  /** What the walk keeps in its variables. */
  datatype Tally = Tally(
    seen: set<string>,
    picked: seq<EvidenceItem>,
    used: int,
    failed: int,
    superseded: int,
    droppedItems: int,
    droppedChars: int,
    truncatedChars: int)

  ghost predicate Tallies(t: Tally, w: Walk) {
    && t.seen == w.seen && t.failed == w.failed && t.superseded == w.superseded
    && t.picked == w.chosen.selected && t.used == w.chosen.used
    && t.droppedItems == |w.chosen.dropped| && t.droppedChars == SumBy(ItemCost, w.chosen.dropped)
    && t.truncatedChars == SumBy(CutLength, w.chosen.selected)
  }

  /** One more record: the walk over it is the walk over the later ones, stepped once. */
  lemma WalkGrows(t: Tally, records: seq<ToolCallRecord>, w: Walk, budget: int, perItem: int)
    requires records != [] && w == WalkOf(records[1..], budget, perItem)
    requires Tallies(t, WalkStep(w, records[0], budget, perItem))
    ensures Tallies(t, WalkOf(records, budget, perItem))
  {
    var r, rest := records[0], records[1..];
    if Usable(r) && KeyOf(r) !in UsableKeys(rest) {
      NewCopy(records, budget, perItem);
    } else {
    }
  }

  /** One step of the walk: the body of the loop. */
  method Consider(t: Tally, rec: ToolCallRecord, budget: int, perItem: int, ghost w: Walk)
    returns (next: Tally)
    requires Tallies(t, w)
    ensures Tallies(next, WalkStep(w, rec, budget, perItem))
  {
    if !rec.status.Ok? || rec.redacted || rec.result.None? || rec.result.value == "" {
      return t.(failed := t.failed + 1);
    }
    var args := "";
    if rec.arguments.Some? {
      args := rec.arguments.value;
    }
    var key := rec.tool + "\0" + args;
    if key in t.seen {
      return t.(superseded := t.superseded + 1);
    }
    var text, cut := TruncateRunes(rec.result.value, perItem);
    var item := EvidenceItem(rec.tool, args, text, cut);
    assert item == ItemOf(rec, perItem);
    var cost := ItemCost(item);
    if t.used + cost > budget {
      assert (w.chosen.dropped + [item])[..|w.chosen.dropped|] == w.chosen.dropped;
      return t.(seen := t.seen + {key}, droppedItems := t.droppedItems + 1, droppedChars := t.droppedChars + cost);
    }
    assert (w.chosen.selected + [item])[..|w.chosen.selected|] == w.chosen.selected;
    return t.(seen := t.seen + {key}, picked := t.picked + [item], used := t.used + cost,
              truncatedChars := t.truncatedChars + cut);
  }

  /** `SelectEvidence`: one walk from the newest record to the oldest. */
  method SelectEvidence(records: seq<ToolCallRecord>, budget: int, perItem: int) returns (out: EvidenceSelection)
    ensures out == EvidenceOf(records, budget, perItem)
  {
    if |records| == 0 {
      return EvidenceSelection([], 0, 0, 0, 0, 0);
    }
    var t := Tally({}, [], |EVIDENCE_HEADER|, 0, 0, 0, 0, 0);
    assert records[|records|..] == [];
    var i := |records|;
    while i > 0
      invariant 0 <= i <= |records|
      invariant Tallies(t, WalkOf(records[i..], budget, perItem))
    {
      i := i - 1;
      assert records[i..][1..] == records[i + 1..];
      ghost var w := WalkOf(records[i + 1..], budget, perItem);
      t := Consider(t, records[i], budget, perItem, w);
      WalkGrows(t, records[i..], w, budget, perItem);
    }
    assert records[0..] == records;
    var items := Reversed(t.picked);
    out := EvidenceSelection(items, t.failed, t.superseded, t.droppedItems, t.droppedChars, t.truncatedChars);
  }

  /* ---- what it means ---- */

  /** The newest usable record of a key, if there is one. */
  function LastOf(records: seq<ToolCallRecord>, key: string): Option<ToolCallRecord> {
    if records == [] then None
    else
      var later := LastOf(records[1..], key);
      if later.Some? then later
      else if Usable(records[0]) && KeyOf(records[0]) == key then Some(records[0])
      else None
  }

  /** `LastOf` is what its name says: usable, of that key, and with no usable record of that key
      after it. */
  lemma {:induction false} LastOfMeans(records: seq<ToolCallRecord>, key: string)
    ensures var last := LastOf(records, key);
            && (last.None? ==> forall i :: 0 <= i < |records| ==> !(Usable(records[i]) && KeyOf(records[i]) == key))
            && (last.Some? ==>
                  exists i :: 0 <= i < |records| && records[i] == last.value
                    && Usable(records[i]) && KeyOf(records[i]) == key
                    && forall j :: i < j < |records| ==> !(Usable(records[j]) && KeyOf(records[j]) == key))
  {
    if records != [] {
      var rest := records[1..];
      LastOfMeans(rest, key);
      var later := LastOf(rest, key);
      assert forall i :: 0 < i < |records| ==> records[i] == rest[i - 1];
      if later.Some? {
        var i :| 0 <= i < |rest| && rest[i] == later.value && Usable(rest[i]) && KeyOf(rest[i]) == key
                 && forall j :: i < j < |rest| ==> !(Usable(rest[j]) && KeyOf(rest[j]) == key);
        assert records[i + 1] == later.value;
      } else if Usable(records[0]) && KeyOf(records[0]) == key {
        assert records[0] == LastOf(records, key).value;
      }
    }
  }

  lemma {:induction false} KeysAreUsable(records: seq<ToolCallRecord>, key: string)
    ensures key in UsableKeys(records) <==> LastOf(records, key).Some?
  {
    if records != [] {
      KeysAreUsable(records[1..], key);
    }
  }

  /** What may be carried is exactly the newest usable record of each key: an older copy never
      stands in for it, whatever becomes of the newest. */
  lemma {:induction false} CandidatesAreNewest(records: seq<ToolCallRecord>, r: ToolCallRecord)
    ensures r in Newest(records) <==> LastOf(records, KeyOf(r)) == Some(r)
  {
    if records != [] {
      var rest := records[1..];
      CandidatesAreNewest(rest, r);
      KeysAreUsable(rest, KeyOf(records[0]));
      if LastOf(rest, KeyOf(r)).Some? {
        LastHasKey(rest, KeyOf(r));
      }
      if Usable(records[0]) && KeyOf(records[0]) !in UsableKeys(rest) {
        assert r in Newest(records) <==> r == records[0] || r in Newest(rest);
      }
    }
  }

  lemma {:induction false} LastHasKey(records: seq<ToolCallRecord>, key: string)
    requires LastOf(records, key).Some?
    ensures Usable(LastOf(records, key).value) && KeyOf(LastOf(records, key).value) == key
    ensures LastOf(records, key).value in records
  {
    if LastOf(records[1..], key).Some? {
      LastHasKey(records[1..], key);
      assert records == [records[0]] + records[1..];
    } else {
      assert records[0] in records;
    }
  }

  lemma {:induction false} CandidatesInOrder(records: seq<ToolCallRecord>)
    ensures Subsequence(Newest(records), records)
  {
    if records != [] {
      CandidatesInOrder(records[1..]);
      SubsequencePrepend(records[0], Newest(records[1..]), records[1..]);
      assert [records[0]] + records[1..] == records;
    }
  }

  /** The key is the call: as long as no tool name holds a NUL, equal keys mean equal tools and equal
      arguments. */
  lemma KeyIsTheCall(a: ToolCallRecord, b: ToolCallRecord)
    requires '\0' !in a.tool && '\0' !in b.tool
    ensures KeyOf(a) == KeyOf(b) <==> a.tool == b.tool && ArgumentsOf(a) == ArgumentsOf(b)
  {
    if KeyOf(a) == KeyOf(b) {
      NulEndsTheName(a.tool, ArgumentsOf(a), b.tool, ArgumentsOf(b));
      NulEndsTheName(b.tool, ArgumentsOf(b), a.tool, ArgumentsOf(a));
      assert KeyOf(a)[..|a.tool|] == a.tool && KeyOf(b)[..|b.tool|] == b.tool;
      assert KeyOf(a)[|a.tool| + 1..] == ArgumentsOf(a) && KeyOf(b)[|b.tool| + 1..] == ArgumentsOf(b);
    }
  }

  lemma NulEndsTheName(t: string, a: string, u: string, b: string)
    requires '\0' !in u && t + "\0" + a == u + "\0" + b
    ensures |u| <= |t|
  {
    var key := t + "\0" + a;
    assert key[|t|] == '\0';
    assert forall i :: 0 <= i < |u| ==> (u + "\0" + b)[i] == u[i] && u[i] != '\0';
  }

  /* ---- the block ---- */

  function RenderEvidenceBlock(items: seq<EvidenceItem>): string {
    if items == [] then EVIDENCE_HEADER
    else
      var it := items[|items| - 1];
      RenderEvidenceBlock(items[..|items| - 1])
      + MARKER_PREFIX + it.tool + MARKER_ARGS + it.arguments + MARKER_END + it.result
      + (if it.truncatedChars > 0 then EVIDENCE_CUT_NOTE else "")
  }

  method WriteEvidenceBlock(items: seq<EvidenceItem>) returns (text: string)
    ensures text == RenderEvidenceBlock(items)
  {
    text := EVIDENCE_HEADER;
    for i := 0 to |items|
      invariant text == RenderEvidenceBlock(items[..i])
    {
      assert items[..i + 1][..i] == items[..i];
      var it := items[i];
      text := text + MARKER_PREFIX + it.tool + MARKER_ARGS + it.arguments + MARKER_END + it.result
              + (if it.truncatedChars > 0 then EVIDENCE_CUT_NOTE else "");
    }
    assert items[..|items|] == items;
  }

  lemma {:induction false} EvidenceBlockLength(items: seq<EvidenceItem>)
    ensures |RenderEvidenceBlock(items)| == |EVIDENCE_HEADER| + SumBy(ItemCost, items)
  {
    if items != [] {
      EvidenceBlockLength(items[..|items| - 1]);
    }
  }

  /** What is carried. It is made of the newest usable copies alone, in the order they happened; the
      block it renders to fits the budget once there is anything in it; and no newest copy that was
      left out would still fit beside what was carried. */
  lemma CarriedEvidence(records: seq<ToolCallRecord>, budget: int, perItem: int)
    ensures var items := EvidenceOf(records, budget, perItem).items;
            && Subsequence(items, Candidates(records, perItem))
            && (items != [] ==> |RenderEvidenceBlock(items)| <= budget)
            && forall it :: it in Candidates(records, perItem) && it !in items ==>
                 |RenderEvidenceBlock(items)| + ItemCost(it) > budget
  {
    var all := Candidates(records, perItem);
    var items := EvidenceOf(records, budget, perItem).items;
    NewestThatFitIsWhole(all, budget, |EVIDENCE_HEADER|, ItemCost);
    EvidenceBlockLength(items);
    forall it | it in all && it !in items ensures |RenderEvidenceBlock(items)| + ItemCost(it) > budget {
      NothingNewerFits(all, budget, |EVIDENCE_HEADER|, ItemCost, it);
    }
  }

  function CallKey(it: EvidenceItem): string { it.tool + "\0" + it.arguments }

  lemma {:induction false} CandidatesDiffer(records: seq<ToolCallRecord>, perItem: int)
    ensures Distinct(CallKey, Reverse(Candidates(records, perItem)))
    ensures Images(CallKey, Reverse(Candidates(records, perItem))) == UsableKeys(records)
  {
    if records != [] {
      CandidatesDiffer(records[1..], perItem);
      if Usable(records[0]) && KeyOf(records[0]) !in UsableKeys(records[1..]) {
        NewCopyDiffers(records[0], records[1..], perItem);
      }
    }
  }

  lemma NewCopyDiffers(r: ToolCallRecord, rest: seq<ToolCallRecord>, perItem: int)
    requires KeyOf(r) !in UsableKeys(rest)
    requires Distinct(CallKey, Reverse(Candidates(rest, perItem)))
    requires Images(CallKey, Reverse(Candidates(rest, perItem))) == UsableKeys(rest)
    ensures var all := Reverse(Apply(Carrying(perItem), [r] + Newest(rest)));
            Distinct(CallKey, all) && Images(CallKey, all) == UsableKeys(rest) + {KeyOf(r)}
  {
    assert KeyOf(r) == CallKey(ItemOf(r, perItem));
    CandidatesReversed(r, Newest(rest), perItem);
  }

  lemma CandidatesReversed(r: ToolCallRecord, rest: seq<ToolCallRecord>, perItem: int)
    ensures Reverse(Apply(Carrying(perItem), [r] + rest)) ==
            Reverse(Apply(Carrying(perItem), rest)) + [ItemOf(r, perItem)]
  {
    ApplyPrepend(Carrying(perItem), r, rest);
    ReversePrepend(ItemOf(r, perItem), Apply(Carrying(perItem), rest));
  }

  /** No call is carried twice: no two carried items share a tool and its arguments. */
  lemma NoCallIsCarriedTwice(records: seq<ToolCallRecord>, budget: int, perItem: int)
    ensures var items := EvidenceOf(records, budget, perItem).items;
            forall i, j :: 0 <= i < j < |items| ==>
              !(items[i].tool == items[j].tool && items[i].arguments == items[j].arguments)
  {
    var order := Reverse(Candidates(records, perItem));
    var s := Select(order, budget, |EVIDENCE_HEADER|, ItemCost);
    CandidatesDiffer(records, perItem);
    SelectionSplits(order, budget, |EVIDENCE_HEADER|, ItemCost);
    InterleavesOrders(order, s.selected, s.dropped);
    DistinctSubsequence(CallKey, s.selected, order);
    DistinctMeans(CallKey, s.selected);
    ReverseAt(s.selected);
  }

  /* ---- what becomes of each record ---- */

  /** A usable copy of a call that a later record made again. */
  predicate IsOlder(records: seq<ToolCallRecord>, i: nat)
    requires i < |records|
  {
    Usable(records[i]) && KeyOf(records[i]) in UsableKeys(records[i + 1..])
  }

  /** The last usable copy of its call. */
  predicate IsNewest(records: seq<ToolCallRecord>, i: nat)
    requires i < |records|
  {
    Usable(records[i]) && KeyOf(records[i]) !in UsableKeys(records[i + 1..])
  }

  function UnusableCount(records: seq<ToolCallRecord>): nat {
    if records == [] then 0 else (if Usable(records[0]) then 0 else 1) + UnusableCount(records[1..])
  }

  function OlderCount(records: seq<ToolCallRecord>): nat {
    if records == [] then 0 else (if IsOlder(records, 0) then 1 else 0) + OlderCount(records[1..])
  }

  /** The newest copies the budget left out. */
  function LeftOut(records: seq<ToolCallRecord>, budget: int, perItem: int): seq<EvidenceItem> {
    WalkOf(records, budget, perItem).chosen.dropped
  }

  lemma {:induction false} CountsAreCounts(records: seq<ToolCallRecord>)
    ensures |records| - UsableCount(records) == UnusableCount(records)
    ensures UsableCount(records) - |Newest(records)| == OlderCount(records)
  {
    if records != [] {
      CountsAreCounts(records[1..]);
    }
  }

  lemma {:induction false} NewestIsCandidate(records: seq<ToolCallRecord>, i: nat)
    requires i < |records| && IsNewest(records, i)
    ensures records[i] in Newest(records)
  {
    if i > 0 {
      assert records[1..][i..] == records[i + 1..];
      NewestIsCandidate(records[1..], i - 1);
    }
  }

  /** A newest copy is carried or left out, and not both. */
  lemma NewestIsCarriedOrLeftOut(records: seq<ToolCallRecord>, budget: int, perItem: int, i: nat)
    requires i < |records| && IsNewest(records, i)
    ensures var it := ItemOf(records[i], perItem);
            it in EvidenceOf(records, budget, perItem).items <==> it !in LeftOut(records, budget, perItem)
  {
    var it, order := ItemOf(records[i], perItem), Reverse(Candidates(records, perItem));
    var s := Select(order, budget, |EVIDENCE_HEADER|, ItemCost);
    NewestIsCandidate(records, i);
    ApplyMember(Carrying(perItem), Newest(records), records[i]);
    ReverseHas(Candidates(records, perItem), it);
    CandidatesDiffer(records, perItem);
    SelectionSplits(order, budget, |EVIDENCE_HEADER|, ItemCost);
    SplitOnce(CallKey, order, s.selected, s.dropped, it);
    ReverseHas(s.selected, it);
  }

  /** What becomes of every record. The failed ones are those that are not usable, the superseded
      ones the usable ones that a later record repeats, and each of the others, the newest copies, is
      either carried or left out by the budget. */
  lemma EveryRecordIsAccountedFor(records: seq<ToolCallRecord>, budget: int, perItem: int)
    ensures var e, out := EvidenceOf(records, budget, perItem), LeftOut(records, budget, perItem);
            && e.failedItems == UnusableCount(records)
            && e.supersededItems == OlderCount(records)
            && e.droppedItems == |out|
            && |e.items| + e.failedItems + e.supersededItems + e.droppedItems == |records|
            && forall i :: 0 <= i < |records| && IsNewest(records, i) ==>
                 (ItemOf(records[i], perItem) in e.items <==> ItemOf(records[i], perItem) !in out)
  {
    var order := Reverse(Candidates(records, perItem));
    var s := Select(order, budget, |EVIDENCE_HEADER|, ItemCost);
    CountsAreCounts(records);
    SelectionSplits(order, budget, |EVIDENCE_HEADER|, ItemCost);
    InterleavesLength(order, s.selected, s.dropped);
    forall i | 0 <= i < |records| && IsNewest(records, i)
      ensures ItemOf(records[i], perItem) in EvidenceOf(records, budget, perItem).items
              <==> ItemOf(records[i], perItem) !in LeftOut(records, budget, perItem)
    {
      NewestIsCarriedOrLeftOut(records, budget, perItem, i);
    }
  }

  /** Every carried item is read off a record that succeeded, was not redacted and is the newest of
      its call; its text is that record's result, whole or cut at the ceiling and marked as cut. */
  lemma CarriedItemHasARecord(records: seq<ToolCallRecord>, budget: int, perItem: int, it: EvidenceItem)
    requires it in EvidenceOf(records, budget, perItem).items
    ensures exists r :: r in records && LastOf(records, KeyOf(r)) == Some(r)
              && r.status.Ok? && !r.redacted && r.result.Some?
              && it.tool == r.tool && it.arguments == ArgumentsOf(r)
              && it.result <= r.result.value && |it.result| + it.truncatedChars == |r.result.value|
  {
    var all := Candidates(records, perItem);
    CarriedEvidence(records, budget, perItem);
    SubsequenceMembers(EvidenceOf(records, budget, perItem).items, all);
    var k :| 0 <= k < |all| && all[k] == it;
    var r := Newest(records)[k];
    assert it == ItemOf(r, perItem);
    CandidatesAreNewest(records, r);
    LastHasKey(records, KeyOf(r));
  }

  /* ---- the subjects of the conversation ---- */

  predicate OccursAt(text: string, part: string, i: nat) {
    i + |part| <= |text| && text[i..i + |part|] == part
  }

  predicate Contains(text: string, part: string) {
    exists i: nat :: i <= |text| && OccursAt(text, part, i)
  }

  predicate MentionsAny(arguments: string, subjects: seq<string>) {
    exists i :: 0 <= i < |subjects| && subjects[i] != "" && Contains(arguments, subjects[i])
  }

  /** The record reads one of the subjects, by their ids. */
  predicate Rereads(r: ToolCallRecord, subjects: seq<string>) {
    r.arguments.Some? && MentionsAny(r.arguments.value, subjects)
  }

  function OffSubject(subjects: seq<string>): ToolCallRecord -> bool {
    r => !Rereads(r, subjects)
  }

  /** `dropReadingsOfSubjects`. */
  method DropReadingsOfSubjects(records: seq<ToolCallRecord>, subjects: seq<string>)
    returns (out: seq<ToolCallRecord>)
    ensures out == Keep(OffSubject(subjects), records)
  {
    if |subjects| == 0 || |records| == 0 {
      NothingToDrop(records, subjects);
      return records;
    }
    out := [];
    for i := 0 to |records|
      invariant out == Keep(OffSubject(subjects), records[..i])
    {
      assert records[..i + 1][..i] == records[..i];
      if !Rereads(records[i], subjects) {
        out := out + [records[i]];
      }
    }
    assert records[..|records|] == records;
  }

  lemma {:induction false} NothingToDrop(records: seq<ToolCallRecord>, subjects: seq<string>)
    requires subjects == [] || records == []
    ensures Keep(OffSubject(subjects), records) == records
  {
    if records != [] {
      NothingToDrop(records[..|records| - 1], subjects);
      assert records == records[..|records| - 1] + [records[|records| - 1]];
    }
  }

  /** A reading of a subject of the conversation is never replayed: no carried item names one. */
  lemma SubjectsAreNeverReplayed(records: seq<ToolCallRecord>, subjects: seq<string>, budget: int, perItem: int,
                                 it: EvidenceItem, subject: string)
    requires it in EvidenceOf(Keep(OffSubject(subjects), records), budget, perItem).items
    requires subject in subjects && subject != ""
    ensures !Contains(it.arguments, subject)
  {
    var kept := Keep(OffSubject(subjects), records);
    CarriedItemHasARecord(kept, budget, perItem, it);
    var r :| r in kept && it.arguments == ArgumentsOf(r);
    KeepSound(OffSubject(subjects), records);
    assert !Rereads(r, subjects);
    var i :| 0 <= i < |subjects| && subjects[i] == subject;
    if r.arguments.None? {
      assert it.arguments == "";
      assert forall k: nat :: k <= 0 ==> !OccursAt("", subject, k);
    }
  }
}
