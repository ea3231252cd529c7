/** What memory and sources contribute to a turn, and the two management pages that say which of
    them do. */
module Pages {
  import opened Sequences
  import opened Estimator
  import opened Selection

  /* ---- memory ---- */

  datatype Memory = Memory(id: int, content: string, enabled: bool)

  const MEMORY_BUDGET := 4000
  // The sentence that introduces the block: arbitrary, but fixed.
  const MEMORY_HEADER: string
  const MEMORY_BULLET := "\n- "

  /** A line break becomes one space, so a memory stays on one bullet and keeps its length. */
  function FlattenLines(s: string): (r: string)
    ensures |r| == |s|
    ensures forall i :: 0 <= i < |s| ==> r[i] != '\n' && r[i] != '\r'
  {
    if s == "" then ""
    else
      var last := s[|s| - 1];
      FlattenLines(s[..|s| - 1]) + [if last == '\n' || last == '\r' then ' ' else last]
  }

  function MemoryCost(m: Memory): int { |MEMORY_BULLET| + |FlattenLines(m.content)| }

  function RenderMemoryBlock(memories: seq<Memory>): string {
    if memories == [] then MEMORY_HEADER
    else RenderMemoryBlock(memories[..|memories| - 1]) + MEMORY_BULLET + FlattenLines(memories[|memories| - 1].content)
  }

  method WriteMemoryBlock(memories: seq<Memory>) returns (text: string)
    ensures text == RenderMemoryBlock(memories)
  {
    text := MEMORY_HEADER;
    for i := 0 to |memories|
      invariant text == RenderMemoryBlock(memories[..i])
    {
      assert memories[..i + 1][..i] == memories[..i];
      text := text + MEMORY_BULLET + FlattenLines(memories[i].content);
    }
    assert memories[..|memories|] == memories;
  }

  function SelectMemories(memories: seq<Memory>, budget: int): Selection<Memory> {
    Select(memories, budget, |MEMORY_HEADER|, MemoryCost)
  }

  /** The block is exactly as long as what its items were charged. */
  lemma {:induction false} MemoryBlockLength(memories: seq<Memory>)
    ensures |RenderMemoryBlock(memories)| == |MEMORY_HEADER| + SumBy(MemoryCost, memories)
  {
    if memories != [] {
      MemoryBlockLength(memories[..|memories| - 1]);
    }
  }

  /** The rendered memory block is what the selection was charged, and within its budget. */
  lemma MemoryBlockFits(memories: seq<Memory>, budget: int)
    ensures var s := SelectMemories(memories, budget);
            && |RenderMemoryBlock(s.selected)| == s.used
            && (s.selected != [] ==> |RenderMemoryBlock(s.selected)| <= budget)
  {
    MemoryBlockLength(SelectMemories(memories, budget).selected);
    SelectionFits(memories, budget, |MEMORY_HEADER|, MemoryCost);
  }

  /* ---- sources ---- */

  /** `characters` is the stored length; `content` is empty when a read left the text behind. */
  datatype Source = Source(id: int, title: string, content: string, characters: int, enabled: bool)

  const SOURCES_BUDGET := 12000
  const SOURCES_HEADER: string
  const SOURCE_TITLE_MARK := "\n\n## "

  function SourceContentChars(s: Source): int {
    if s.content != "" then |s.content| else s.characters
  }

  function SourceCost(s: Source): int {
    |SOURCE_TITLE_MARK| + |s.title| + 1 + SourceContentChars(s)
  }

  predicate SourceExceedsBudget(s: Source, budget: int) {
    |SOURCES_HEADER| + SourceCost(s) > budget
  }

  /** The source as a read that loads its text brings it back. */
  predicate Loaded(s: Source) { s.characters == |s.content| }

  function RenderSourcesBlock(sources: seq<Source>): string {
    if sources == [] then SOURCES_HEADER
    else
      var last := sources[|sources| - 1];
      RenderSourcesBlock(sources[..|sources| - 1]) + SOURCE_TITLE_MARK + last.title + "\n" + last.content
  }

  method WriteSourcesBlock(sources: seq<Source>) returns (text: string)
    ensures text == RenderSourcesBlock(sources)
  {
    text := SOURCES_HEADER;
    for i := 0 to |sources|
      invariant text == RenderSourcesBlock(sources[..i])
    {
      assert sources[..i + 1][..i] == sources[..i];
      text := text + SOURCE_TITLE_MARK + sources[i].title + "\n" + sources[i].content;
    }
    assert sources[..|sources|] == sources;
  }

  function SelectSources(sources: seq<Source>, budget: int): Selection<Source> {
    Select(sources, budget, |SOURCES_HEADER|, SourceCost)
  }

  predicate AllLoaded(sources: seq<Source>) {
    forall i :: 0 <= i < |sources| ==> Loaded(sources[i])
  }

  lemma {:induction false} SourcesBlockLength(sources: seq<Source>)
    requires AllLoaded(sources)
    ensures |RenderSourcesBlock(sources)| == |SOURCES_HEADER| + SumBy(SourceCost, sources)
  {
    if sources != [] {
      assert Loaded(sources[|sources| - 1]);
      SourcesBlockLength(sources[..|sources| - 1]);
    }
  }

  /** Loaded sources: the rendered block is what the selection was charged, within its budget. */
  lemma SourcesBlockFits(sources: seq<Source>, budget: int)
    requires AllLoaded(sources)
    ensures var s := SelectSources(sources, budget);
            && |RenderSourcesBlock(s.selected)| == s.used
            && (s.selected != [] ==> |RenderSourcesBlock(s.selected)| <= budget)
  {
    var s := SelectSources(sources, budget);
    SelectionSplits(sources, budget, |SOURCES_HEADER|, SourceCost);
    InterleavesMeans(sources, s.selected, s.dropped);
    SubsequenceMembers(s.selected, sources);
    forall i | 0 <= i < |s.selected| ensures Loaded(s.selected[i]) {
      assert s.selected[i] in sources;
    }
    SourcesBlockLength(s.selected);
    SelectionFits(sources, budget, |SOURCES_HEADER|, SourceCost);
  }

  predicate Sized(sources: seq<Source>) {
    forall i :: 0 <= i < |sources| ==> sources[i].characters >= 0
  }

  /** A source the page calls oversized is one that no list, in any order, would let in; any other
      is let in by some list. */
  lemma OversizedIffNoListAdmits(s: Source, budget: int)
    requires s.characters >= 0
    ensures SourceExceedsBudget(s, budget) <==>
            forall list :: Sized(list) ==> s !in SelectSources(list, budget).selected
  {
    NoListAdmitsIffTooLarge(s, budget, |SOURCES_HEADER|, SourceCost);
    if SourceExceedsBudget(s, budget) {
      forall list | Sized(list) ensures s !in SelectSources(list, budget).selected {
        TooLargeIsNeverSelected(list, s, budget, |SOURCES_HEADER|, SourceCost);
      }
    } else {
      assert Sized([s]) && s in SelectSources([s], budget).selected;
    }
  }

  /* ---- the pages ---- */

  /** A row of the Sources page: the source without its text, and the marks the page adds. */
  datatype SourceRow = SourceRow(source: Source, inContext: bool, estimatedTokens: int, oversized: bool)

  function SourceOf(row: SourceRow): Source { row.source }
  predicate SourceEnabled(s: Source) { s.enabled }
  function SourceId(s: Source): int { s.id }

  /** What the page selects: the enabled rows, in the order the list is already in. */
  function PageSelection(sources: seq<Source>): Selection<Source> {
    SelectSources(Keep(SourceEnabled, sources), SOURCES_BUDGET)
  }

  function MarkSource(row: SourceRow, inContext: set<int>): SourceRow {
    SourceRow(row.source, row.source.id in inContext,
              TokenEstimator(DEFAULT_DENSITY).Tokens(row.source.characters),
              SourceExceedsBudget(row.source, SOURCES_BUDGET))
  }

  /** `ListSources`: the rows are marked in place, and what the selected ones cost comes back. */
  method ListSources(items: array<SourceRow>) returns (used: int)
    modifies items
    ensures var s := PageSelection(Apply(SourceOf, old(items[..])));
            && used == (if s.selected == [] then 0 else s.used)
            && forall i :: 0 <= i < items.Length ==> items[i] == MarkSource(old(items[i]), Images(SourceId, s.selected))
  {
    var enabled := EnabledSources(items);
    var selected, _ := SelectWithinBudget(enabled, SOURCES_BUDGET, |SOURCES_HEADER|, SourceCost);
    SelectionFits(enabled, SOURCES_BUDGET, |SOURCES_HEADER|, SourceCost);
    var inContext;
    inContext, used := ChargeSources(selected);
    if |selected| > 0 {
      used := used + |SOURCES_HEADER|;
    }
    for i := 0 to items.Length
      invariant forall k :: 0 <= k < i ==> items[k] == MarkSource(old(items[k]), inContext)
      invariant forall k :: i <= k < items.Length ==> items[k] == old(items[k])
    {
      items[i] := SourceRow(items[i].source, items[i].source.id in inContext,
                            TokenEstimator(DEFAULT_DENSITY).Tokens(items[i].source.characters),
                            SourceExceedsBudget(items[i].source, SOURCES_BUDGET));
    }
  }

  method EnabledSources(items: array<SourceRow>) returns (enabled: seq<Source>)
    ensures enabled == Keep(SourceEnabled, Apply(SourceOf, items[..]))
  {
    ghost var sources := Apply(SourceOf, items[..]);
    enabled := [];
    for i := 0 to items.Length
      invariant enabled == Keep(SourceEnabled, sources[..i])
    {
      assert sources[..i + 1][..i] == sources[..i];
      if items[i].source.enabled {
        enabled := enabled + [items[i].source];
      }
    }
    assert sources[..items.Length] == sources;
  }

  method ChargeSources(selected: seq<Source>) returns (ids: set<int>, cost: int)
    ensures ids == Images(SourceId, selected) && cost == SumBy(SourceCost, selected)
  {
    ids, cost := {}, 0;
    for i := 0 to |selected|
      invariant ids == Images(SourceId, selected[..i])
      invariant cost == SumBy(SourceCost, selected[..i])
    {
      assert selected[..i + 1][..i] == selected[..i];
      ids := ids + {selected[i].id};
      cost := cost + SourceCost(selected[i]);
    }
    assert selected[..|selected|] == selected;
  }

  datatype MemoryRow = MemoryRow(memory: Memory, inContext: bool)

  function MemoryOf(row: MemoryRow): Memory { row.memory }
  predicate MemoryEnabled(m: Memory) { m.enabled }
  function MemoryId(m: Memory): int { m.id }

  function MemoryPageSelection(memories: seq<Memory>): Selection<Memory> {
    SelectMemories(Keep(MemoryEnabled, memories), MEMORY_BUDGET)
  }

  /** `ListMemories`: what the page says is used is the length of the block itself. */
  method ListMemories(items: array<MemoryRow>) returns (used: int)
    modifies items
    ensures var s := MemoryPageSelection(Apply(MemoryOf, old(items[..])));
            && used == (if s.selected == [] then 0 else |RenderMemoryBlock(s.selected)|)
            && forall i :: 0 <= i < items.Length ==>
                 items[i] == old(items[i]).(inContext := old(items[i]).memory.id in Images(MemoryId, s.selected))
  {
    var enabled := EnabledMemories(items);
    var selected, _ := SelectWithinBudget(enabled, MEMORY_BUDGET, |MEMORY_HEADER|, MemoryCost);
    var inContext := MemoryIds(selected);
    for i := 0 to items.Length
      invariant forall k :: 0 <= k < i ==>
                  items[k] == old(items[k]).(inContext := old(items[k]).memory.id in inContext)
      invariant forall k :: i <= k < items.Length ==> items[k] == old(items[k])
    {
      items[i] := items[i].(inContext := items[i].memory.id in inContext);
    }
    used := 0;
    if |selected| > 0 {
      var block := WriteMemoryBlock(selected);
      used := |block|;
    }
  }

  method MemoryIds(selected: seq<Memory>) returns (ids: set<int>)
    ensures ids == Images(MemoryId, selected)
  {
    ids := {};
    for i := 0 to |selected|
      invariant ids == Images(MemoryId, selected[..i])
    {
      assert selected[..i + 1][..i] == selected[..i];
      ids := ids + {selected[i].id};
    }
    assert selected[..|selected|] == selected;
  }

  method EnabledMemories(items: array<MemoryRow>) returns (enabled: seq<Memory>)
    ensures enabled == Keep(MemoryEnabled, Apply(MemoryOf, items[..]))
  {
    ghost var memories := Apply(MemoryOf, items[..]);
    enabled := [];
    for i := 0 to items.Length
      invariant enabled == Keep(MemoryEnabled, memories[..i])
    {
      assert memories[..i + 1][..i] == memories[..i];
      if items[i].memory.enabled {
        enabled := enabled + [items[i].memory];
      }
    }
    assert memories[..items.Length] == memories;
  }

  /* ---- the page tells the truth about the wire ---- */

  /** An id decides membership in anything taken from a list of distinct entries. */
  lemma IdDecides<T>(id: T -> int, items: seq<T>, chosen: seq<T>, x: T)
    requires Distinct(id, items) && x in items && (forall y :: y in chosen ==> y in items)
    ensures id(x) in Images(id, chosen) <==> x in chosen
  {
    ImagesAreThere(id, chosen);
    if id(x) in Images(id, chosen) {
      var y :| y in chosen && id(y) == id(x);
      DistinctDecides(id, items, x, y);
    }
  }

  /** A reading that keeps what is asked of every row: whether it is enabled, what it costs, and
      which one it is. */
  ghost predicate FaithfulReading<S(!new), T>(rows: seq<S>, read: S -> T, keepS: S -> bool, keepT: T -> bool,
                                        costS: S -> int, costT: T -> int, idS: S -> int, idT: T -> int)
  {
    forall x :: x in rows ==> keepT(read(x)) == keepS(x) && costT(read(x)) == costS(x) && idT(read(x)) == idS(x)
  }

  /** What is selected of the rows that are kept is made of rows. */
  lemma SelectedAreRows<S>(rows: seq<S>, keep: S -> bool, budget: int, overhead: int, cost: S -> int)
    ensures forall x :: x in Select(Keep(keep, rows), budget, overhead, cost).selected ==> x in rows
  {
    var kept := Keep(keep, rows);
    var s := Select(kept, budget, overhead, cost);
    KeepSound(keep, rows);
    SelectionSplits(kept, budget, overhead, cost);
    InterleavesOrders(kept, s.selected, s.dropped);
    SubsequenceMembers(s.selected, kept);
  }

  /** The page selects, over its own reading of the rows, what the turn selects over the rows. */
  lemma SameSelection<S(!new), T>(rows: seq<S>, read: S -> T, keepS: S -> bool, keepT: T -> bool,
                                  costS: S -> int, costT: T -> int, idS: S -> int, idT: T -> int,
                                  budget: int, overhead: int, mine: Selection<S>, theirs: Selection<T>)
    requires FaithfulReading(rows, read, keepS, keepT, costS, costT, idS, idT)
    requires mine == Select(Keep(keepS, rows), budget, overhead, costS)
    requires theirs == Select(Keep(keepT, Apply(read, rows)), budget, overhead, costT)
    ensures theirs.selected == Apply(read, mine.selected) && theirs.used == mine.used
    ensures Images(idT, theirs.selected) == Images(idS, mine.selected)
  {
    KeepOfReadings(read, rows, keepS, keepT);
    KeepSound(keepS, rows);
    OnlyCostsDecide(Keep(keepS, rows), read, budget, overhead, costS, costT);
    SelectedAreRows(rows, keepS, budget, overhead, costS);
    ImagesOfReadings(read, mine.selected, idS, idT);
  }

  /** Rows beyond the page change nothing on it: a row of the page is selected among all rows
      exactly when it is selected among those of the page. */
  lemma PageIsEnough<S>(page: seq<S>, rest: seq<S>, keep: S -> bool, cost: S -> int, id: S -> int,
                        budget: int, overhead: int, row: S)
    requires Distinct(id, page + rest) && row in page
    ensures row in Select(Keep(keep, page), budget, overhead, cost).selected <==>
            row in Select(Keep(keep, page + rest), budget, overhead, cost).selected
  {
    var a, b := Keep(keep, page), Keep(keep, rest);
    KeepConcat(keep, page, rest);
    SelectionIsOnline(a, b, budget, overhead, cost);
    var s, t := Select(a, budget, overhead, cost), Select(a + b, budget, overhead, cost);
    var late := t.selected[|s.selected|..];
    assert t.selected == s.selected + late;
    InterleavesOrders(b, late, t.dropped[|s.dropped|..]);
    SubsequenceMembers(late, b);
    KeepSound(keep, rest);
    NotOnBothSides(id, page, rest, row);
  }

  /** Both pages at once: the mark a row carries is whether the turn would carry that row. */
  lemma MarkIsTruth<S(!new), T>(page: seq<S>, rest: seq<S>, read: S -> T, keepS: S -> bool, keepT: T -> bool,
                                costS: S -> int, costT: T -> int, idS: S -> int, idT: T -> int,
                                budget: int, overhead: int, row: S)
    requires Distinct(idS, page + rest) && row in page
    requires FaithfulReading(page, read, keepS, keepT, costS, costT, idS, idT)
    ensures idS(row) in Images(idT, Select(Keep(keepT, Apply(read, page)), budget, overhead, costT).selected) <==>
            row in Select(Keep(keepS, page + rest), budget, overhead, costS).selected
  {
    var mine := Select(Keep(keepS, page), budget, overhead, costS);
    SameSelection(page, read, keepS, keepT, costS, costT, idS, idT, budget, overhead, mine,
                  Select(Keep(keepT, Apply(read, page)), budget, overhead, costT));
    SelectedAreRows(page, keepS, budget, overhead, costS);
    PageIsEnough(page, rest, keepS, costS, idS, budget, overhead, row);
    DistinctPrefix(idS, page, rest);
    IdDecides(idS, page, mine.selected, row);
  }

  /** What the management read of a source brings back: everything but its text. */
  function WithoutText(s: Source): Source { s.(content := "") }
  function Itself(m: Memory): Memory { m }

  /** Nothing the page asks of a loaded source needs its text. */
  lemma TextIsNotAsked(page: seq<Source>)
    requires AllLoaded(page)
    ensures FaithfulReading(page, WithoutText, SourceEnabled, SourceEnabled, SourceCost, SourceCost, SourceId, SourceId)
  {
    forall x | x in page
      ensures SourceEnabled(WithoutText(x)) == SourceEnabled(x)
              && SourceCost(WithoutText(x)) == SourceCost(x) && SourceId(WithoutText(x)) == SourceId(x)
    {
      var k :| 0 <= k < |page| && page[k] == x;
      assert Loaded(page[k]);
    }
  }

  lemma EnabledAreLoaded(page: seq<Source>)
    requires AllLoaded(page)
    ensures AllLoaded(Keep(SourceEnabled, page))
  {
    var enabled := Keep(SourceEnabled, page);
    KeepSound(SourceEnabled, page);
    forall i | 0 <= i < |enabled| ensures Loaded(enabled[i]) {
      assert enabled[i] in page;
    }
  }

  /** The Sources page, over content-free rows of a truncated list, marks a source as in context
      exactly when the next turn would carry that source. */
  lemma SourcePageTellsTheTruth(page: seq<Source>, rest: seq<Source>, i: nat)
    requires Distinct(SourceId, page + rest) && AllLoaded(page) && i < |page|
    ensures page[i].id in Images(SourceId, PageSelection(Apply(WithoutText, page)).selected) <==>
            page[i] in PageSelection(page + rest).selected
  {
    TextIsNotAsked(page);
    MarkIsTruth(page, rest, WithoutText, SourceEnabled, SourceEnabled, SourceCost, SourceCost, SourceId, SourceId,
                SOURCES_BUDGET, |SOURCES_HEADER|, page[i]);
  }

  /** And when the page holds every source, the total it shows is the length of the block the next
      turn will be sent. */
  lemma SourcePageTotalIsTheBlock(page: seq<Source>)
    requires AllLoaded(page)
    ensures var shown, sent := PageSelection(Apply(WithoutText, page)), PageSelection(page);
            (shown.selected == [] <==> sent.selected == []) && shown.used == |RenderSourcesBlock(sent.selected)|
  {
    TextIsNotAsked(page);
    SameSelection(page, WithoutText, SourceEnabled, SourceEnabled, SourceCost, SourceCost, SourceId, SourceId,
                  SOURCES_BUDGET, |SOURCES_HEADER|, PageSelection(page), PageSelection(Apply(WithoutText, page)));
    EnabledAreLoaded(page);
    SourcesBlockFits(Keep(SourceEnabled, page), SOURCES_BUDGET);
  }

  /** The Memory page does the same over full rows of a truncated list. */
  lemma MemoryPageTellsTheTruth(page: seq<Memory>, rest: seq<Memory>, i: nat)
    requires Distinct(MemoryId, page + rest) && i < |page|
    ensures page[i].id in Images(MemoryId, MemoryPageSelection(page).selected) <==>
            page[i] in MemoryPageSelection(page + rest).selected
  {
    assert Apply(Itself, page) == page;
    MarkIsTruth(page, rest, Itself, MemoryEnabled, MemoryEnabled, MemoryCost, MemoryCost, MemoryId, MemoryId,
                MEMORY_BUDGET, |MEMORY_HEADER|, page[i]);
  }
}
