/** What a day contains: the rows turns and receipts leave behind, the database's grouping of
    them, the report folded from the groups, and the figures the daily gate reads. */
module UsageReport {
  import opened Sequences
  import opened Accounting
  import opened Budget

  datatype RowKind = TurnRow | ReceiptRow

  /** One assistant row, turn or auxiliary receipt alike: the figures read no kind. */
  datatype UsageRow = UsageRow(kind: RowKind, conversation: int, seqNo: int, model: string, account: TurnAccount)

  /** What the store tallies for one model. */
  datatype ModelUsage = ModelUsage(
    model: string,
    promptTokens: int,
    completionTokens: int,
    messages: int,
    providerMessages: int,
    estimatedMessages: int,
    unknownMessages: int,
    cost: real,
    unpricedMessages: int,
    cacheReadTokens: int,
    cacheCreationTokens: int,
    reasoningTokens: int,
    cacheMeasuredMessages: int)

  function PromptOfRow(r: UsageRow): int { r.account.promptTokens }
  function CompletionOfRow(r: UsageRow): int { r.account.completionTokens }
  function CostOfRow(r: UsageRow): real { CostOf(r.account) }
  function OneOfRow(r: UsageRow): int { 1 }
  function MeasuredOfRow(r: UsageRow): int { if r.account.source.Provider? then 1 else 0 }
  function EstimatedOfRow(r: UsageRow): int { if r.account.source.Estimated? then 1 else 0 }
  function UnknownOfRow(r: UsageRow): int { if r.account.source.Unknown? then 1 else 0 }
  function UnpricedOfRow(r: UsageRow): int { if r.account.cost.None? then 1 else 0 }

  function CacheReadOfRow(r: UsageRow): int { CacheReadOf(r.account) }
  function CacheCreationOfRow(r: UsageRow): int { CacheCreationOf(r.account) }
  function ReasoningOfRow(r: UsageRow): int { ReasoningOf(r.account) }
  function CacheMeasuredOfRow(r: UsageRow): int {
    if r.account.cacheRead.Some? || r.account.cacheCreation.Some? then 1 else 0
  }

  function PromptOfGroup(g: ModelUsage): int { g.promptTokens }
  function CompletionOfGroup(g: ModelUsage): int { g.completionTokens }
  function CostOfGroup(g: ModelUsage): real { g.cost }
  function MessagesOfGroup(g: ModelUsage): int { g.messages }
  function MeasuredOfGroup(g: ModelUsage): int { g.providerMessages }
  function EstimatedOfGroup(g: ModelUsage): int { g.estimatedMessages }
  function UnknownOfGroup(g: ModelUsage): int { g.unknownMessages }
  function UnpricedOfGroup(g: ModelUsage): int { g.unpricedMessages }

  function CacheReadOfGroup(g: ModelUsage): int { g.cacheReadTokens }
  function CacheCreationOfGroup(g: ModelUsage): int { g.cacheCreationTokens }
  function ReasoningOfGroup(g: ModelUsage): int { g.reasoningTokens }
  function CacheMeasuredOfGroup(g: ModelUsage): int { g.cacheMeasuredMessages }

  function RowsOfModel(model: string, rows: seq<UsageRow>): seq<UsageRow> {
    if rows == [] then []
    else if rows[|rows| - 1].model == model then RowsOfModel(model, rows[..|rows| - 1]) + [rows[|rows| - 1]]
    else RowsOfModel(model, rows[..|rows| - 1])
  }

  function RowsOfOthers(model: string, rows: seq<UsageRow>): seq<UsageRow> {
    if rows == [] then []
    else if rows[|rows| - 1].model == model then RowsOfOthers(model, rows[..|rows| - 1])
    else RowsOfOthers(model, rows[..|rows| - 1]) + [rows[|rows| - 1]]
  }

  function Tally(model: string, rows: seq<UsageRow>): ModelUsage {
    ModelUsage(model,
               SumBy(PromptOfRow, rows), SumBy(CompletionOfRow, rows), SumBy(OneOfRow, rows),
               SumBy(MeasuredOfRow, rows), SumBy(EstimatedOfRow, rows), SumBy(UnknownOfRow, rows),
               RealSumBy(CostOfRow, rows), SumBy(UnpricedOfRow, rows),
               SumBy(CacheReadOfRow, rows), SumBy(CacheCreationOfRow, rows), SumBy(ReasoningOfRow, rows),
               SumBy(CacheMeasuredOfRow, rows))
  }

  /** `groups` is what grouping `rows` by model gives, in whatever order the store returns it. */
  predicate IsGrouping(groups: seq<ModelUsage>, rows: seq<UsageRow>) {
    if groups == [] then rows == []
    else
      var g := groups[|groups| - 1];
      && RowsOfModel(g.model, rows) != []
      && g == Tally(g.model, RowsOfModel(g.model, rows))
      && IsGrouping(groups[..|groups| - 1], RowsOfOthers(g.model, rows))
  }

  /** Splitting rows by model conserves every sum. */
  lemma {:induction false} SplitConserves(f: UsageRow -> int, model: string, rows: seq<UsageRow>)
    ensures SumBy(f, rows) == SumBy(f, RowsOfModel(model, rows)) + SumBy(f, RowsOfOthers(model, rows))
  {
    if rows != [] {
      var init, last := rows[..|rows| - 1], rows[|rows| - 1];
      SplitConserves(f, model, init);
      var mine, others := RowsOfModel(model, init), RowsOfOthers(model, init);
      if last.model == model {
        assert (mine + [last])[..|mine|] == mine;
      } else {
        assert (others + [last])[..|others|] == others;
      }
    }
  }

  lemma {:induction false} SplitConservesCost(model: string, rows: seq<UsageRow>)
    ensures RealSumBy(CostOfRow, rows) ==
            RealSumBy(CostOfRow, RowsOfModel(model, rows)) + RealSumBy(CostOfRow, RowsOfOthers(model, rows))
  {
    if rows != [] {
      var init, last := rows[..|rows| - 1], rows[|rows| - 1];
      SplitConservesCost(model, init);
      var mine, others := RowsOfModel(model, init), RowsOfOthers(model, init);
      if last.model == model {
        assert (mine + [last])[..|mine|] == mine;
      } else {
        assert (others + [last])[..|others|] == others;
      }
    }
  }

  /** Whatever order the groups come in, their sums are the sums over the rows. */
  lemma {:induction false} GroupingConserves(
      f: ModelUsage -> int, row: UsageRow -> int, groups: seq<ModelUsage>, rows: seq<UsageRow>)
    requires forall model, s :: f(Tally(model, s)) == SumBy(row, s)
    requires IsGrouping(groups, rows)
    ensures SumBy(f, groups) == SumBy(row, rows)
    decreases |groups|
  {
    if groups != [] {
      var g := groups[|groups| - 1];
      GroupingConserves(f, row, groups[..|groups| - 1], RowsOfOthers(g.model, rows));
      SplitConserves(row, g.model, rows);
    }
  }

  lemma {:induction false} GroupingConservesCost(groups: seq<ModelUsage>, rows: seq<UsageRow>)
    requires IsGrouping(groups, rows)
    ensures RealSumBy(CostOfGroup, groups) == RealSumBy(CostOfRow, rows)
    decreases |groups|
  {
    if groups != [] {
      var g := groups[|groups| - 1];
      GroupingConservesCost(groups[..|groups| - 1], RowsOfOthers(g.model, rows));
      SplitConservesCost(g.model, rows);
    }
  }

  datatype UsageTotals = UsageTotals(
    lines: seq<ModelUsage>,
    messages: int,
    promptTokens: int,
    completionTokens: int,
    totalTokens: int,
    cost: real,
    providerMessages: int,
    estimatedMessages: int,
    unknownMessages: int,
    unpricedMessages: int,
    cacheReadTokens: int,
    cacheCreationTokens: int,
    reasoningTokens: int,
    cacheMeasuredMessages: int,
    priced: bool)

  const NOTHING_USED := UsageTotals([], 0, 0, 0, 0, 0.0, 0, 0, 0, 0, 0, 0, 0, 0, true)

  function Totals(groups: seq<ModelUsage>): UsageTotals {
    UsageTotals(
      groups,
      SumBy(MessagesOfGroup, groups), SumBy(PromptOfGroup, groups), SumBy(CompletionOfGroup, groups),
      SumBy(PromptOfGroup, groups) + SumBy(CompletionOfGroup, groups),
      RealSumBy(CostOfGroup, groups),
      SumBy(MeasuredOfGroup, groups), SumBy(EstimatedOfGroup, groups), SumBy(UnknownOfGroup, groups),
      SumBy(UnpricedOfGroup, groups),
      SumBy(CacheReadOfGroup, groups), SumBy(CacheCreationOfGroup, groups), SumBy(ReasoningOfGroup, groups),
      SumBy(CacheMeasuredOfGroup, groups),
      SumBy(UnpricedOfGroup, groups) == 0)
  }

  /** `buildUsageReport`: it adds what the store tallied and nothing of its own. */
  method BuildUsageReport(groups: seq<ModelUsage>) returns (rep: UsageTotals)
    ensures rep == Totals(groups)
  {
    rep := NOTHING_USED;
    for i := 0 to |groups|
      invariant rep.(priced := true) == Totals(groups[..i]).(priced := true)
    {
      rep := AddLine(rep, groups[i], groups[..i]);
      assert groups[..i + 1] == groups[..i] + [groups[i]];
    }
    assert groups[..|groups|] == groups;
    rep := rep.(priced := rep.unpricedMessages == 0);
  }

  /** One line of the report, added to every running total. */
  method AddLine(rep: UsageTotals, line: ModelUsage, ghost groups: seq<ModelUsage>) returns (out: UsageTotals)
    requires rep.(priced := true) == Totals(groups).(priced := true)
    ensures out.(priced := true) == Totals(groups + [line]).(priced := true)
  {
    assert (groups + [line])[..|groups|] == groups;
    out := rep.(lines := rep.lines + [line],
                messages := rep.messages + line.messages,
                promptTokens := rep.promptTokens + line.promptTokens,
                completionTokens := rep.completionTokens + line.completionTokens,
                totalTokens := rep.totalTokens + (line.promptTokens + line.completionTokens),
                cost := rep.cost + line.cost,
                providerMessages := rep.providerMessages + line.providerMessages,
                estimatedMessages := rep.estimatedMessages + line.estimatedMessages,
                unknownMessages := rep.unknownMessages + line.unknownMessages,
                unpricedMessages := rep.unpricedMessages + line.unpricedMessages,
                cacheReadTokens := rep.cacheReadTokens + line.cacheReadTokens,
                cacheCreationTokens := rep.cacheCreationTokens + line.cacheCreationTokens,
                reasoningTokens := rep.reasoningTokens + line.reasoningTokens,
                cacheMeasuredMessages := rep.cacheMeasuredMessages + line.cacheMeasuredMessages);
  }

  /** What the rows of a day add up to. */
  function DayUsage(rows: seq<UsageRow>): DailyUsage {
    DailyUsage(SumBy(PromptOfRow, rows) + SumBy(CompletionOfRow, rows),
               RealSumBy(CostOfRow, rows),
               SumBy(UnpricedOfRow, rows))
  }

  /** `dailyUsage`: the gate reads the rows themselves, whatever the grouping in between. */
  method ReadDailyUsage(groups: seq<ModelUsage>, ghost rows: seq<UsageRow>) returns (usage: DailyUsage)
    requires IsGrouping(groups, rows)
    ensures usage == DayUsage(rows)
  {
    var report := BuildUsageReport(groups);
    GroupingConserves(PromptOfGroup, PromptOfRow, groups, rows);
    GroupingConserves(CompletionOfGroup, CompletionOfRow, groups, rows);
    GroupingConserves(UnpricedOfGroup, UnpricedOfRow, groups, rows);
    GroupingConservesCost(groups, rows);
    usage := DailyUsage(report.totalTokens, report.cost, report.unpricedMessages);
  }

  /** Every row has exactly one source, so the three message counts of a report sum to its
      messages. */
  lemma {:induction false} SourcesPartitionMessages(rows: seq<UsageRow>)
    ensures SumBy(MeasuredOfRow, rows) + SumBy(EstimatedOfRow, rows) + SumBy(UnknownOfRow, rows) == |rows|
    ensures SumBy(OneOfRow, rows) == |rows|
  {
    if rows != [] {
      SourcesPartitionMessages(rows[..|rows| - 1]);
    }
  }

  lemma DayGrows(rows: seq<UsageRow>, row: UsageRow)
    ensures DayUsage(rows + [row]) ==
            DailyUsage(DayUsage(rows).tokens + row.account.promptTokens + row.account.completionTokens,
                       DayUsage(rows).knownCost + CostOf(row.account),
                       DayUsage(rows).unpricedTurns + UnpricedOfRow(row))
  {
    assert (rows + [row])[..|rows|] == rows;
  }
}
