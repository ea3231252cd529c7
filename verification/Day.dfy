/** A day of one agent: turns, resumes and consolidations one after another, each let through or
    refused by the gate the rows so far decide, each leaving its row behind; and between them the
    truncations of its conversations, which take turn rows away again. */
module Day {
  import opened Sequences
  import opened Estimator
  import opened Accounting
  import opened Budget
  import opened Turn
  import opened TurnProperties
  import opened TurnTheorems
  import opened UsageReport

  /** `quoted` is what the rate card says at the preflight, `late` what it says when the row is
      written. A resume is a `TurnEvent` like any other. */
  datatype Spending =
    | TurnEvent(model: string, input: TurnInput, ceiling: TurnCeiling, quoted: Option<Price>, late: Option<Price>)
    | ConsolidationEvent(model: string, call: ProviderRound, ceiling: TurnCeiling, quoted: Option<Price>,
                         late: Option<Price>)

  /** Something that may call a provider, with the place its row is filed at; or a regenerate or an
      edit, which cuts a conversation from one of its user messages on. */
  datatype DayEvent =
    | Spends(what: Spending, conversation: int, seqNo: int)
    | Cuts(conversation: int, seqNo: int)

  function PricingFrom(p: Option<Price>): Pricing {
    if p.None? then Pricing(false, 0.0, 0.0) else Pricing(true, p.value.inputRate, p.value.outputRate)
  }

  const NO_GATE := GateConfig(Budget(None, None), DailyUsage(0, 0.0, 0), Pricing(false, 0.0, 0.0),
                              TurnCeiling(0, 0), None, TokenEstimator(0.0))

  /** `budgetPreflight`: nothing is read for an agent without limits, and the rate card only for
      one with a cost limit. */
  function Preflight(b: Budget, rows: seq<UsageRow>, ev: Spending, est: TokenEstimator): GateConfig {
    if !b.Enabled() then NO_GATE
    else if b.costLimit.Some? then
      GateConfig(b, DayUsage(rows), PricingFrom(ev.quoted), ev.ceiling, ev.quoted, est)
    else
      GateConfig(b, DayUsage(rows), Pricing(true, 0.0, 0.0), ev.ceiling, None, est)
  }

  function EstimatorOf(ev: Spending): TokenEstimator {
    if ev.TurnEvent? then ev.input.est else TokenEstimator(0.0)
  }

  function GateOf(b: Budget, rows: seq<UsageRow>, ev: Spending): GateConfig {
    Preflight(b, rows, ev, EstimatorOf(ev))
  }

  /** The provider calls the event makes once it is let through. */
  function CallsOf(b: Budget, rows: seq<UsageRow>, ev: Spending): seq<ProviderRound> {
    match ev
    case TurnEvent(_, input, _, _, _) => Run(input.(gate := GateOf(b, rows, ev))).last.rounds
    case ConsolidationEvent(_, call, _, _, _) => [call]
  }

  predicate AnyOpened(rounds: seq<ProviderRound>) {
    exists i :: 0 <= i < |rounds| && rounds[i].streamOpened
  }

  /** `priceForTurn`: the card the preflight read, else the one in force now if anything opened. */
  function StoredPrice(g: GateConfig, late: Option<Price>, rounds: seq<ProviderRound>): Option<Price> {
    if g.price.Some? then g.price else if AnyOpened(rounds) then late else None
  }

  predicate LetsThrough(b: Budget, rows: seq<UsageRow>, ev: Spending) {
    !Verdict(GateOf(b, rows, ev), NOTHING_SPENT).blocked
  }

  function RowOf(b: Budget, rows: seq<UsageRow>, ev: Spending, conversation: int, seqNo: int): UsageRow {
    var rounds := CallsOf(b, rows, ev);
    UsageRow(if ev.TurnEvent? then TurnRow else ReceiptRow, conversation, seqNo, ev.model,
             TurnTotal(rounds, StoredPrice(GateOf(b, rows, ev), ev.late, rounds), EstimatorOf(ev)))
  }

  /** The row an event leaves: none if it was refused, and none of a consolidation that never
      opened. */
  function LeftBy(b: Budget, rows: seq<UsageRow>, ev: DayEvent): seq<UsageRow> {
    if ev.Cuts? || !LetsThrough(b, rows, ev.what) || (ev.what.ConsolidationEvent? && !ev.what.call.streamOpened) then []
    else [RowOf(b, rows, ev.what, ev.conversation, ev.seqNo)]
  }

  /** `DeleteFromSeq`: what a cut takes and what it leaves. Receipts survive it. */
  function Taken(conversation: int, seqNo: int): UsageRow -> bool {
    (r: UsageRow) => r.kind.TurnRow? && r.conversation == conversation && r.seqNo >= seqNo
  }

  function Spared(conversation: int, seqNo: int): UsageRow -> bool {
    (r: UsageRow) => !(r.kind.TurnRow? && r.conversation == conversation && r.seqNo >= seqNo)
  }

  function TakenBy(rows: seq<UsageRow>, ev: DayEvent): seq<UsageRow> {
    if ev.Cuts? then Keep(Taken(ev.conversation, ev.seqNo), rows) else []
  }

  function SparedBy(rows: seq<UsageRow>, ev: DayEvent): seq<UsageRow> {
    if ev.Cuts? then Keep(Spared(ev.conversation, ev.seqNo), rows) else rows
  }

  /** The day after one event. */
  function After(b: Budget, rows: seq<UsageRow>, ev: DayEvent): seq<UsageRow> {
    if ev.Cuts? then SparedBy(rows, ev) else rows + LeftBy(b, rows, ev)
  }

  function Replay(b: Budget, rows: seq<UsageRow>, events: seq<DayEvent>): seq<UsageRow> {
    if events == [] then rows
    else After(b, Replay(b, rows, events[..|events| - 1]), events[|events| - 1])
  }

  /** Every row there ever was: those of the start and every one an event left. */
  function Bought(b: Budget, rows: seq<UsageRow>, events: seq<DayEvent>): seq<UsageRow> {
    if events == [] then rows
    else
      var init := events[..|events| - 1];
      Bought(b, rows, init) + LeftBy(b, Replay(b, rows, init), events[|events| - 1])
  }

  /** Every row a cut took. */
  function Lost(b: Budget, rows: seq<UsageRow>, events: seq<DayEvent>): seq<UsageRow> {
    if events == [] then []
    else
      var init := events[..|events| - 1];
      Lost(b, rows, init) + TakenBy(Replay(b, rows, init), events[|events| - 1])
  }

  /* ---- one call bounds the overshoot ---- */

  function TokensUsed(r: ProviderRound, est: TokenEstimator): int {
    Measured(r, est).promptTokens + Measured(r, est).completionTokens
  }

  /** Every opened call is accounted at most `tokens` tokens and at most `cost` money. */
  predicate Within(rounds: seq<ProviderRound>, g: GateConfig, tokens: int, cost: real) {
    forall k :: 0 <= k < |rounds| && rounds[k].streamOpened ==> CallWithin(rounds[k], g, tokens, cost)
  }

  predicate CallWithin(r: ProviderRound, g: GateConfig, tokens: int, cost: real) {
    TokensUsed(r, g.est) <= tokens && CostOf(NewTurnAccount(r, g.price, g.est)) <= cost
  }

  /** Strictly below every configured limit plus one call. */
  predicate Below(b: Budget, u: DailyUsage, tokens: int, cost: real) {
    && (b.tokenLimit.Some? ==> u.tokens < b.tokenLimit.value + tokens)
    && (b.costLimit.Some? ==> u.knownCost < b.costLimit.value + cost)
  }

  /** What a state has made stays what it made, as the turn goes on. */
  lemma {:induction false} RoundsStay(input: TurnInput, st: TurnState)
    requires |st.rounds| < MAX_TOOL_ROUNDS
    ensures var last := RunFrom(input, st).last;
            |st.rounds| <= |last.rounds| && last.rounds[..|st.rounds|] == st.rounds
    decreases MAX_TOOL_ROUNDS - |st.rounds|
  {
    match Step(input, st)
    case Ended(last, end) =>
      EndShape(input, st, last, end);
    case Continue(next) =>
      ContinueShape(input, st, next);
      RoundsStay(input, next);
      assert next.rounds[..|st.rounds|] == st.rounds;
      assert RunFrom(input, st).last.rounds[..|st.rounds|]
          == RunFrom(input, st).last.rounds[..|next.rounds|][..|st.rounds|];
  }

  /** The call a state makes is the next round of the whole turn, its tools aside. */
  lemma CallIsARound(input: TurnInput, st: TurnState)
    requires |st.rounds| < MAX_TOOL_ROUNDS
    requires st.rounds == [] || !Verdict(input.gate, st.spend).blocked
    ensures var last := RunFrom(input, st).last;
            |st.rounds| < |last.rounds|
            && last.rounds[|st.rounds|].(tools := []) == RoundOf(input, st.added, input.provider(|st.rounds|))
  {
    var n := |st.rounds|;
    match Step(input, st)
    case Ended(last, end) =>
      EndShape(input, st, last, end);
    case Continue(next) =>
      ContinueShape(input, st, next);
      RoundsStay(input, next);
      assert RunFrom(input, next).last.rounds[n] == RunFrom(input, next).last.rounds[..n + 1][n] == next.rounds[n];
  }

  lemma ToolsDoNotCount(r: ProviderRound, g: GateConfig, tokens: int, cost: real)
    requires CallWithin(r, g, tokens, cost)
    ensures CallWithin(r.(tools := []), g, tokens, cost)
  {
    assert Measured(r.(tools := []), g.est) == Measured(r, g.est);
  }

  /** The property the gate exists for: whatever a turn does, the day plus what it has spent stays
      below every limit plus one call. */
  lemma {:induction false} TurnOvershootsByOneCall(input: TurnInput, st: TurnState, tokens: int, cost: real)
    requires |st.rounds| < MAX_TOOL_ROUNDS && input.gate.budget.Enabled()
    requires st.rounds == [] ==> !Verdict(input.gate, st.spend).blocked
    requires Below(input.gate.budget, Standing(input.gate, st.spend), tokens, cost)
    requires Within(RunFrom(input, st).last.rounds, input.gate, tokens, cost)
    ensures Below(input.gate.budget, Standing(input.gate, RunFrom(input, st).last.spend), tokens, cost)
    decreases MAX_TOOL_ROUNDS - |st.rounds|
  {
    if st.rounds == [] || !Verdict(input.gate, st.spend).blocked {
      var made := RoundOf(input, st.added, input.provider(|st.rounds|));
      CallIsARound(input, st);
      if made.streamOpened {
        ToolsDoNotCount(RunFrom(input, st).last.rounds[|st.rounds|], input.gate, tokens, cost);
      }
    }
    match Step(input, st)
    case Ended(last, end) =>
      EndShape(input, st, last, end);
    case Continue(next) =>
      ContinueShape(input, st, next);
      TurnOvershootsByOneCall(input, next, tokens, cost);
  }

  /* ---- a row is what its gate charged ---- */

  /** The tokens of a stored turn do not depend on a rate card. */
  lemma {:induction false} TokensNeedNoPrice(rounds: seq<ProviderRound>, p: Option<Price>, q: Option<Price>,
      est: TokenEstimator)
    ensures TurnTotal(rounds, p, est).promptTokens == TurnTotal(rounds, q, est).promptTokens
    ensures TurnTotal(rounds, p, est).completionTokens == TurnTotal(rounds, q, est).completionTokens
  {
    if rounds != [] {
      TokensNeedNoPrice(rounds[..|rounds| - 1], p, q, est);
      BilledGrows(rounds, p, est);
      BilledGrows(rounds, q, est);
    }
  }

  lemma BilledGrows(rounds: seq<ProviderRound>, p: Option<Price>, est: TokenEstimator)
    requires rounds != []
    ensures var init, last := rounds[..|rounds| - 1], rounds[|rounds| - 1];
            && TurnTotal(rounds, p, est).promptTokens == TurnTotal(init, p, est).promptTokens
                 + (if last.streamOpened then Measured(last, est).promptTokens else 0)
            && TurnTotal(rounds, p, est).completionTokens == TurnTotal(init, p, est).completionTokens
                 + (if last.streamOpened then Measured(last, est).completionTokens else 0)
  {
    var init, last := rounds[..|rounds| - 1], rounds[|rounds| - 1];
    var billed := Billed(init, p, est);
    if last.streamOpened {
      assert (billed + [NewTurnAccount(last, p, est)])[..|billed|] == billed;
    }
  }

  /** The row an event leaves is what its gate charged. */
  lemma RowIsWhatTheGateCharged(b: Budget, rows: seq<UsageRow>, ev: Spending)
    requires b.Enabled() && LetsThrough(b, rows, ev)
    ensures var g := GateOf(b, rows, ev);
            var rounds := CallsOf(b, rows, ev);
            var stored := TurnTotal(rounds, StoredPrice(g, ev.late, rounds), EstimatorOf(ev));
            && SpendOver(g, rounds).tokens == stored.promptTokens + stored.completionTokens
            && (b.costLimit.Some? ==> SpendOver(g, rounds).cost == CostOf(stored))
  {
    var g := GateOf(b, rows, ev);
    var rounds := CallsOf(b, rows, ev);
    GateMatchesStatement(g, rounds);
    TokensNeedNoPrice(rounds, g.price, StoredPrice(g, ev.late, rounds), EstimatorOf(ev));
    LetThrough(b, Standing(g, NOTHING_SPENT), g.ceiling, g.pricing);
  }

  lemma SpendIsBelow(b: Budget, rows: seq<UsageRow>, ev: Spending, tokens: int, cost: real)
    requires b.Enabled() && LetsThrough(b, rows, ev) && Below(b, DayUsage(rows), tokens, cost)
    requires Within(CallsOf(b, rows, ev), GateOf(b, rows, ev), tokens, cost)
    ensures var g := GateOf(b, rows, ev);
            Below(b, Standing(g, SpendOver(g, CallsOf(b, rows, ev))), tokens, cost)
  {
    var g := GateOf(b, rows, ev);
    match ev
    case TurnEvent(_, input, _, _, _) =>
      var gated := input.(gate := g);
      TurnOvershootsByOneCall(gated, Begin(gated), tokens, cost);
      RunCharged(gated, Begin(gated));
    case ConsolidationEvent(_, call, _, _, _) =>
      assert CallsOf(b, rows, ev)[0] == call;
      assert [call][..0] == [];
      assert SpendOver(g, [call]) == AfterCall(g, NOTHING_SPENT, call);
  }

  lemma SpendingKeepsTheDay(b: Budget, rows: seq<UsageRow>, ev: DayEvent, tokens: int, cost: real)
    requires b.Enabled() && ev.Spends? && Below(b, DayUsage(rows), tokens, cost)
    requires LetsThrough(b, rows, ev.what) ==>
               Within(CallsOf(b, rows, ev.what), GateOf(b, rows, ev.what), tokens, cost)
    ensures Below(b, DayUsage(rows + LeftBy(b, rows, ev)), tokens, cost)
  {
    if LeftBy(b, rows, ev) == [] {
      assert rows + LeftBy(b, rows, ev) == rows;
    } else {
      SpendIsBelow(b, rows, ev.what, tokens, cost);
      RowIsWhatTheGateCharged(b, rows, ev.what);
      DayGrows(rows, RowOf(b, rows, ev.what, ev.conversation, ev.seqNo));
    }
  }

  /* ---- what a cut takes ---- */

  function Sum(u: DailyUsage, v: DailyUsage): DailyUsage {
    DailyUsage(u.tokens + v.tokens, u.knownCost + v.knownCost, u.unpricedTurns + v.unpricedTurns)
  }

  lemma DayAdds(a: seq<UsageRow>, c: seq<UsageRow>)
    ensures DayUsage(a + c) == Sum(DayUsage(a), DayUsage(c))
  {
    SumByConcat(PromptOfRow, a, c);
    SumByConcat(CompletionOfRow, a, c);
    SumByConcat(UnpricedOfRow, a, c);
    RealSumByConcat(CostOfRow, a, c);
  }

  /** A cut splits the rows: what it takes and what it spares add up to what there was. */
  lemma CutSplits(rows: seq<UsageRow>, ev: DayEvent)
    requires ev.Cuts?
    ensures DayUsage(rows) == Sum(DayUsage(SparedBy(rows, ev)), DayUsage(TakenBy(rows, ev)))
  {
    var spared, taken := Spared(ev.conversation, ev.seqNo), Taken(ev.conversation, ev.seqNo);
    SumBySplit(PromptOfRow, spared, taken, rows);
    SumBySplit(CompletionOfRow, spared, taken, rows);
    SumBySplit(UnpricedOfRow, spared, taken, rows);
    RealSumBySplit(CostOfRow, spared, taken, rows);
  }

  /** One event: what it leaves and what it takes account for the change. */
  lemma EventBalances(b: Budget, rows: seq<UsageRow>, ev: DayEvent)
    ensures Sum(DayUsage(rows), DayUsage(LeftBy(b, rows, ev)))
            == Sum(DayUsage(After(b, rows, ev)), DayUsage(TakenBy(rows, ev)))
  {
    if ev.Cuts? {
      CutSplits(rows, ev);
    } else {
      DayAdds(rows, LeftBy(b, rows, ev));
    }
  }

  /** What is stored and what was lost add up to what was bought. */
  predicate Balanced(bought: seq<UsageRow>, stored: seq<UsageRow>, lost: seq<UsageRow>) {
    DayUsage(bought) == Sum(DayUsage(stored), DayUsage(lost))
  }

  lemma EventKeepsTheBooks(b: Budget, ev: DayEvent, bought: seq<UsageRow>, stored: seq<UsageRow>, lost: seq<UsageRow>)
    requires Balanced(bought, stored, lost)
    ensures Balanced(bought + LeftBy(b, stored, ev), After(b, stored, ev), lost + TakenBy(stored, ev))
  {
    EventBalances(b, stored, ev);
    DayAdds(bought, LeftBy(b, stored, ev));
    DayAdds(lost, TakenBy(stored, ev));
  }

  lemma {:induction false} BooksStayBalanced(b: Budget, rows: seq<UsageRow>, events: seq<DayEvent>,
      bought: seq<UsageRow>, stored: seq<UsageRow>, lost: seq<UsageRow>)
    requires bought == Bought(b, rows, events) && stored == Replay(b, rows, events) && lost == Lost(b, rows, events)
    ensures Balanced(bought, stored, lost)
    decreases |events|
  {
    if events != [] {
      var init, last := events[..|events| - 1], events[|events| - 1];
      var before := Replay(b, rows, init);
      BooksStayBalanced(b, rows, init, Bought(b, rows, init), before, Lost(b, rows, init));
      EventKeepsTheBooks(b, last, Bought(b, rows, init), before, Lost(b, rows, init));
    }
  }

  /** Nothing is lost from the books: over any events, what is stored and what cuts have taken add up
      to all that was ever accounted. */
  lemma StoredAndLostAreBought(b: Budget, rows: seq<UsageRow>, events: seq<DayEvent>)
    ensures Balanced(Bought(b, rows, events), Replay(b, rows, events), Lost(b, rows, events))
  {
    BooksStayBalanced(b, rows, events, Bought(b, rows, events), Replay(b, rows, events), Lost(b, rows, events));
  }

  /* ---- the day ---- */

  /** Every call of every event let through is within one bound. */
  predicate AllWithin(b: Budget, rows: seq<UsageRow>, events: seq<DayEvent>, tokens: int, cost: real) {
    events == [] ||
    (var init, last := events[..|events| - 1], events[|events| - 1];
     var before := Replay(b, rows, init);
     && AllWithin(b, rows, init, tokens, cost)
     && (last.Spends? && LetsThrough(b, before, last.what) ==>
           Within(CallsOf(b, before, last.what), GateOf(b, before, last.what), tokens, cost)))
  }

  predicate NotNegative(u: DailyUsage) { u.tokens >= 0 && u.knownCost >= 0.0 }

  /** No cut takes rows that add up to less than nothing. */
  predicate CutsOnlyLower(b: Budget, rows: seq<UsageRow>, events: seq<DayEvent>) {
    events == [] ||
    (var init, last := events[..|events| - 1], events[|events| - 1];
     CutsOnlyLower(b, rows, init) && NotNegative(DayUsage(TakenBy(Replay(b, rows, init), last))))
  }

  /** Day-level budget safety. Over any sequence of turns, resumes, consolidations and cuts of one
      UTC day, run one after another, the tokens stored for the day stay strictly below the token
      limit plus one call's, and the known cost strictly below the cost limit plus one call's. */
  lemma {:induction false} DayStaysWithinOneCall(
      b: Budget, rows: seq<UsageRow>, events: seq<DayEvent>, tokens: int, cost: real)
    requires b.Enabled() && Below(b, DayUsage(rows), tokens, cost)
    requires AllWithin(b, rows, events, tokens, cost) && CutsOnlyLower(b, rows, events)
    ensures Below(b, DayUsage(Replay(b, rows, events)), tokens, cost)
  {
    if events != [] {
      var init, last := events[..|events| - 1], events[|events| - 1];
      var before := Replay(b, rows, init);
      DayStaysWithinOneCall(b, rows, init, tokens, cost);
      if last.Cuts? {
        CutSplits(before, last);
      } else {
        SpendingKeepsTheDay(b, before, last, tokens, cost);
      }
    }
  }

  /** What was really bought that day is not bounded so: a cut gives its rows' spend back to the
      gate. It is bounded by the limit plus one call plus what the cuts took. */
  lemma BoughtIsWithinOneCallAndTheCuts(
      b: Budget, rows: seq<UsageRow>, events: seq<DayEvent>, tokens: int, cost: real)
    requires b.Enabled() && Below(b, DayUsage(rows), tokens, cost)
    requires AllWithin(b, rows, events, tokens, cost) && CutsOnlyLower(b, rows, events)
    ensures var lost := DayUsage(Lost(b, rows, events));
            Below(b, DayUsage(Bought(b, rows, events)), tokens + lost.tokens, cost + lost.knownCost)
  {
    DayStaysWithinOneCall(b, rows, events, tokens, cost);
    StoredAndLostAreBought(b, rows, events);
  }

  /* ---- cuts only lower ---- */

  predicate RowNotNegative(r: UsageRow) {
    r.account.promptTokens + r.account.completionTokens >= 0 && CostOf(r.account) >= 0.0
  }

  predicate PriceNotNegative(p: Option<Price>) {
    p.Some? ==>
      && p.value.inputRate >= 0.0 && p.value.outputRate >= 0.0
      && RateOr(p.value.cacheReadRate, 0.0) >= 0.0 && RateOr(p.value.cacheCreationRate, 0.0) >= 0.0
  }

  /** The builder's estimate is not negative, and no rate pays the caller. */
  predicate EventNotNegative(ev: DayEvent) {
    ev.Spends? ==>
      && PriceNotNegative(ev.what.quoted) && PriceNotNegative(ev.what.late)
      && (if ev.what.TurnEvent? then ev.what.input.report.totalEstimatedTokens >= 0
          else ev.what.call.estimatedPrompt >= 0)
  }

  lemma ChargeNotNegative(n: int, rate: real)
    requires n >= 0 && rate >= 0.0
    ensures n as real * rate >= 0.0
  {
  }

  lemma CallIsNotNegative(r: ProviderRound, p: Option<Price>, est: TokenEstimator)
    requires r.estimatedPrompt >= 0 && PriceNotNegative(p)
    ensures Measured(r, est).promptTokens >= 0 && Measured(r, est).completionTokens >= 0
    ensures CostOf(NewTurnAccount(r, p, est)) >= 0.0
  {
    var a := Measured(r, est);
    CountsNeverNegative(r, None, est);
    if p.Some? {
      var price, read, creation := p.value, CountOr0(a.cacheRead), CountOr0(a.cacheCreation);
      ChargeNotNegative(NonNegative(a.promptTokens - read - creation), price.inputRate);
      ChargeNotNegative(read, RateOr(price.cacheReadRate, price.inputRate));
      ChargeNotNegative(creation, RateOr(price.cacheCreationRate, price.inputRate));
      ChargeNotNegative(a.completionTokens, price.outputRate);
    }
  }

  lemma {:induction false} TotalsAreNotNegative(rounds: seq<ProviderRound>, p: Option<Price>, est: TokenEstimator)
    requires forall k :: 0 <= k < |rounds| ==> rounds[k].estimatedPrompt >= 0
    requires PriceNotNegative(p)
    ensures var t := TurnTotal(rounds, p, est);
            t.promptTokens >= 0 && t.completionTokens >= 0 && CostOf(t) >= 0.0
  {
    if rounds != [] {
      TotalsAreNotNegative(rounds[..|rounds| - 1], p, est);
      BilledGrows(rounds, p, est);
      CostGrows(rounds, p, est);
      CallIsNotNegative(rounds[|rounds| - 1], p, est);
    }
  }

  lemma CostGrows(rounds: seq<ProviderRound>, p: Option<Price>, est: TokenEstimator)
    requires rounds != []
    ensures var init, last := rounds[..|rounds| - 1], rounds[|rounds| - 1];
            CostOf(TurnTotal(rounds, p, est)) == CostOf(TurnTotal(init, p, est))
              + (if last.streamOpened then CostOf(NewTurnAccount(last, p, est)) else 0.0)
  {
    var init, last := rounds[..|rounds| - 1], rounds[|rounds| - 1];
    var billed := Billed(init, p, est);
    if last.streamOpened {
      assert (billed + [NewTurnAccount(last, p, est)])[..|billed|] == billed;
    }
  }

  /** No call of such an event is predicted to take less than nothing. */
  lemma CallsPredictNoLess(b: Budget, rows: seq<UsageRow>, ev: DayEvent)
    requires ev.Spends? && EventNotNegative(ev)
    ensures forall k :: 0 <= k < |CallsOf(b, rows, ev.what)| ==> CallsOf(b, rows, ev.what)[k].estimatedPrompt >= 0
  {
    if ev.what.TurnEvent? {
      var input := ev.what.input.(gate := GateOf(b, rows, ev.what));
      RoundsPredictNoLess(input);
      assert CallsOf(b, rows, ev.what) == LastOf(input).rounds;
    }
  }

  lemma RoundsPredictNoLess(input: TurnInput)
    requires input.report.totalEstimatedTokens >= 0
    ensures forall k :: 0 <= k < |LastOf(input).rounds| ==> LastOf(input).rounds[k].estimatedPrompt >= 0
  {
    assert input.built[|input.built|..] == [];
    RunCounted(input, Begin(input));
    forall k | 0 <= k < |LastOf(input).rounds| ensures LastOf(input).rounds[k].estimatedPrompt >= 0 {
      CountedAt(input, LastOf(input).requests, LastOf(input).rounds, k);
      TokensMonotone(input.est, 0, NonNegative(LastOf(input).rounds[k].addedCharacters));
    }
  }

  lemma {:induction false} SumNotNegative(rows: seq<UsageRow>)
    requires Every(RowNotNegative, rows)
    ensures NotNegative(DayUsage(rows))
  {
    if rows != [] {
      var init, last := rows[..|rows| - 1], rows[|rows| - 1];
      SumNotNegative(init);
      DayGrows(init, last);
      assert rows == init + [last];
    }
  }

  lemma EventKeepsRowsNotNegative(b: Budget, rows: seq<UsageRow>, ev: DayEvent)
    requires Every(RowNotNegative, rows) && EventNotNegative(ev)
    ensures Every(RowNotNegative, After(b, rows, ev)) && Every(RowNotNegative, TakenBy(rows, ev))
  {
    if ev.Cuts? {
      EveryKept(RowNotNegative, Spared(ev.conversation, ev.seqNo), rows);
      EveryKept(RowNotNegative, Taken(ev.conversation, ev.seqNo), rows);
    } else {
      var g, rounds := GateOf(b, rows, ev.what), CallsOf(b, rows, ev.what);
      CallsPredictNoLess(b, rows, ev);
      TotalsAreNotNegative(rounds, StoredPrice(g, ev.what.late, rounds), EstimatorOf(ev.what));
      EveryConcat(RowNotNegative, rows, LeftBy(b, rows, ev));
    }
  }

  /** Where the hypothesis on cuts holds: wherever the first rows, the builder's estimates and the
      rate card hold nothing negative. */
  lemma {:induction false} NonNegativeDaysOnlyLower(b: Budget, rows: seq<UsageRow>, events: seq<DayEvent>)
    requires Every(RowNotNegative, rows) && Every(EventNotNegative, events)
    ensures Every(RowNotNegative, Replay(b, rows, events)) && CutsOnlyLower(b, rows, events)
  {
    if events != [] {
      var init, last := events[..|events| - 1], events[|events| - 1];
      NonNegativeDaysOnlyLower(b, rows, init);
      EventKeepsRowsNotNegative(b, Replay(b, rows, init), last);
      SumNotNegative(TakenBy(Replay(b, rows, init), last));
    }
  }

  /* ---- a limit that is reached ---- */

  /** Some limit leaves no room, whatever comes next. */
  predicate Reached(b: Budget, rows: seq<UsageRow>) {
    || (b.tokenLimit.Some? && (b.tokenLimit.value <= 0 || b.tokenLimit.value <= DayUsage(rows).tokens))
    || (b.costLimit.Some? && (b.costLimit.value <= 0.0 || b.costLimit.value <= DayUsage(rows).knownCost))
  }

  /** When the next event is let through: no limit is reached by what is stored, and a cost limit has
      a price to be applied by. */
  lemma LetThroughIffNotReached(b: Budget, rows: seq<UsageRow>, ev: Spending)
    requires b.Enabled()
    ensures LetsThrough(b, rows, ev) <==> !Reached(b, rows) && (b.costLimit.Some? ==> ev.quoted.Some?)
  {
    var g := GateOf(b, rows, ev);
    LetThrough(b, Standing(g, NOTHING_SPENT), g.ceiling, g.pricing);
  }

  /** The rows as the cuts alone would leave them. */
  function CutDown(rows: seq<UsageRow>, events: seq<DayEvent>): seq<UsageRow> {
    if events == [] then rows else SparedBy(CutDown(rows, events[..|events| - 1]), events[|events| - 1])
  }

  /** A limit is reached, by the first rows as cut so far, whenever something wants to spend. */
  predicate ReachedThroughout(b: Budget, rows: seq<UsageRow>, events: seq<DayEvent>) {
    events == [] ||
    (var init, last := events[..|events| - 1], events[|events| - 1];
     ReachedThroughout(b, rows, init) && (last.Spends? ==> Reached(b, CutDown(rows, init))))
  }

  /** A limit that is reached holds for as long as the rows that reached it stay. Until then every
      event is refused and only the cuts change the day; and the first event that meets rows below
      every limit is let through, if a cost limit has a price to be applied by. */
  lemma {:induction false} ReachedLimitHoldsUntilCut(b: Budget, rows: seq<UsageRow>, events: seq<DayEvent>)
    requires b.Enabled() && ReachedThroughout(b, rows, events)
    ensures Replay(b, rows, events) == CutDown(rows, events)
    ensures forall ev: Spending :: LetsThrough(b, Replay(b, rows, events), ev) <==>
              !Reached(b, CutDown(rows, events)) && (b.costLimit.Some? ==> ev.quoted.Some?)
  {
    if events != [] {
      var init, last := events[..|events| - 1], events[|events| - 1];
      ReachedLimitHoldsUntilCut(b, rows, init);
      assert last.Spends? ==> CutDown(rows, init) + LeftBy(b, CutDown(rows, init), last) == CutDown(rows, init);
    }
    forall ev: Spending
      ensures LetsThrough(b, CutDown(rows, events), ev) <==>
              !Reached(b, CutDown(rows, events)) && (b.costLimit.Some? ==> ev.quoted.Some?)
    {
      LetThroughIffNotReached(b, CutDown(rows, events), ev);
    }
  }

  /** Without a cut the day is over. */
  lemma {:induction false} ReachedLimitHolds(b: Budget, rows: seq<UsageRow>, events: seq<DayEvent>)
    requires Reached(b, rows)
    requires forall i :: 0 <= i < |events| ==> events[i].Spends?
    ensures Replay(b, rows, events) == rows
  {
    if events != [] {
      var init, last := events[..|events| - 1], events[|events| - 1];
      ReachedLimitHolds(b, rows, init);
      LetThroughIffNotReached(b, rows, last.what);
      assert rows + LeftBy(b, rows, last) == rows;
    }
  }

  /** The witness: one turn reaches the limit, a regenerate takes its row, and the day is open again;
      had the row been a receipt, it would have stayed shut. */
  lemma TruncationReopensTheDay(limit: int, row: UsageRow, ev: Spending)
    requires 0 < limit <= row.account.promptTokens + row.account.completionTokens
    ensures var b, cut := Budget(Some(limit), None), Cuts(row.conversation, row.seqNo);
            && !LetsThrough(b, [row], ev)
            && (LetsThrough(b, Replay(b, [row], [cut]), ev) <==> row.kind.TurnRow?)
  {
    var b, cut := Budget(Some(limit), None), Cuts(row.conversation, row.seqNo);
    DayGrows([], row);
    assert [] + [row] == [row];
    KeepOne(Spared(row.conversation, row.seqNo), row);
    assert Replay(b, [row], []) == [row];
    assert Replay(b, [row], [cut]) == SparedBy([row], cut);
    LetThroughIffNotReached(b, [row], ev);
    LetThroughIffNotReached(b, [], ev);
  }
}
