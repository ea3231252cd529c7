/** What one turn consumed, at what price, for what cost: `newTurnAccounting`, `inputCost` and
    `aggregateTurn`, with absence kept apart from zero throughout. */
module Accounting {
  import opened Sequences
  import opened Estimator
  import opened Tools

  /** `Silent` is the empty reason of a provider that said nothing; `Vendor` is any reason a
      gateway invents. */
  datatype FinishReason =
    | Silent
    | Stop
    | Length
    | Aborted
    | Deadline
    | Failed
    | ToolCalls
    | ToolRoundLimit
    | Vendor(text: string)

  datatype UsageSource = Unknown | Provider | Estimated

  datatype Usage = Usage(
    promptTokens: int,
    completionTokens: int,
    totalTokens: Option<int>,
    cacheRead: Option<int>,
    cacheCreation: Option<int>,
    cached: Option<int>,
    reasoning: Option<int>)

  /** The provider's own account of one call beyond its two counts. */
  datatype RoundUsage = RoundUsage(
    totalTokens: Option<int>,
    cacheRead: Option<int>,
    cacheCreation: Option<int>,
    cached: Option<int>,
    reasoning: Option<int>)

  datatype Price = Price(
    inputRate: real,
    outputRate: real,
    cacheReadRate: Option<real>,
    cacheCreationRate: Option<real>)

  datatype RoundTool = RoundTool(name: ToolName, status: CallStatus, errorCode: ErrorCode)

  /** What one provider call of a turn consumed and produced. */
  datatype ProviderRound = ProviderRound(
    streamOpened: bool,
    usage: Option<Usage>,
    content: string,
    reasoning: string,
    estimatedPrompt: int,
    addedCharacters: int,
    finish: FinishReason,
    tools: seq<RoundTool>)

  datatype TurnAccount = TurnAccount(
    source: UsageSource,
    promptTokens: int,
    completionTokens: int,
    inputRate: Option<real>,
    outputRate: Option<real>,
    cost: Option<real>,
    estimatedPrompt: Option<int>,
    cacheRead: Option<int>,
    cacheCreation: Option<int>,
    reasoning: Option<int>)

  const NOTHING_KNOWN := TurnAccount(Unknown, 0, 0, None, None, None, None, None, None, None)

  function NonNegative(n: int): int {
    if n < 0 then 0 else n
  }

  function ClampOptional(n: Option<int>): Option<int> {
    if n.None? then None else Some(NonNegative(n.value))
  }

  /** Absent plus present is present; absent plus absent stays absent. */
  function AddOptional(a: Option<int>, b: Option<int>): Option<int> {
    if a.None? then b else if b.None? then a else Some(a.value + b.value)
  }

  function RateOr(rate: Option<real>, fallback: real): real {
    if rate.None? then fallback else rate.value
  }

  function CountOr0(n: Option<int>): int {
    if n.None? then 0 else n.value
  }

  /** The prompt side of one call, split by how each token was billed. */
  function InputCost(account: TurnAccount, price: Price): real {
    var read, creation := CountOr0(account.cacheRead), CountOr0(account.cacheCreation);
    var full := NonNegative(account.promptTokens - read - creation);
    full as real * price.inputRate
    + read as real * RateOr(price.cacheReadRate, price.inputRate)
    + creation as real * RateOr(price.cacheCreationRate, price.inputRate)
  }

  /** The token half of `newTurnAccounting`: measured, else estimated, else unknown. */
  function Measured(round: ProviderRound, est: TokenEstimator): TurnAccount {
    var base := NOTHING_KNOWN.(estimatedPrompt :=
                                 if round.estimatedPrompt > 0 then Some(round.estimatedPrompt) else None);
    if round.usage.Some? then
      var u := round.usage.value;
      base.(source := Provider,
            promptTokens := NonNegative(u.promptTokens),
            completionTokens := NonNegative(u.completionTokens),
            cacheRead := ClampOptional(u.cacheRead),
            cacheCreation := ClampOptional(u.cacheCreation),
            reasoning := ClampOptional(u.reasoning))
    else if round.streamOpened then
      base.(source := Estimated,
            promptTokens := round.estimatedPrompt,
            completionTokens := est.Tokens(|round.content| + |round.reasoning|))
    else
      base
  }

  /** `newTurnAccounting`: an unknown call has no price and no cost, and a call without a rate
      card keeps its tokens and no cost. */
  function NewTurnAccount(round: ProviderRound, price: Option<Price>, est: TokenEstimator): TurnAccount {
    var account := Measured(round, est);
    if account.source.Unknown? || price.None? then account
    else
      var p := price.value;
      account.(inputRate := Some(p.inputRate),
               outputRate := Some(p.outputRate),
               cost := Some(InputCost(account, p) + account.completionTokens as real * p.outputRate))
  }

  /* ---- a turn that called the provider more than once ---- */

  /** One round of the fold in `aggregateTurn`. A call that never opened adds only its
      prediction, which is carried beside the account. */
  function AddCall(total: TurnAccount, account: TurnAccount): TurnAccount {
    total.(promptTokens := total.promptTokens + account.promptTokens,
           completionTokens := total.completionTokens + account.completionTokens,
           cacheRead := AddOptional(total.cacheRead, account.cacheRead),
           cacheCreation := AddOptional(total.cacheCreation, account.cacheCreation),
           reasoning := AddOptional(total.reasoning, account.reasoning),
           source :=
             if account.source.Estimated? then Estimated
             else if !total.source.Estimated? then Provider
             else total.source,
           cost :=
             if account.cost.None? then total.cost
             else if total.cost.None? then account.cost
             else Some(total.cost.value + account.cost.value))
  }

  function Billed(rounds: seq<ProviderRound>, price: Option<Price>, est: TokenEstimator): seq<TurnAccount> {
    if rounds == [] then []
    else
      var last := rounds[|rounds| - 1];
      if last.streamOpened then Billed(rounds[..|rounds| - 1], price, est) + [NewTurnAccount(last, price, est)]
      else Billed(rounds[..|rounds| - 1], price, est)
  }

  function Total(accounts: seq<TurnAccount>): TurnAccount {
    if accounts == [] then NOTHING_KNOWN
    else AddCall(Total(accounts[..|accounts| - 1]), accounts[|accounts| - 1])
  }

  function PredictionOf(round: ProviderRound): int { round.estimatedPrompt }
  function PromptOf(a: TurnAccount): int { a.promptTokens }
  function CompletionOf(a: TurnAccount): int { a.completionTokens }
  function CacheReadOf(a: TurnAccount): int { CountOr0(a.cacheRead) }
  function CacheCreationOf(a: TurnAccount): int { CountOr0(a.cacheCreation) }
  function ReasoningOf(a: TurnAccount): int { CountOr0(a.reasoning) }
  function CostOf(a: TurnAccount): real { if a.cost.None? then 0.0 else a.cost.value }

  /** What the whole turn stores. */
  function TurnTotal(rounds: seq<ProviderRound>, price: Option<Price>, est: TokenEstimator): TurnAccount {
    var total := Total(Billed(rounds, price, est));
    var predicted := SumBy(PredictionOf, rounds);
    var withPrediction :=
      total.(estimatedPrompt := if predicted > 0 then Some(predicted) else None);
    if price.Some? && total.cost.Some? then
      withPrediction.(inputRate := Some(price.value.inputRate),
                      outputRate := Some(price.value.outputRate))
    else withPrediction
  }

  /** One call as the report lists it. */
  datatype RoundReport = RoundReport(
    round: nat,
    addedCharacters: int,
    addedTokens: int,
    account: TurnAccount,
    finish: FinishReason,
    tools: seq<RoundTool>,
    detail: Option<RoundUsage>)

  /** `roundUsageOf`: absent when the provider said nothing beyond the two counts. */
  function RoundUsageOf(u: Option<Usage>): (detail: Option<RoundUsage>)
    ensures detail.None? <==>
              u.None? || (u.value.totalTokens.None? && u.value.cacheRead.None? && u.value.cacheCreation.None?
                          && u.value.cached.None? && u.value.reasoning.None?)
  {
    if u.None? then None
    else
      var said := RoundUsage(u.value.totalTokens, ClampOptional(u.value.cacheRead),
                             ClampOptional(u.value.cacheCreation), ClampOptional(u.value.cached),
                             ClampOptional(u.value.reasoning));
      if said == RoundUsage(None, None, None, None, None) then None else Some(said)
  }

  function ReportOf(k: nat, r: ProviderRound, price: Option<Price>, est: TokenEstimator): RoundReport {
    RoundReport(k + 1, r.addedCharacters, est.Tokens(r.addedCharacters),
                NewTurnAccount(r, price, est), r.finish, r.tools, RoundUsageOf(r.usage))
  }

  /** The running totals of the loop, after `rounds`. */
  predicate Running(total: TurnAccount, estimated: int, openedCalls: int,
                    rounds: seq<ProviderRound>, price: Option<Price>, est: TokenEstimator)
  {
    && total == Total(Billed(rounds, price, est))
    && estimated == SumBy(PredictionOf, rounds)
    && openedCalls == |Billed(rounds, price, est)|
  }

  /** One more round: billed if its stream opened, predicted either way. */
  method AddRound(total: TurnAccount, estimated: int, openedCalls: int, r: ProviderRound, account: TurnAccount,
                  ghost rounds: seq<ProviderRound>, ghost price: Option<Price>, ghost est: TokenEstimator)
    returns (total': TurnAccount, estimated': int, openedCalls': int)
    requires Running(total, estimated, openedCalls, rounds, price, est) && account == NewTurnAccount(r, price, est)
    ensures Running(total', estimated', openedCalls', rounds + [r], price, est)
  {
    total', estimated', openedCalls' := total, estimated + r.estimatedPrompt, openedCalls;
    assert (rounds + [r])[..|rounds|] == rounds;
    ghost var before := Billed(rounds, price, est);
    assert (before + [account])[..|before|] == before;
    if r.streamOpened {
      total', openedCalls' := AddCall(total, account), openedCalls + 1;
    }
  }

  lemma {:induction false} TotalsPredictNothing(accounts: seq<TurnAccount>)
    ensures Total(accounts).estimatedPrompt.None?
    ensures accounts == [] ==> Total(accounts).cost.None?
  {
    if accounts != [] {
      TotalsPredictNothing(accounts[..|accounts| - 1]);
    }
  }

  /** `aggregateTurn`: the running totals of the loop end as the totals of the billed calls, and
      every round, opened or not, is listed once in order. */
  method AggregateTurn(rounds: seq<ProviderRound>, price: Option<Price>, est: TokenEstimator)
    returns (total: TurnAccount, reports: seq<RoundReport>)
    ensures total == TurnTotal(rounds, price, est)
    ensures |reports| == |rounds|
    ensures forall k :: 0 <= k < |rounds| ==> reports[k] == ReportOf(k, rounds[k], price, est)
  {
    reports := [];
    total := NOTHING_KNOWN;
    var estimated, openedCalls := 0, 0;
    for i := 0 to |rounds|
      invariant Running(total, estimated, openedCalls, rounds[..i], price, est)
      invariant |reports| == i
      invariant forall k :: 0 <= k < i ==> reports[k] == ReportOf(k, rounds[k], price, est)
    {
      var r := rounds[i];
      var account := NewTurnAccount(r, price, est);
      reports := reports + [RoundReport(i + 1, r.addedCharacters, est.Tokens(r.addedCharacters), account,
                                        r.finish, r.tools, RoundUsageOf(r.usage))];
      total, estimated, openedCalls := AddRound(total, estimated, openedCalls, r, account, rounds[..i], price, est);
      assert rounds[..i + 1] == rounds[..i] + [rounds[i]];
    }
    assert rounds[..|rounds|] == rounds;
    total := Stamp(total, estimated, openedCalls, rounds, price, est);
  }

  /** What the loop leaves to be said of the whole: the prediction, and the rates if it has a cost. */
  method Stamp(total: TurnAccount, estimated: int, openedCalls: int, ghost rounds: seq<ProviderRound>,
               price: Option<Price>, ghost est: TokenEstimator)
    returns (stamped: TurnAccount)
    requires Running(total, estimated, openedCalls, rounds, price, est)
    ensures stamped == TurnTotal(rounds, price, est)
  {
    stamped := total;
    if estimated > 0 {
      stamped := stamped.(estimatedPrompt := Some(estimated));
    }
    TotalsPredictNothing(Billed(rounds, price, est));
    if openedCalls == 0 {
      return;
    }
    if price.Some? && stamped.cost.Some? {
      stamped := stamped.(inputRate := Some(price.value.inputRate), outputRate := Some(price.value.outputRate));
    }
  }

  /** Every figure of a turn is the sum over the calls that were billed, an optional count is
      absent exactly when every call left it absent, and the source is the weakest link. */
  lemma {:induction false} TotalsAreSums(accounts: seq<TurnAccount>)
    ensures var t := Total(accounts);
            && t.promptTokens == SumBy(PromptOf, accounts)
            && t.completionTokens == SumBy(CompletionOf, accounts)
            && CountOr0(t.cacheRead) == SumBy(CacheReadOf, accounts)
            && CountOr0(t.cacheCreation) == SumBy(CacheCreationOf, accounts)
            && CountOr0(t.reasoning) == SumBy(ReasoningOf, accounts)
            && CostOf(t) == RealSumBy(CostOf, accounts)
            && (t.cacheRead.None? <==> forall i :: 0 <= i < |accounts| ==> accounts[i].cacheRead.None?)
            && (t.cacheCreation.None? <==> forall i :: 0 <= i < |accounts| ==> accounts[i].cacheCreation.None?)
            && (t.reasoning.None? <==> forall i :: 0 <= i < |accounts| ==> accounts[i].reasoning.None?)
            && (t.cost.None? <==> forall i :: 0 <= i < |accounts| ==> accounts[i].cost.None?)
            && (t.source.Unknown? <==> accounts == [])
            && (t.source.Estimated? <==> exists i :: 0 <= i < |accounts| && accounts[i].source.Estimated?)
            && t.inputRate.None? && t.outputRate.None? && t.estimatedPrompt.None?
  {
    TotalsAdd(accounts);
    TotalsArePresent(accounts);
  }

  lemma {:induction false} TotalsAdd(accounts: seq<TurnAccount>)
    ensures var t := Total(accounts);
            && t.promptTokens == SumBy(PromptOf, accounts)
            && t.completionTokens == SumBy(CompletionOf, accounts)
            && CountOr0(t.cacheRead) == SumBy(CacheReadOf, accounts)
            && CountOr0(t.cacheCreation) == SumBy(CacheCreationOf, accounts)
            && CountOr0(t.reasoning) == SumBy(ReasoningOf, accounts)
            && CostOf(t) == RealSumBy(CostOf, accounts)
            && t.inputRate.None? && t.outputRate.None? && t.estimatedPrompt.None?
  {
    if accounts != [] {
      TotalsAdd(accounts[..|accounts| - 1]);
    }
  }

  lemma {:induction false} TotalsArePresent(accounts: seq<TurnAccount>)
    ensures var t := Total(accounts);
            && (t.cacheRead.None? <==> forall i :: 0 <= i < |accounts| ==> accounts[i].cacheRead.None?)
            && (t.cacheCreation.None? <==> forall i :: 0 <= i < |accounts| ==> accounts[i].cacheCreation.None?)
            && (t.reasoning.None? <==> forall i :: 0 <= i < |accounts| ==> accounts[i].reasoning.None?)
            && (t.cost.None? <==> forall i :: 0 <= i < |accounts| ==> accounts[i].cost.None?)
            && (t.source.Unknown? <==> accounts == [])
            && (t.source.Estimated? <==> exists i :: 0 <= i < |accounts| && accounts[i].source.Estimated?)
  {
    if accounts != [] {
      var n := |accounts| - 1;
      TotalsArePresent(accounts[..n]);
      assert forall i :: 0 <= i < n ==> accounts[..n][i] == accounts[i];
    }
  }

  /** The statement of a multi-call turn: sums over the opened calls; the source is unknown
      exactly when nothing opened and the provider's exactly when every opened call was
      measured; there is no cost exactly when there is no price or nothing opened. */
  lemma {:induction false} TurnStatement(rounds: seq<ProviderRound>, price: Option<Price>, est: TokenEstimator)
    ensures var t := TurnTotal(rounds, price, est);
            var billed := Billed(rounds, price, est);
            && t.promptTokens == SumBy(PromptOf, billed)
            && t.completionTokens == SumBy(CompletionOf, billed)
            && CountOr0(t.cacheRead) == SumBy(CacheReadOf, billed)
            && CountOr0(t.cacheCreation) == SumBy(CacheCreationOf, billed)
            && CountOr0(t.reasoning) == SumBy(ReasoningOf, billed)
            && CostOf(t) == RealSumBy(CostOf, billed)
            && (t.source.Unknown? <==> forall i :: 0 <= i < |rounds| ==> !rounds[i].streamOpened)
            && (t.source.Provider? <==>
                  (exists i :: 0 <= i < |rounds| && rounds[i].streamOpened) &&
                  (forall i :: 0 <= i < |rounds| && rounds[i].streamOpened ==> rounds[i].usage.Some?))
            && (t.cost.None? <==> price.None? || forall i :: 0 <= i < |rounds| ==> !rounds[i].streamOpened)
  {
    TotalsAreSums(Billed(rounds, price, est));
    BilledCalls(rounds, price, est);
  }

  lemma AddToNothing(a: TurnAccount)
    requires !a.source.Unknown?
    ensures Total([a]) == a.(estimatedPrompt := None, inputRate := None, outputRate := None)
  {
    assert [a][..0] == [];
    assert Total([a]) == AddCall(NOTHING_KNOWN, a);
  }

  /** A turn of one opened call is stored exactly as that call is accounted. */
  lemma OneCallStatement(r: ProviderRound, price: Option<Price>, est: TokenEstimator)
    requires r.streamOpened
    ensures TurnTotal([r], price, est) == NewTurnAccount(r, price, est)
  {
    var account := NewTurnAccount(r, price, est);
    assert [r][..0] == [];
    assert SumBy(PredictionOf, [r]) == SumBy(PredictionOf, []) + r.estimatedPrompt;
    assert Billed([r], price, est) == Billed([], price, est) + [account] == [account];
    AddToNothing(account);
  }

  /** The billed calls against the rounds they came from. */
  lemma {:induction false} BilledCalls(rounds: seq<ProviderRound>, price: Option<Price>, est: TokenEstimator)
    ensures var billed := Billed(rounds, price, est);
            && (billed == [] <==> forall i :: 0 <= i < |rounds| ==> !rounds[i].streamOpened)
            && (forall i :: 0 <= i < |billed| ==> !billed[i].source.Unknown?)
            && (forall i :: 0 <= i < |billed| ==> (billed[i].cost.None? <==> price.None?))
            && ((exists i :: 0 <= i < |billed| && billed[i].source.Estimated?) <==>
                (exists i :: 0 <= i < |rounds| && rounds[i].streamOpened && rounds[i].usage.None?))
  {
    if rounds != [] {
      var n := |rounds| - 1;
      var init := Billed(rounds[..n], price, est);
      var billed := Billed(rounds, price, est);
      BilledCalls(rounds[..n], price, est);
      assert forall i :: 0 <= i < n ==> rounds[..n][i] == rounds[i];
      assert forall i :: 0 <= i < |init| ==> billed[i] == init[i];
      if rounds[n].streamOpened && rounds[n].usage.None? {
        assert billed[|init|].source.Estimated?;
      }
    }
  }

  predicate NoNegativeRate(p: Price) {
    p.inputRate >= 0.0 && RateOr(p.cacheReadRate, 0.0) >= 0.0 && RateOr(p.cacheCreationRate, 0.0) >= 0.0
  }

  /** The three billing classes partition the prompt when the provider's counts do, nothing is
      charged negatively, and a card without cache rates charges the larger of the prompt and
      the cached counts at the input rate. */
  lemma InputCostPartition(a: TurnAccount, p: Price)
    requires a.promptTokens >= 0 && CountOr0(a.cacheRead) >= 0 && CountOr0(a.cacheCreation) >= 0
    ensures var read, creation := CountOr0(a.cacheRead), CountOr0(a.cacheCreation);
            && (read + creation <= a.promptTokens ==>
                  InputCost(a, p) ==
                  (a.promptTokens - read - creation) as real * p.inputRate
                  + read as real * RateOr(p.cacheReadRate, p.inputRate)
                  + creation as real * RateOr(p.cacheCreationRate, p.inputRate))
            && (NoNegativeRate(p) ==> InputCost(a, p) >= 0.0)
            && (p.cacheReadRate.None? && p.cacheCreationRate.None? ==>
                  InputCost(a, p) ==
                  (if a.promptTokens >= read + creation then a.promptTokens else read + creation) as real
                  * p.inputRate)
  {
    var read, creation := CountOr0(a.cacheRead), CountOr0(a.cacheCreation);
    var full := NonNegative(a.promptTokens - read - creation);
    if p.cacheReadRate.None? && p.cacheCreationRate.None? {
      assert full as real * p.inputRate + read as real * p.inputRate + creation as real * p.inputRate
          == (full + read + creation) as real * p.inputRate;
    }
  }

  /** No call is ever accounted a negative number of tokens, whatever a gateway reports. */
  lemma CountsNeverNegative(round: ProviderRound, price: Option<Price>, est: TokenEstimator)
    requires round.estimatedPrompt >= 0
    ensures var a := NewTurnAccount(round, price, est);
            && a.promptTokens >= 0 && a.completionTokens >= 0
            && CountOr0(a.cacheRead) >= 0 && CountOr0(a.cacheCreation) >= 0 && CountOr0(a.reasoning) >= 0
  {
    TokensMonotone(est, 0, |round.content| + |round.reasoning|);
  }
}
