/** The daily budget: the pure rule (`domain.Evaluate`) and the gate that applies it before every
    provider call of a turn. */
module Budget {
  import opened Sequences
  import opened Estimator
  import opened Accounting

  /** An absent limit is no limit; a limit of zero freezes the agent. */
  datatype Budget = Budget(tokenLimit: Option<int>, costLimit: Option<real>) {
    predicate Enabled() { tokenLimit.Some? || costLimit.Some? }
  }

  datatype DailyUsage = DailyUsage(tokens: int, knownCost: real, unpricedTurns: int)

  datatype TurnCeiling = TurnCeiling(estimatedPrompt: int, maxOutput: int) {
    function Tokens(): int { estimatedPrompt + maxOutput }

    function Cost(inputRate: real, outputRate: real): real {
      estimatedPrompt as real * inputRate + maxOutput as real * outputRate
    }
  }

  datatype Pricing = Pricing(available: bool, inputRate: real, outputRate: real)

  datatype BudgetState = Fine | Warning | Blocked

  datatype BlockReason = NotBlocked | TokenLimitReached | CostLimitReached | PricingUnavailable

  datatype Dimension = Dimension(limit: real, used: real, remaining: real, percent: real, state: BudgetState)

  datatype Evaluation = Evaluation(
    enabled: bool,
    blocked: bool,
    reason: BlockReason,
    tokens: Option<Dimension>,
    cost: Option<Dimension>,
    unpricedTurns: int,
    certain: bool,
    nextTurnFits: Option<bool>)

  const DISABLED := Evaluation(false, false, NotBlocked, None, None, 0, false, None)

  const WARNING_THRESHOLD := 0.8

  function DimensionOf(limit: real, used: real): (d: Dimension)
    ensures d.state.Blocked? <==> limit <= 0.0 || limit <= used
    ensures d.remaining >= 0.0
  {
    var remaining := if limit - used < 0.0 then 0.0 else limit - used;
    if limit <= 0.0 then Dimension(limit, used, remaining, 1.0, Blocked)
    else
      var percent := used / limit;
      Dimension(limit, used, remaining, percent,
                if used >= limit then Blocked
                else if percent >= WARNING_THRESHOLD then Warning
                else Fine)
  }

  /** The rule. Tokens before cost, because the token rule needs no rate card; a cost limit
      with no price to apply it by blocks. */
  function EvaluateBudget(b: Budget, u: DailyUsage, ceiling: TurnCeiling, p: Pricing): Evaluation {
    if !b.Enabled() then
      DISABLED.(unpricedTurns := u.unpricedTurns, certain := u.unpricedTurns == 0)
    else
      var tokens :=
        if b.tokenLimit.Some? then Some(DimensionOf(b.tokenLimit.value as real, u.tokens as real)) else None;
      var cost :=
        if b.costLimit.Some? then Some(DimensionOf(b.costLimit.value, u.knownCost)) else None;
      var reason :=
        if tokens.Some? && tokens.value.state.Blocked? then TokenLimitReached
        else if cost.Some? && cost.value.state.Blocked? then CostLimitReached
        else if b.costLimit.Some? && !p.available then PricingUnavailable
        else NotBlocked;
      var fits :=
        && (b.tokenLimit.Some? ==> (u.tokens + ceiling.Tokens()) as real <= b.tokenLimit.value as real)
        && (b.costLimit.Some? && p.available ==>
              u.knownCost + ceiling.Cost(p.inputRate, p.outputRate) <= b.costLimit.value);
      Evaluation(true, !reason.NotBlocked?, reason, tokens, cost,
                 u.unpricedTurns, u.unpricedTurns == 0, Some(fits))
  }

  /** What a caller may rely on when a turn is let through: every configured limit still has
      room, and a cost limit has a price to be applied by. And it is refused otherwise. */
  lemma LetThrough(b: Budget, u: DailyUsage, ceiling: TurnCeiling, p: Pricing)
    ensures !EvaluateBudget(b, u, ceiling, p).blocked <==>
            && (b.tokenLimit.Some? ==> u.tokens < b.tokenLimit.value && 0 < b.tokenLimit.value)
            && (b.costLimit.Some? ==> u.knownCost < b.costLimit.value && 0.0 < b.costLimit.value && p.available)
  {
  }

  /** The ceiling only ever warns: no ceiling changes what is refused or why. */
  lemma CeilingNeverRefuses(b: Budget, u: DailyUsage, c1: TurnCeiling, c2: TurnCeiling, p: Pricing)
    ensures EvaluateBudget(b, u, c1, p).blocked == EvaluateBudget(b, u, c2, p).blocked
    ensures EvaluateBudget(b, u, c1, p).reason == EvaluateBudget(b, u, c2, p).reason
  {
  }

  /* ---- the gate ---- */

  /** Everything about the gate that does not change during a turn. */
  datatype GateConfig = GateConfig(
    budget: Budget,
    usage: DailyUsage,
    pricing: Pricing,
    ceiling: TurnCeiling,
    price: Option<Price>,
    est: TokenEstimator)

  /** What one turn has consumed so far and nothing has written down yet. */
  datatype Spend = Spend(tokens: int, cost: real)

  const NOTHING_SPENT := Spend(0, 0.0)

  function Standing(g: GateConfig, s: Spend): DailyUsage {
    DailyUsage(g.usage.tokens + s.tokens, g.usage.knownCost + s.cost, g.usage.unpricedTurns)
  }

  function Verdict(g: GateConfig, s: Spend): Evaluation {
    if !g.budget.Enabled() then DISABLED else EvaluateBudget(g.budget, Standing(g, s), g.ceiling, g.pricing)
  }

  function AfterCall(g: GateConfig, s: Spend, round: ProviderRound): Spend {
    if !g.budget.Enabled() || !round.streamOpened then s
    else
      var account := NewTurnAccount(round, g.price, g.est);
      Spend(s.tokens + account.promptTokens + account.completionTokens, s.cost + CostOf(account))
  }

  /** `turnGate`: consulted before every call after the first, told about every call made. */
  class TurnGate {
    const config: GateConfig
    var spentTokens: int
    var spentCost: real

    function Spent(): Spend
      reads this
    {
      Spend(spentTokens, spentCost)
    }

    constructor (config: GateConfig)
      ensures this.config == config && Spent() == NOTHING_SPENT
    {
      this.config := config;
      spentTokens, spentCost := 0, 0.0;
    }

    method Evaluate() returns (ev: Evaluation)
      ensures ev == Verdict(config, Spent())
      ensures ev.blocked <==>
              && config.budget.Enabled()
              && !((config.budget.tokenLimit.Some? ==>
                      0 < config.budget.tokenLimit.value
                      && config.usage.tokens + spentTokens < config.budget.tokenLimit.value)
                   && (config.budget.costLimit.Some? ==>
                         0.0 < config.budget.costLimit.value
                         && config.usage.knownCost + spentCost < config.budget.costLimit.value
                         && config.pricing.available))
    {
      if !config.budget.Enabled() {
        return DISABLED;
      }
      var used := DailyUsage(config.usage.tokens + spentTokens,
                             config.usage.knownCost + spentCost,
                             config.usage.unpricedTurns);
      LetThrough(config.budget, used, config.ceiling, config.pricing);
      ev := EvaluateBudget(config.budget, used, config.ceiling, config.pricing);
    }

    method Record(round: ProviderRound)
      modifies this
      ensures Spent() == AfterCall(config, old(Spent()), round)
    {
      if !config.budget.Enabled() || !round.streamOpened {
        return;
      }
      var account := NewTurnAccount(round, config.price, config.est);
      spentTokens := spentTokens + account.promptTokens + account.completionTokens;
      if account.cost.Some? {
        spentCost := spentCost + account.cost.value;
      }
    }
  }

  /* ---- the gate against the statement ---- */

  /** What the gate holds after being told about `rounds`, in order. */
  function SpendOver(g: GateConfig, rounds: seq<ProviderRound>): Spend {
    if rounds == [] then NOTHING_SPENT
    else AfterCall(g, SpendOver(g, rounds[..|rounds| - 1]), rounds[|rounds| - 1])
  }

  /** The gate and the statement never disagree: after any rounds the gate's tokens are the
      statement's prompt plus completion, and when the gate holds a price its cost is the
      statement's cost, which exists as soon as one call opened. */
  lemma {:induction false} GateMatchesStatement(g: GateConfig, rounds: seq<ProviderRound>)
    requires g.budget.Enabled()
    ensures var s, t := SpendOver(g, rounds), TurnTotal(rounds, g.price, g.est);
            && s.tokens == t.promptTokens + t.completionTokens
            && s.cost == CostOf(t)
            && (g.price.Some? && (exists i :: 0 <= i < |rounds| && rounds[i].streamOpened) ==>
                  t.cost == Some(s.cost))
  {
    SpendIsSum(g, rounds);
    TurnStatement(rounds, g.price, g.est);
  }

  lemma {:induction false} SpendIsSum(g: GateConfig, rounds: seq<ProviderRound>)
    requires g.budget.Enabled()
    ensures var billed := Billed(rounds, g.price, g.est);
            SpendOver(g, rounds) ==
            Spend(SumBy(PromptOf, billed) + SumBy(CompletionOf, billed), RealSumBy(CostOf, billed))
  {
    if rounds != [] {
      var last := rounds[|rounds| - 1];
      var init := Billed(rounds[..|rounds| - 1], g.price, g.est);
      SpendIsSum(g, rounds[..|rounds| - 1]);
      if last.streamOpened {
        assert (init + [NewTurnAccount(last, g.price, g.est)])[..|init|] == init;
      }
    }
  }
}
