/** The circuit breaker: realised damage decides a state, and the state scales the risk budget. */
module RiskConfig {
  import opened Prelude

  datatype CircuitState = NORMAL | CAUTION | REDUCED | HALTED | EMERGENCY

  datatype CircuitLimits = CircuitLimits(maxDailyLossPercent: real, maxDrawdownPercent: real, maxLossStreak: int)

  /** What went wrong so far. */
  datatype Damage = Damage(dailyLossPercent: real, drawdownPercent: real, lossStreak: int)

  function DeriveCircuitState(d: Damage, limits: CircuitLimits): CircuitState {
    if d.drawdownPercent >= limits.maxDrawdownPercent then EMERGENCY
    else if d.dailyLossPercent >= limits.maxDailyLossPercent then HALTED
    else if d.dailyLossPercent >= limits.maxDailyLossPercent * 0.75 then REDUCED
    else if d.dailyLossPercent >= limits.maxDailyLossPercent * 0.5 then CAUTION
    else if d.lossStreak >= limits.maxLossStreak then REDUCED
    else if d.lossStreak >= Max(1, limits.maxLossStreak - 1) then CAUTION
    else NORMAL
  }

  function CircuitRiskMultiplier(state: CircuitState): real {
    match state
    case NORMAL => 1.0
    case CAUTION => 0.75
    case REDUCED => 0.5
    case HALTED => 0.0
    case EMERGENCY => 0.0
  }

  function Multiplier(d: Damage, limits: CircuitLimits): real {
    CircuitRiskMultiplier(DeriveCircuitState(d, limits))
  }

  /** `b` is at least as much damage as `a` in every respect. */
  predicate Worse(a: Damage, b: Damage) {
    a.dailyLossPercent <= b.dailyLossPercent && a.drawdownPercent <= b.drawdownPercent && a.lossStreak <= b.lossStreak
  }

  /**
    The levels of the multiplier: nothing when drawdown or the daily loss is at its limit; half from
    three quarters of the daily limit on, or at the streak limit before half of it; all of it only
    below half the daily limit with a streak that is zero, or at least two short of its limit.
   */
  lemma LevelsExactly(d: Damage, limits: CircuitLimits)
    ensures Multiplier(d, limits) in {0.0, 0.5, 0.75, 1.0}
    ensures var loss, streak := d.dailyLossPercent, d.lossStreak;
      var stopped := d.drawdownPercent >= limits.maxDrawdownPercent || loss >= limits.maxDailyLossPercent;
      var high, half := 4.0 * loss >= 3.0 * limits.maxDailyLossPercent, 2.0 * loss >= limits.maxDailyLossPercent;
      && (Multiplier(d, limits) == 0.0 <==> stopped)
      && (Multiplier(d, limits) <= 0.5 <==> stopped || high || (!half && streak >= limits.maxLossStreak))
      && (Multiplier(d, limits) == 1.0 <==>
            !stopped && !high && !half && streak < limits.maxLossStreak &&
            (streak < 1 || streak + 2 <= limits.maxLossStreak))
  {
  }

  /** More damage never raises the multiplier, for a loss streak that has not reached its limit. */
  lemma MoreDamageNeverRaises(a: Damage, b: Damage, limits: CircuitLimits)
    requires Worse(a, b)
    requires a.lossStreak < limits.maxLossStreak || limits.maxDailyLossPercent <= 0.0
    ensures Multiplier(b, limits) <= Multiplier(a, limits)
  {
  }

  /**
    Exactly when the multiplier falls with the daily loss, other damage fixed: the loss streak is
    below its limit, or drawdown has already stopped trading, or the daily limit is not positive.
    At the streak limit a day without loss halves the budget, and losing half the limit gives part of it back.
   */
  lemma FallsWithDailyLossExactly(drawdown: real, streak: int, limits: CircuitLimits)
    ensures (forall x: real, y: real :: x <= y ==>
      Multiplier(Damage(y, drawdown, streak), limits) <= Multiplier(Damage(x, drawdown, streak), limits))
      <==> streak < limits.maxLossStreak || drawdown >= limits.maxDrawdownPercent || limits.maxDailyLossPercent <= 0.0
  {
    if streak >= limits.maxLossStreak && drawdown < limits.maxDrawdownPercent && limits.maxDailyLossPercent > 0.0 {
      var x, y := 0.0, limits.maxDailyLossPercent * 0.5;
      assert Multiplier(Damage(x, drawdown, streak), limits) == 0.5;
      assert Multiplier(Damage(y, drawdown, streak), limits) == 0.75;
    } else {
      forall x: real, y: real | x <= y
        ensures Multiplier(Damage(y, drawdown, streak), limits) <= Multiplier(Damage(x, drawdown, streak), limits)
      {
      }
    }
  }
}
