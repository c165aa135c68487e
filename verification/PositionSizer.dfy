/**
  Position sizing: risk budget to quantity, through lot floor, minimum-notional bump, notional
  cap, margin and a final risk check.
 */
module PositionSizer {
  import opened Prelude
  import opened Primitives

  datatype ContractSpec = ContractSpec(
    lotSize: real,
    minQuantity: real,
    maxQuantity: real,
    minNotional: real,
    maxLeverage: real
  )

  datatype RiskLimits = RiskLimits(
    maxRiskPerTradePercent: real,
    maxLeverage: real,
    maxNotionalPerTrade: real,
    feeRateTaker: real,
    slippageBufferRate: real
  )

  datatype SizingInput = SizingInput(
    equity: real,
    availableMargin: real,
    entry: real,
    stop: real,
    requestedLeverage: real,
    fundingRate: Option<real>,
    fundingPeriods: Option<real>,
    spec: ContractSpec,
    limits: RiskLimits,
    circuitMultiplier: real
  )

  datatype Refusal =
    | ZERO_RISK_BUDGET
    | NO_STOP_DISTANCE
    | BELOW_MIN_QUANTITY
    | MIN_NOTIONAL_EXCEEDS_BUDGET
    | CAP_BELOW_MIN_QUANTITY
    | INSUFFICIENT_MARGIN
    | FINAL_RISK_EXCEEDS_BUDGET

  datatype Warning = BUMPED_TO_MIN_NOTIONAL | REDUCED_BY_CAP

  datatype Resolution = Quantity(q: real) | Refused(refusal: Refusal)

  datatype SizingResult =
    | Rejected(refusal: Refusal, leverage: real, warnings: seq<Warning>)
    | Sized(
        quantity: real,
        notional: real,
        marginRequired: real,
        leverage: real,
        riskAmount: real,
        effectiveRiskPerUnit: real,
        feePerUnit: real,
        fundingPerUnit: real,
        warnings: seq<Warning>)

  const BUDGET_TOLERANCE := 1.02

  /** What `q` units are worth at `unit` each. */
  function Value(q: real, unit: real): real {
    q * unit
  }

  /** How many units `total` pays for. */
  function Affordable(total: real, unit: real): real
    requires unit != 0.0
  {
    total / unit
  }

  function FeePerUnit(i: SizingInput): real {
    i.entry * (i.limits.feeRateTaker + i.limits.slippageBufferRate) * 2.0
  }

  function FundingPerUnit(i: SizingInput): real {
    i.entry * Abs(i.fundingRate.GetOr(0.0)) * i.fundingPeriods.GetOr(3.0)
  }

  function StopDistance(i: SizingInput): real {
    Abs(i.entry - i.stop)
  }

  function RiskPerUnit(i: SizingInput): real {
    StopDistance(i) + FeePerUnit(i) + FundingPerUnit(i)
  }

  function RiskBudget(i: SizingInput): real {
    i.equity * i.limits.maxRiskPerTradePercent / 100.0 * i.circuitMultiplier
  }

  lemma ProductNotNegative(a: real, b: real)
    requires a >= 0.0 && b >= 0.0
    ensures a * b >= 0.0
  {
  }

  /** What the arithmetic needs of its caller: no division by zero once the first refusals are passed. */
  predicate Divides(i: SizingInput) {
    RiskBudget(i) > 0.0 && StopDistance(i) > 0.0 ==> i.entry != 0.0 && RiskPerUnit(i) != 0.0
  }

  /** The inputs the promises are about: a positive price, and costs that are not negative. */
  predicate Priced(i: SizingInput) {
    && i.entry > 0.0
    && i.limits.feeRateTaker + i.limits.slippageBufferRate >= 0.0
    && i.fundingPeriods.GetOr(3.0) >= 0.0
  }

  lemma CostsArePositive(i: SizingInput)
    requires Priced(i)
    ensures FeePerUnit(i) >= 0.0 && FundingPerUnit(i) >= 0.0 && RiskPerUnit(i) >= StopDistance(i)
    ensures Divides(i)
  {
    ProductNotNegative(i.entry, i.limits.feeRateTaker + i.limits.slippageBufferRate);
    ProductNotNegative(i.entry, Abs(i.fundingRate.GetOr(0.0)));
    ProductNotNegative(i.entry * Abs(i.fundingRate.GetOr(0.0)), i.fundingPeriods.GetOr(3.0));
  }

  /** The quantity within the budget, the quantity the minimum notional forces, and the notional cap. */
  function InBudget(i: SizingInput, budget: real, risk: real): real
    requires risk != 0.0
  {
    FloorToStep(Affordable(budget, risk), i.spec.lotSize)
  }

  function Bumped(i: SizingInput): real
    requires i.entry != 0.0
  {
    MaxReal(CeilToStep(Affordable(i.spec.minNotional, i.entry), i.spec.lotSize), i.spec.minQuantity)
  }

  function Cap(i: SizingInput): real {
    MinReal(i.limits.maxNotionalPerTrade, Value(i.spec.maxQuantity, i.entry))
  }

  function InCap(i: SizingInput): real
    requires i.entry != 0.0
  {
    FloorToStep(Affordable(Cap(i), i.entry), i.spec.lotSize)
  }

  predicate NeedsBump(i: SizingInput, q: real) {
    Value(q, i.entry) < i.spec.minNotional
  }

  predicate OverCap(i: SizingInput, q: real) {
    Value(q, i.entry) > Cap(i)
  }

  /** The cap: the quantity itself, or the largest step below the cap when that reaches the minimum. */
  function Capped(i: SizingInput, q: real, warnings: seq<Warning>): (Resolution, seq<Warning>)
    requires i.entry != 0.0
  {
    if !OverCap(i, q) then (Quantity(q), warnings)
    else if InCap(i) < i.spec.minQuantity then (Refused(CAP_BELOW_MIN_QUANTITY), warnings + [REDUCED_BY_CAP])
    else (Quantity(InCap(i)), warnings + [REDUCED_BY_CAP])
  }

  function Resolved(i: SizingInput, budget: real, risk: real): (Resolution, seq<Warning>)
    requires i.entry != 0.0 && risk != 0.0
  {
    var q := InBudget(i, budget, risk);
    if q < i.spec.minQuantity then (Refused(BELOW_MIN_QUANTITY), [])
    else if !NeedsBump(i, q) then Capped(i, q, [])
    else if Value(Bumped(i), risk) > budget * BUDGET_TOLERANCE then (Refused(MIN_NOTIONAL_EXCEEDS_BUDGET), [])
    else Capped(i, Bumped(i), [BUMPED_TO_MIN_NOTIONAL])
  }

  method ResolveQuantity(i: SizingInput, budget: real, risk: real) returns (r: Resolution, warnings: seq<Warning>)
    requires i.entry != 0.0 && risk != 0.0
    ensures (r, warnings) == Resolved(i, budget, risk)
  {
    hide FloorToStep, CeilToStep;
    warnings := [];
    var qty := FloorToStep(Affordable(budget, risk), i.spec.lotSize);
    if qty < i.spec.minQuantity {
      return Refused(BELOW_MIN_QUANTITY), warnings;
    }
    var notional := Value(qty, i.entry);
    if notional < i.spec.minNotional {
      var minQty := CeilToStep(Affordable(i.spec.minNotional, i.entry), i.spec.lotSize);
      var bumped := if minQty >= i.spec.minQuantity then minQty else i.spec.minQuantity;
      if Value(bumped, risk) > budget * BUDGET_TOLERANCE {
        return Refused(MIN_NOTIONAL_EXCEEDS_BUDGET), warnings;
      }
      qty := bumped;
      warnings := warnings + [BUMPED_TO_MIN_NOTIONAL];
      assert warnings == [BUMPED_TO_MIN_NOTIONAL];
    }
    var cap := MinReal(i.limits.maxNotionalPerTrade, Value(i.spec.maxQuantity, i.entry));
    if Value(qty, i.entry) > cap {
      qty := FloorToStep(Affordable(cap, i.entry), i.spec.lotSize);
      warnings := warnings + [REDUCED_BY_CAP];
      if qty < i.spec.minQuantity {
        return Refused(CAP_BELOW_MIN_QUANTITY), warnings;
      }
    }
    r := Quantity(qty);
  }

  function OfferedLeverage(i: SizingInput): real {
    MinReal(i.requestedLeverage, MinReal(i.limits.maxLeverage, i.spec.maxLeverage))
  }

  function Leverage(i: SizingInput): real {
    MaxReal(1.0, OfferedLeverage(i))
  }

  /** The checks after the quantity is known: margin first, then risk once more. */
  function Checked(i: SizingInput, q: real, warnings: seq<Warning>): SizingResult {
    var notional, leverage, risk := Value(q, i.entry), Leverage(i), RiskPerUnit(i);
    var marginRequired := Affordable(notional, leverage);
    if marginRequired > i.availableMargin then Rejected(INSUFFICIENT_MARGIN, OfferedLeverage(i), warnings)
    else if Value(q, risk) > RiskBudget(i) * BUDGET_TOLERANCE then
      Rejected(FINAL_RISK_EXCEEDS_BUDGET, OfferedLeverage(i), warnings)
    else
      Sized(q, notional, marginRequired, leverage, Value(q, risk), risk, FeePerUnit(i), FundingPerUnit(i), warnings)
  }

  function Sizing(i: SizingInput): SizingResult
    requires Divides(i)
  {
    if RiskBudget(i) <= 0.0 then Rejected(ZERO_RISK_BUDGET, OfferedLeverage(i), [])
    else if StopDistance(i) <= 0.0 then Rejected(NO_STOP_DISTANCE, OfferedLeverage(i), [])
    else
      var (resolution, warnings) := Resolved(i, RiskBudget(i), RiskPerUnit(i));
      match resolution
      case Refused(refusal) => Rejected(refusal, OfferedLeverage(i), warnings)
      case Quantity(q) => Checked(i, q, warnings)
  }

  method SizePosition(i: SizingInput) returns (r: SizingResult)
    requires Divides(i)
    ensures r == Sizing(i)
  {
    hide Resolved, Value, RiskPerUnit, RiskBudget, StopDistance;
    var warnings := [];
    var riskBudget := RiskBudget(i);
    if riskBudget <= 0.0 {
      return Rejected(ZERO_RISK_BUDGET, OfferedLeverage(i), warnings);
    }
    var stopDistance := StopDistance(i);
    if stopDistance <= 0.0 {
      return Rejected(NO_STOP_DISTANCE, OfferedLeverage(i), warnings);
    }
    var risk := RiskPerUnit(i);
    var resolution;
    resolution, warnings := ResolveQuantity(i, riskBudget, risk);
    if resolution.Refused? {
      return Rejected(resolution.refusal, OfferedLeverage(i), warnings);
    }
    var qty := resolution.q;
    var notional := Value(qty, i.entry);
    var leverage := Leverage(i);
    var marginRequired := Affordable(notional, leverage);
    if marginRequired > i.availableMargin {
      return Rejected(INSUFFICIENT_MARGIN, OfferedLeverage(i), warnings);
    }
    var riskAmount := Value(qty, risk);
    if riskAmount > riskBudget * BUDGET_TOLERANCE {
      return Rejected(FINAL_RISK_EXCEEDS_BUDGET, OfferedLeverage(i), warnings);
    }
    r := Sized(qty, notional, marginRequired, leverage, riskAmount, risk, FeePerUnit(i), FundingPerUnit(i), warnings);
  }
}
