/** What the sizer promises: bounds, maximality, and monotonicity across two runs. */
module SizingTheorems {
  import opened Primitives
  import opened PositionSizer
  import RiskConfig

  /** A priced input whose minimum and maxima are not negative. */
  predicate WellPosed(i: SizingInput) {
    Priced(i) && i.spec.minQuantity >= 0.0 && i.limits.maxNotionalPerTrade >= 0.0 && i.spec.maxQuantity >= 0.0
  }

  /** What the sizer answers to a priced input. */
  function SizingOf(i: SizingInput): SizingResult
    requires Priced(i)
  {
    CostsArePositive(i);
    Sizing(i)
  }

  /** What the sizer answers to `i` under another circuit multiplier. */
  function SizingAt(i: SizingInput, multiplier: real): SizingResult
    requires Priced(i)
  {
    SizingOf(i.(circuitMultiplier := multiplier))
  }

  lemma ValueOrder(a: real, b: real, unit: real)
    requires unit > 0.0
    ensures a <= b <==> Value(a, unit) <= Value(b, unit)
    ensures a < b <==> Value(a, unit) < Value(b, unit)
  {
    ScaleOrder(a, b, unit);
  }

  lemma AffordableAgainst(total: real, q: real, unit: real)
    requires unit > 0.0
    ensures q <= Affordable(total, unit) <==> Value(q, unit) <= total
    ensures Affordable(total, unit) <= q <==> total <= Value(q, unit)
  {
    QuotientOrder(total, q, unit);
  }

  lemma ValueOfNothing(unit: real)
    ensures Value(0.0, unit) == 0.0
  {
  }

  lemma CapIsNotNegative(i: SizingInput)
    requires WellPosed(i)
    ensures Cap(i) >= 0.0
  {
    ProductNotNegative(i.spec.maxQuantity, i.entry);
  }

  /** The budget's quantity: the largest the lot allows inside the budget. */
  lemma InBudgetIsGreatest(i: SizingInput, b: real, k: real, q: real)
    requires b >= 0.0 && k > 0.0
    ensures InBudget(i, b, k) >= 0.0 && OnStep(InBudget(i, b, k), i.spec.lotSize)
    ensures Value(InBudget(i, b, k), k) <= b
    ensures OnStep(q, i.spec.lotSize) && Value(q, k) <= b ==> q <= InBudget(i, b, k)
  {
    hide Value, Affordable, FloorToStep, OnStep;
    ValueOfNothing(k);
    AffordableAgainst(b, 0.0, k);
    FloorIsGreatest(Affordable(b, k), i.spec.lotSize, q);
    AffordableAgainst(b, InBudget(i, b, k), k);
    AffordableAgainst(b, q, k);
  }

  /** The cap's quantity: the largest the lot allows within the notional cap. */
  lemma InCapIsGreatest(i: SizingInput, q: real)
    requires WellPosed(i)
    ensures InCap(i) >= 0.0 && OnStep(InCap(i), i.spec.lotSize)
    ensures Value(InCap(i), i.entry) <= Cap(i)
    ensures OnStep(q, i.spec.lotSize) && Value(q, i.entry) <= Cap(i) ==> q <= InCap(i)
    ensures OverCap(i, q) ==> InCap(i) < q
  {
    hide Value, Affordable, FloorToStep, OnStep, Cap;
    CapIsNotNegative(i);
    ValueOfNothing(i.entry);
    AffordableAgainst(Cap(i), 0.0, i.entry);
    FloorIsGreatest(Affordable(Cap(i), i.entry), i.spec.lotSize, q);
    AffordableAgainst(Cap(i), InCap(i), i.entry);
    AffordableAgainst(Cap(i), q, i.entry);
  }

  /** The bumped quantity: the least that meets minimum notional and minimum quantity. */
  lemma BumpedIsLeast(i: SizingInput, q: real)
    requires WellPosed(i) && i.spec.minNotional >= 0.0
    ensures Bumped(i) >= i.spec.minQuantity && Value(Bumped(i), i.entry) >= i.spec.minNotional
    ensures OnStep(q, i.spec.lotSize) && q >= i.spec.minQuantity && Value(q, i.entry) >= i.spec.minNotional ==>
      Bumped(i) <= q
    ensures OnStep(i.spec.minQuantity, i.spec.lotSize) ==> OnStep(Bumped(i), i.spec.lotSize)
  {
    hide Value, Affordable, CeilToStep, OnStep;
    ValueOfNothing(i.entry);
    AffordableAgainst(i.spec.minNotional, 0.0, i.entry);
    CeilIsLeast(Affordable(i.spec.minNotional, i.entry), i.spec.lotSize, q);
    AffordableAgainst(i.spec.minNotional, Bumped(i), i.entry);
    AffordableAgainst(i.spec.minNotional, q, i.entry);
  }

  /** A bump only happens for a minimum notional above nothing. */
  lemma BumpMeansMinimum(i: SizingInput, b: real, k: real)
    requires WellPosed(i) && b > 0.0 && k > 0.0 && NeedsBump(i, InBudget(i, b, k))
    ensures i.spec.minNotional > 0.0
  {
    hide InBudget, Value;
    InBudgetIsGreatest(i, b, k, 0.0);
    ValueOfNothing(i.entry);
    ValueOrder(0.0, InBudget(i, b, k), i.entry);
  }

  /** The quantity before the cap: the budget's, or the bumped one. */
  function Wanted(i: SizingInput, b: real, k: real): real
    requires i.entry > 0.0 && k > 0.0
  {
    if NeedsBump(i, InBudget(i, b, k)) then Bumped(i) else InBudget(i, b, k)
  }

  /** A resolved quantity is the wanted one or the cap's, and the warnings say which. */
  lemma ResolvedForm(i: SizingInput, b: real, k: real)
    requires i.entry > 0.0 && k > 0.0 && Resolved(i, b, k).0.Quantity?
    ensures var q, w := Resolved(i, b, k).0.q, Resolved(i, b, k).1;
      && InBudget(i, b, k) >= i.spec.minQuantity
      && (BUMPED_TO_MIN_NOTIONAL in w <==> NeedsBump(i, InBudget(i, b, k)))
      && (REDUCED_BY_CAP in w <==> OverCap(i, Wanted(i, b, k)))
      && (if REDUCED_BY_CAP in w then q == InCap(i) >= i.spec.minQuantity else q == Wanted(i, b, k))
      && (BUMPED_TO_MIN_NOTIONAL in w ==> Value(Bumped(i), k) <= b * BUDGET_TOLERANCE)
  {
    hide InBudget, Bumped, InCap, NeedsBump, OverCap, Value;
  }

  lemma WantedIsAffordable(i: SizingInput, b: real, k: real)
    requires WellPosed(i) && b > 0.0 && k > 0.0 && Resolved(i, b, k).0.Quantity?
    ensures Value(Wanted(i, b, k), k) <= b * BUDGET_TOLERANCE
    ensures Wanted(i, b, k) >= i.spec.minQuantity
  {
    hide InBudget, Bumped, InCap, NeedsBump, OverCap, Value, Resolved;
    ResolvedForm(i, b, k);
    InBudgetIsGreatest(i, b, k, 0.0);
    if NeedsBump(i, InBudget(i, b, k)) {
      BumpMeansMinimum(i, b, k);
      BumpedIsLeast(i, 0.0);
    }
  }

  /** Every resolved quantity is within the exchange's range, under the cap, and inside the tolerated budget. */
  lemma ResolvedBounds(i: SizingInput, b: real, k: real)
    requires WellPosed(i) && b > 0.0 && k > 0.0 && Resolved(i, b, k).0.Quantity?
    ensures var q := Resolved(i, b, k).0.q;
      && i.spec.minQuantity <= q <= i.spec.maxQuantity
      && Value(q, i.entry) <= i.limits.maxNotionalPerTrade
      && Value(q, k) <= b * BUDGET_TOLERANCE
  {
    hide InBudget, Bumped, InCap, NeedsBump, Value, Resolved, Wanted;
    var q, wanted := Resolved(i, b, k).0.q, Wanted(i, b, k);
    ResolvedForm(i, b, k);
    WantedIsAffordable(i, b, k);
    InCapIsGreatest(i, wanted);
    ValueOrder(q, i.spec.maxQuantity, i.entry);
    ValueOrder(q, wanted, k);
  }

  // ---- the results themselves ----

  lemma SizedIsResolved(i: SizingInput)
    requires Priced(i) && SizingOf(i).Sized?
    ensures RiskBudget(i) > 0.0 && StopDistance(i) > 0.0 && RiskPerUnit(i) > 0.0
    ensures Resolved(i, RiskBudget(i), RiskPerUnit(i)) == (Quantity(SizingOf(i).quantity), SizingOf(i).warnings)
    ensures Checked(i, SizingOf(i).quantity, SizingOf(i).warnings) == SizingOf(i)
  {
    hide Resolved, RiskBudget, RiskPerUnit, StopDistance, Checked;
    CostsArePositive(i);
    CheckedKeeps(i);
  }

  lemma CheckedKeeps(i: SizingInput)
    ensures forall q, w :: Checked(i, q, w).Sized? ==> Checked(i, q, w).quantity == q && Checked(i, q, w).warnings == w
  {
  }

  predicate Bounded(i: SizingInput, r: SizingResult)
    requires r.Sized?
  {
    && i.spec.minQuantity <= r.quantity <= i.spec.maxQuantity
    && r.notional == Value(r.quantity, i.entry) <= i.limits.maxNotionalPerTrade
    && r.leverage >= 1.0 && Value(r.marginRequired, r.leverage) == r.notional
    && r.marginRequired <= i.availableMargin
    && r.riskAmount == Value(r.quantity, RiskPerUnit(i)) <= RiskBudget(i) * BUDGET_TOLERANCE
  }

  /**
    An accepted size lies in the exchange's range, its notional under the trade cap, its margin
    within what is available, and its risk within 1.02 of the budget.
   */
  lemma SizeIsBounded(i: SizingInput)
    requires WellPosed(i)
    ensures SizingOf(i).Sized? ==> Bounded(i, SizingOf(i))
  {
    hide Resolved, RiskBudget, RiskPerUnit, StopDistance, Sizing, Value, Affordable, Leverage, OfferedLeverage;
    if SizingOf(i).Sized? {
      SizedIsResolved(i);
      ResolvedBounds(i, RiskBudget(i), RiskPerUnit(i));
      LeverageAtLeastOne(i);
      PaidBack(Value(SizingOf(i).quantity, i.entry), Leverage(i));
    }
  }

  /** What a unit can lose: the way to the stop, fees and slippage on the way in and out, and funding in between. */
  function LossPerUnit(i: SizingInput): real {
    var distance := if i.entry < i.stop then i.stop - i.entry else i.entry - i.stop;
    var oneWay := i.entry * i.limits.feeRateTaker + i.entry * i.limits.slippageBufferRate;
    var rate := match i.fundingRate case None => 0.0 case Some(f) => if f < 0.0 then -f else f;
    var periods := match i.fundingPeriods case None => 3.0 case Some(n) => n;
    distance + (oneWay + oneWay) + i.entry * rate * periods
  }

  /** What a trade may lose: a percentage of the equity, scaled down by the circuit breaker. */
  function MayLose(i: SizingInput): real {
    i.equity * i.limits.maxRiskPerTradePercent * i.circuitMultiplier / 100.0
  }

  /**
    An accepted size in money: what it can lose is what it says it risks and at most 1.02 of what
    the trade may lose; its margin is its notional over a leverage that is one, or one of the three
    offered and none of them exceeded.
   */
  lemma SizeInMoney(i: SizingInput)
    requires WellPosed(i)
    ensures SizingOf(i).Sized? ==> InMoney(i, SizingOf(i))
  {
    hide Resolved, Sizing, Value, Affordable, RiskBudget, RiskPerUnit, StopDistance, LossPerUnit, MayLose, Leverage;
    if SizingOf(i).Sized? {
      SizeIsBounded(i);
      ValueIsProduct(SizingOf(i).quantity, LossPerUnit(i));
      ValueIsProduct(SizingOf(i).quantity, i.entry);
      ValueIsProduct(SizingOf(i).marginRequired, SizingOf(i).leverage);
      RiskIsLoss(i);
      BudgetIsShare(i);
      LeverageIsOffered(i);
      PartsOfSize(i);
    }
  }

  ghost predicate InMoney(i: SizingInput, r: SizingResult)
    requires r.Sized?
  {
    && r.effectiveRiskPerUnit == LossPerUnit(i)
    && r.riskAmount == r.quantity * LossPerUnit(i) && r.riskAmount <= MayLose(i) * 1.02
    && r.leverage >= 1.0 && r.leverage in {1.0, i.requestedLeverage, i.limits.maxLeverage, i.spec.maxLeverage}
    && (r.leverage > 1.0 ==>
          r.leverage <= i.requestedLeverage && r.leverage <= i.limits.maxLeverage && r.leverage <= i.spec.maxLeverage)
    && r.notional == r.quantity * i.entry && r.marginRequired * r.leverage == r.notional
  }

  lemma ValueIsProduct(q: real, unit: real)
    ensures Value(q, unit) == q * unit
  {
  }

  lemma RiskIsLoss(i: SizingInput)
    ensures RiskPerUnit(i) == LossPerUnit(i)
    ensures StopDistance(i) <= 0.0 <==> i.entry == i.stop
  {
    var a, b := i.limits.feeRateTaker, i.limits.slippageBufferRate;
    assert i.entry * (a + b) == i.entry * a + i.entry * b;
    assert i.entry * (a + b) * 2.0 == i.entry * (a + b) + i.entry * (a + b);
  }

  lemma BudgetIsShare(i: SizingInput)
    ensures RiskBudget(i) == MayLose(i)
  {
    ShareOf(i.equity * i.limits.maxRiskPerTradePercent, i.circuitMultiplier);
  }

  lemma ShareOf(x: real, m: real)
    ensures x / 100.0 * m == x * m / 100.0
  {
  }

  lemma LeverageIsOffered(i: SizingInput)
    ensures var l := Leverage(i);
      && l >= 1.0 && l in {1.0, i.requestedLeverage, i.limits.maxLeverage, i.spec.maxLeverage}
      && (l > 1.0 ==> l <= i.requestedLeverage && l <= i.limits.maxLeverage && l <= i.spec.maxLeverage)
  {
  }

  lemma PartsOfSize(i: SizingInput)
    requires WellPosed(i)
    ensures SizingOf(i).Sized? ==>
      SizingOf(i).effectiveRiskPerUnit == RiskPerUnit(i) && SizingOf(i).leverage == Leverage(i)
  {
    hide Resolved, RiskBudget, RiskPerUnit, StopDistance, Leverage;
    if SizingOf(i).Sized? {
      SizedIsResolved(i);
    }
  }

  /** The first two refusals, exactly: nothing may be lost, or the stop is at the entry. */
  lemma EarlyRefusals(i: SizingInput)
    requires Priced(i)
    ensures MayLose(i) <= 0.0 <==> SizingOf(i).Rejected? && SizingOf(i).refusal == ZERO_RISK_BUDGET
    ensures MayLose(i) > 0.0 && i.entry == i.stop <==>
      SizingOf(i).Rejected? && SizingOf(i).refusal == NO_STOP_DISTANCE
  {
    hide Resolved, Value, Affordable, RiskBudget, RiskPerUnit, StopDistance, LossPerUnit, MayLose, Leverage;
    RiskIsLoss(i);
    BudgetIsShare(i);
    if RiskBudget(i) > 0.0 && StopDistance(i) > 0.0 {
      CostsArePositive(i);
      LaterRefusals(i, RiskBudget(i), RiskPerUnit(i));
    }
  }

  lemma LaterRefusals(i: SizingInput, b: real, k: real)
    requires i.entry != 0.0 && k != 0.0
    ensures Resolved(i, b, k).0.Refused? ==>
      Resolved(i, b, k).0.refusal !in {ZERO_RISK_BUDGET, NO_STOP_DISTANCE}
  {
  }

  /** A quantity the exchange takes: a whole number of lots, and enough of them. */
  ghost predicate Tradable(i: SizingInput, q: real) {
    OnStep(q, i.spec.lotSize) && q >= i.spec.minQuantity
  }

  /** No tradable quantity costs at most `total` at `unit` each. */
  ghost predicate NoneFor(i: SizingInput, total: real, unit: real) {
    forall q: real :: Tradable(i, q) ==> Value(q, unit) > total
  }

  /** Every tradable quantity the budget pays for is worth less than the minimum notional. */
  ghost predicate AllTooSmall(i: SizingInput, b: real, k: real) {
    forall q: real :: Tradable(i, q) && Value(q, k) <= b ==> Value(q, i.entry) < i.spec.minNotional
  }

  /** Every tradable quantity worth the minimum notional risks more than 1.02 of the budget. */
  ghost predicate EnoughIsTooMuch(i: SizingInput, b: real, k: real) {
    forall q: real :: Tradable(i, q) && Value(q, i.entry) >= i.spec.minNotional ==> Value(q, k) > b * 1.02
  }

  lemma NoneForBudget(i: SizingInput, b: real, k: real)
    requires WellPosed(i) && b > 0.0 && k > 0.0
    ensures InBudget(i, b, k) < i.spec.minQuantity <==> NoneFor(i, b, k)
    ensures InBudget(i, b, k) >= i.spec.minQuantity ==> (NeedsBump(i, InBudget(i, b, k)) <==> AllTooSmall(i, b, k))
  {
    var q0 := InBudget(i, b, k);
    hide InBudget, OnStep, Value;
    InBudgetIsGreatest(i, b, k, q0);
    assert q0 >= i.spec.minQuantity ==> Tradable(i, q0);
    forall q: real | Tradable(i, q)
      ensures Value(q, k) <= b ==> q <= q0 && Value(q, i.entry) <= Value(q0, i.entry)
    {
      InBudgetIsGreatest(i, b, k, q);
      ValueOrder(q, q0, i.entry);
    }
  }

  lemma NoneWithinCap(i: SizingInput, cap: real)
    requires WellPosed(i) && cap == Cap(i)
    ensures InCap(i) < i.spec.minQuantity <==> NoneFor(i, cap, i.entry)
  {
    var q0 := InCap(i);
    hide InCap, OnStep, Value, Cap;
    InCapIsGreatest(i, q0);
    assert q0 >= i.spec.minQuantity ==> Tradable(i, q0);
    forall q: real | Tradable(i, q)
      ensures Value(q, i.entry) <= cap ==> q <= q0
    {
      InCapIsGreatest(i, q);
    }
  }

  lemma BumpTooMuch(i: SizingInput, b: real, k: real)
    requires WellPosed(i) && k > 0.0 && i.spec.minNotional > 0.0 && OnStep(i.spec.minQuantity, i.spec.lotSize)
    ensures Value(Bumped(i), k) > b * BUDGET_TOLERANCE <==> EnoughIsTooMuch(i, b, k)
    ensures Tradable(i, Bumped(i))
  {
    var q0 := Bumped(i);
    hide Bumped, OnStep, Value;
    BumpedIsLeast(i, q0);
    assert Tradable(i, q0);
    forall q: real | Tradable(i, q)
      ensures Value(q, i.entry) >= i.spec.minNotional ==> Value(q0, k) <= Value(q, k)
    {
      BumpedIsLeast(i, q);
      ValueOrder(q0, q, k);
    }
  }

  lemma WantedIsTradable(i: SizingInput, b: real, k: real)
    requires WellPosed(i) && b > 0.0 && k > 0.0 && OnStep(i.spec.minQuantity, i.spec.lotSize)
    requires InBudget(i, b, k) >= i.spec.minQuantity
    ensures Tradable(i, Wanted(i, b, k))
    ensures NoneFor(i, Cap(i), i.entry) ==> OverCap(i, Wanted(i, b, k))
  {
    hide InBudget, Bumped, OnStep, Value, NeedsBump, Cap;
    InBudgetIsGreatest(i, b, k, 0.0);
    if NeedsBump(i, InBudget(i, b, k)) {
      BumpMeansMinimum(i, b, k);
      BumpTooMuch(i, b, k);
    }
  }

  /**
    The refusals of the quantity step, exactly, where the minimum quantity is itself a whole number
    of lots: nothing tradable is affordable; what is affordable is too small and what is large
    enough risks too much; or nothing tradable fits the cap. Otherwise a quantity comes out.
   */
  lemma RefusalsExactly(i: SizingInput, b: real, k: real)
    requires WellPosed(i) && b > 0.0 && k > 0.0 && OnStep(i.spec.minQuantity, i.spec.lotSize)
    ensures var r := Resolved(i, b, k).0;
      var cap := MinReal(i.limits.maxNotionalPerTrade, Value(i.spec.maxQuantity, i.entry));
      var dear, stuck := NoneFor(i, b, k), AllTooSmall(i, b, k) && EnoughIsTooMuch(i, b, k);
      && (r == Refused(BELOW_MIN_QUANTITY) <==> dear)
      && (r == Refused(MIN_NOTIONAL_EXCEEDS_BUDGET) <==> !dear && stuck)
      && (r == Refused(CAP_BELOW_MIN_QUANTITY) <==> !dear && !stuck && NoneFor(i, cap, i.entry))
      && (r.Quantity? <==> !dear && !stuck && !NoneFor(i, cap, i.entry))
  {
    hide InBudget, Bumped, InCap, OnStep, Value, NoneFor, AllTooSmall, EnoughIsTooMuch, Tradable, NeedsBump, OverCap;
    NoneForBudget(i, b, k);
    NoneWithinCap(i, Cap(i));
    if InBudget(i, b, k) >= i.spec.minQuantity {
      WantedIsTradable(i, b, k);
      if NeedsBump(i, InBudget(i, b, k)) {
        BumpMeansMinimum(i, b, k);
        BumpTooMuch(i, b, k);
      }
      ResolvedSteps(i, b, k);
    }
  }

  /** The steps after the first, with the wanted quantity named. */
  lemma ResolvedSteps(i: SizingInput, b: real, k: real)
    requires i.entry > 0.0 && k > 0.0 && InBudget(i, b, k) >= i.spec.minQuantity
    ensures var q := Wanted(i, b, k);
      Resolved(i, b, k).0 ==
        if NeedsBump(i, InBudget(i, b, k)) && Value(Bumped(i), k) > b * BUDGET_TOLERANCE
        then Refused(MIN_NOTIONAL_EXCEEDS_BUDGET)
        else if !OverCap(i, q) then Quantity(q)
        else if InCap(i) < i.spec.minQuantity then Refused(CAP_BELOW_MIN_QUANTITY)
        else Quantity(InCap(i))
  {
    hide InBudget, Bumped, InCap, NeedsBump, OverCap, Value;
  }

  /** The answer to a resolved quantity: itself when the margin is there, else the one refusal that is left. */
  predicate MarginTest(i: SizingInput, q: real, r: SizingResult) {
    && (r.Sized? <==> Value(q, i.entry) <= Value(i.availableMargin, Leverage(i)))
    && (r.Sized? ==> r.quantity == q)
    && (!r.Sized? ==> r.refusal == INSUFFICIENT_MARGIN)
  }

  /** After that, only the margin refuses: a size comes out exactly when its notional over the leverage is available. */
  lemma MarginDecides(i: SizingInput)
    requires WellPosed(i)
    ensures MayLose(i) > 0.0 && i.entry != i.stop && RiskPerUnit(i) != 0.0 ==>
      Resolved(i, RiskBudget(i), RiskPerUnit(i)).0.Quantity? ==>
      MarginTest(i, Resolved(i, RiskBudget(i), RiskPerUnit(i)).0.q, SizingOf(i))
  {
    hide Resolved, Value, Affordable, RiskBudget, RiskPerUnit, StopDistance, LossPerUnit, MayLose, Leverage;
    RiskIsLoss(i);
    BudgetIsShare(i);
    LeverageAtLeastOne(i);
    FinalCheckNeverFires(i);
    if RiskPerUnit(i) != 0.0 && Resolved(i, RiskBudget(i), RiskPerUnit(i)).0.Quantity? {
      var q := Resolved(i, RiskBudget(i), RiskPerUnit(i)).0.q;
      AffordableAgainst(Value(q, i.entry), i.availableMargin, Leverage(i));
    }
  }

  lemma LeverageAtLeastOne(i: SizingInput)
    ensures Leverage(i) >= 1.0
  {
  }

  lemma PaidBack(total: real, unit: real)
    requires unit != 0.0
    ensures Value(Affordable(total, unit), unit) == total
  {
    QuotientTimes(total, unit);
  }

  /** The last risk check never rejects: what came before already keeps the risk inside the tolerance. */
  lemma FinalCheckNeverFires(i: SizingInput)
    requires WellPosed(i)
    ensures !(SizingOf(i).Rejected? && SizingOf(i).refusal.FINAL_RISK_EXCEEDS_BUDGET?)
  {
    hide RiskBudget, RiskPerUnit, StopDistance, Value, Affordable, Resolved;
    if RiskBudget(i) > 0.0 && StopDistance(i) > 0.0 {
      CostsArePositive(i);
      ResolvedRefusals(i, RiskBudget(i), RiskPerUnit(i));
      if Resolved(i, RiskBudget(i), RiskPerUnit(i)).0.Quantity? {
        ResolvedBounds(i, RiskBudget(i), RiskPerUnit(i));
      }
    }
  }

  lemma ResolvedRefusals(i: SizingInput, b: real, k: real)
    requires i.entry > 0.0 && k > 0.0
    ensures Resolved(i, b, k).0.Refused? ==> !Resolved(i, b, k).0.refusal.FINAL_RISK_EXCEEDS_BUDGET?
  {
  }

  /**
    Maximality. Without a warning the size is the largest lot multiple inside the budget; bumped
    and not capped it is the least lot multiple meeting both minima; capped it is the largest lot
    multiple within the cap.
   */
  lemma SizeIsOptimal(i: SizingInput, q: real)
    requires WellPosed(i) && SizingOf(i).Sized? && OnStep(q, i.spec.lotSize)
    ensures SizingOf(i).warnings == [] && Value(q, RiskPerUnit(i)) <= RiskBudget(i) ==> q <= SizingOf(i).quantity
    ensures BUMPED_TO_MIN_NOTIONAL in SizingOf(i).warnings && REDUCED_BY_CAP !in SizingOf(i).warnings ==>
      q >= i.spec.minQuantity && Value(q, i.entry) >= i.spec.minNotional ==> SizingOf(i).quantity <= q
    ensures REDUCED_BY_CAP in SizingOf(i).warnings && Value(q, i.entry) <= Cap(i) ==> q <= SizingOf(i).quantity
  {
    hide InBudget, Bumped, InCap, NeedsBump, OverCap, Value, Resolved, RiskBudget, RiskPerUnit, StopDistance,
      Sizing, Checked, OnStep;
    SizedIsResolved(i);
    var b, k := RiskBudget(i), RiskPerUnit(i);
    ResolvedForm(i, b, k);
    InBudgetIsGreatest(i, b, k, q);
    InCapIsGreatest(i, q);
    if NeedsBump(i, InBudget(i, b, k)) {
      BumpMeansMinimum(i, b, k);
      BumpedIsLeast(i, q);
    }
  }

  ghost predicate MeetsItsCase(i: SizingInput, q: real, warnings: seq<Warning>) {
    if REDUCED_BY_CAP in warnings then
      OnStep(q, i.spec.lotSize) && Value(q, i.entry) <= Cap(i)
    else if BUMPED_TO_MIN_NOTIONAL in warnings then
      && Value(q, i.entry) >= i.spec.minNotional && q >= i.spec.minQuantity
      && (OnStep(i.spec.minQuantity, i.spec.lotSize) ==> OnStep(q, i.spec.lotSize))
    else
      && OnStep(q, i.spec.lotSize) && Value(q, RiskPerUnit(i)) <= RiskBudget(i)
      && Value(q, i.entry) >= i.spec.minNotional
  }

  /** What the accepted size itself satisfies, case by case. */
  lemma SizeMeetsItsCase(i: SizingInput)
    requires WellPosed(i)
    ensures SizingOf(i).Sized? ==> MeetsItsCase(i, SizingOf(i).quantity, SizingOf(i).warnings)
  {
    hide InBudget, Bumped, InCap, OverCap, Value, Resolved, RiskBudget, RiskPerUnit, StopDistance, Sizing, Checked,
      OnStep;
    if SizingOf(i).Sized? {
      SizedIsResolved(i);
      var b, k := RiskBudget(i), RiskPerUnit(i);
      ResolvedForm(i, b, k);
      InBudgetIsGreatest(i, b, k, 0.0);
      InCapIsGreatest(i, 0.0);
      if NeedsBump(i, InBudget(i, b, k)) {
        BumpMeansMinimum(i, b, k);
        BumpedIsLeast(i, 0.0);
      }
    }
  }

  // ---- two runs ----

  lemma InBudgetGrows(i: SizingInput, a: real, b: real, k: real)
    requires 0.0 < a <= b && k > 0.0
    ensures InBudget(i, a, k) <= InBudget(i, b, k)
  {
    hide InBudget, Value, OnStep;
    InBudgetIsGreatest(i, a, k, 0.0);
    InBudgetIsGreatest(i, b, k, InBudget(i, a, k));
  }

  lemma WantedGrows(i: SizingInput, a: real, b: real, k: real)
    requires WellPosed(i) && 0.0 < a <= b && k > 0.0
    ensures InBudget(i, b, k) >= i.spec.minQuantity ==> Wanted(i, a, k) <= Wanted(i, b, k)
  {
    hide InBudget, Value, Bumped, OnStep;
    InBudgetGrows(i, a, b, k);
    ValueOrder(InBudget(i, a, k), InBudget(i, b, k), i.entry);
    if NeedsBump(i, InBudget(i, a, k)) {
      BumpMeansMinimum(i, a, k);
      InBudgetIsGreatest(i, b, k, 0.0);
      BumpedIsLeast(i, InBudget(i, b, k));
    }
  }

  /** A smaller risk budget never resolves to a larger quantity, through floor, bump and cap. */
  lemma ResolvedGrows(i: SizingInput, a: real, b: real, k: real)
    requires WellPosed(i) && 0.0 < a <= b && k > 0.0
    ensures Resolved(i, a, k).0.Quantity? && Resolved(i, b, k).0.Quantity? ==>
      Resolved(i, a, k).0.q <= Resolved(i, b, k).0.q
  {
    hide InBudget, Value, Bumped, OnStep, Resolved, InCap, NeedsBump, Wanted;
    if Resolved(i, a, k).0.Quantity? && Resolved(i, b, k).0.Quantity? {
      ResolvedForm(i, a, k);
      ResolvedForm(i, b, k);
      WantedGrows(i, a, b, k);
      var x, y := Wanted(i, a, k), Wanted(i, b, k);
      ValueOrder(x, y, i.entry);
      InCapIsGreatest(i, x);
      if OverCap(i, y) && !OverCap(i, x) {
        UncappedFitsTheCap(i, a, k);
      }
    }
  }

  /** A wanted quantity under the cap is on the lot step and so below the cap's quantity, or it is the minimum. */
  lemma UncappedFitsTheCap(i: SizingInput, b: real, k: real)
    requires WellPosed(i) && b > 0.0 && k > 0.0
    ensures !OverCap(i, Wanted(i, b, k)) ==> Wanted(i, b, k) <= MaxReal(InCap(i), i.spec.minQuantity)
  {
    hide InBudget, Value, OnStep, InCap, NeedsBump, CeilToStep, Affordable;
    InCapIsGreatest(i, Wanted(i, b, k));
    InBudgetIsGreatest(i, b, k, 0.0);
    if NeedsBump(i, InBudget(i, b, k)) {
      BumpMeansMinimum(i, b, k);
      BumpedIsOnStepOrMinimum(i);
    }
  }

  lemma BumpedIsOnStepOrMinimum(i: SizingInput)
    requires WellPosed(i) && i.spec.minNotional > 0.0
    ensures OnStep(Bumped(i), i.spec.lotSize) || Bumped(i) == i.spec.minQuantity
  {
    hide Value, Affordable, CeilToStep, OnStep;
    ValueOfNothing(i.entry);
    AffordableAgainst(i.spec.minNotional, 0.0, i.entry);
    CeilIsLeast(Affordable(i.spec.minNotional, i.entry), i.spec.lotSize, 0.0);
  }

  /** With everything but the circuit multiplier equal, the smaller multiplier never buys the larger size. */
  lemma SizeGrowsWithMultiplier(i: SizingInput, low: real, high: real)
    requires WellPosed(i) && 0.0 <= low <= high
    ensures SizingAt(i, low).Sized? && SizingAt(i, high).Sized? ==>
      SizingAt(i, low).quantity <= SizingAt(i, high).quantity
  {
    var a, b := i.(circuitMultiplier := low), i.(circuitMultiplier := high);
    hide Resolved, RiskBudget, RiskPerUnit, StopDistance, Sizing, Checked;
    if SizingAt(i, low).Sized? && SizingAt(i, high).Sized? {
      SizedIsResolved(a);
      SizedIsResolved(b);
      BudgetGrows(i, low, high);
      SameButForMultiplier(i, low);
      SameButForMultiplier(i, high);
      ResolvedGrows(i, RiskBudget(a), RiskBudget(b), RiskPerUnit(i));
    }
  }

  lemma BudgetGrows(i: SizingInput, low: real, high: real)
    requires 0.0 <= low <= high && RiskBudget(i.(circuitMultiplier := low)) > 0.0
    ensures RiskBudget(i.(circuitMultiplier := low)) <= RiskBudget(i.(circuitMultiplier := high))
  {
    BaseTimes(i.equity * i.limits.maxRiskPerTradePercent / 100.0, low, high);
  }

  lemma BaseTimes(base: real, low: real, high: real)
    requires 0.0 <= low <= high && base * low > 0.0
    ensures base * low <= base * high
  {
    if base <= 0.0 {
      ProductNotNegative(-base, low);
    } else {
      ProductNotNegative(base, high - low);
    }
  }

  lemma SameButForMultiplier(i: SizingInput, m: real)
    requires i.entry > 0.0
    ensures var a := i.(circuitMultiplier := m);
      && RiskPerUnit(a) == RiskPerUnit(i) && StopDistance(a) == StopDistance(i)
      && (forall b, k :: k > 0.0 ==> Resolved(a, b, k) == Resolved(i, b, k))
  {
  }

  /**
    More daily loss, drawdown or loss streak never buys a larger size, for a streak below its
    limit. (At the limit it can: see RiskConfig.FallsWithDailyLossExactly.)
   */
  lemma MoreDamageNeverBuysMore(i: SizingInput, limits: RiskConfig.CircuitLimits, less: RiskConfig.Damage,
                                more: RiskConfig.Damage)
    requires WellPosed(i) && RiskConfig.Worse(less, more)
    requires less.lossStreak < limits.maxLossStreak || limits.maxDailyLossPercent <= 0.0
    ensures var calm, hurt := SizingAt(i, RiskConfig.Multiplier(less, limits)),
                              SizingAt(i, RiskConfig.Multiplier(more, limits));
      calm.Sized? && hurt.Sized? ==> hurt.quantity <= calm.quantity
  {
    hide SizingAt;
    RiskConfig.MoreDamageNeverRaises(less, more, limits);
    SizeGrowsWithMultiplier(i, RiskConfig.Multiplier(more, limits), RiskConfig.Multiplier(less, limits));
  }
}
