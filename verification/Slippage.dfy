/**
  Execution quality: how far a fill is from the intended price, and what checking every fill
  delta says about the final average price.
 */
module Slippage {
  import opened Prelude
  import opened LedgerModel
  import opened Primitives

  /** Basis points away from the expected price, positive when worse than intended. */
  function SlippageBpsOf(side: Side, price: real, expected: real): real {
    if expected > 0.0 then (price - expected) / expected * 10_000.0 * Dir(side) as real else 0.0
  }

  /** Price of the newest delta, from cumulative averages; None where the source yields NaN. */
  function MarginalFillPrice(prevQty: int, prevAvg: Option<real>, newQty: int, newAvg: real): Option<real> {
    var delta := newQty - prevQty;
    if delta <= 0 then None
    else if prevQty <= 0 || prevAvg.None? then Some(newAvg)
    else Some((newAvg * newQty as real - prevAvg.value * prevQty as real) / delta as real)
  }

  predicate BreachesBand(side: Side, marginal: real, expected: real, limitBps: real) {
    SlippageBpsOf(side, marginal, expected) > limitBps
  }

  /** Cumulative filled quantity and running average, as the engine tracks them. */
  datatype Filled = Filled(quantity: int, avg: Option<real>)

  /** Folding a venue view: quantity is overwritten, the average only when the view carries one. */
  function FoldView(f: Filled, view: Filled): Filled {
    Filled(view.quantity, if view.avg.Some? then view.avg else f.avg)
  }

  /** The marginal price the engine checks for this fold; None when the fold is not checked. */
  function Checked(f: Filled, view: Filled): Option<real> {
    var g := FoldView(f, view);
    if g.quantity > f.quantity && g.avg.Some?
    then MarginalFillPrice(f.quantity, f.avg, g.quantity, g.avg.value)
    else None
  }

  /** The engine's verdict on one fold: non-positive marginals are skipped. */
  predicate Flagged(f: Filled, view: Filled, side: Side, expected: real, limitBps: real) {
    Checked(f, view).Some? && Checked(f, view).value > 0.0
      && BreachesBand(side, Checked(f, view).value, expected, limitBps)
  }

  function Notional(f: Filled): real {
    if f.avg.Some? then f.avg.value * f.quantity as real else 0.0
  }

  /** What the checked marginal price accounts for. */
  function Charged(f: Filled, view: Filled): real {
    match Checked(f, view)
    case None => 0.0
    case Some(m) => m * (view.quantity - f.quantity) as real
  }

  lemma Telescopes(prevQty: int, prevAvg: real, newQty: int, newAvg: real)
    requires newQty > prevQty > 0
    ensures MarginalFillPrice(prevQty, Some(prevAvg), newQty, newAvg).value * (newQty - prevQty) as real
      == newAvg * newQty as real - prevAvg * prevQty as real
  {
    QuotientTimes(newAvg * newQty as real - prevAvg * prevQty as real, (newQty - prevQty) as real);
  }

  /**
    A view the books can follow: it adds quantity, or repeats quantity and average; one that takes
    quantity back has to spread the old notional over the new quantity.
   */
  predicate KeepsBooks(f: Filled, view: Filled) {
    var g := FoldView(f, view);
    if view.quantity > f.quantity || g.avg.None? then true
    else if view.quantity == f.quantity then f.quantity == 0 || g.avg == f.avg
    else if view.quantity == 0 then Notional(f) == 0.0
    else g.avg.value == Notional(f) / view.quantity as real
  }

  /** One fold charges exactly the notional it adds if and only if the books can follow its view. */
  lemma FoldBalances(f: Filled, view: Filled)
    requires f.quantity >= 0
    requires f.quantity == 0 || f.avg.Some?
    ensures Notional(FoldView(f, view)) == Notional(f) + Charged(f, view) <==> KeepsBooks(f, view)
  {
    var g := FoldView(f, view);
    if view.quantity > f.quantity {
      if g.avg.Some? && f.quantity > 0 {
        Telescopes(f.quantity, f.avg.value, g.quantity, g.avg.value);
      }
    } else if view.quantity == f.quantity {
      if g.avg.Some? && f.quantity > 0 {
        SameProduct(g.avg.value, f.avg.value, f.quantity as real);
      }
    } else if g.avg.Some? && view.quantity != 0 {
      QuotientIs(g.avg.value, Notional(f), view.quantity as real);
    }
  }

  lemma SameProduct(a: real, b: real, k: real)
    requires k != 0.0
    ensures a * k == b * k <==> a == b
  {
    if a * k == b * k {
      assert (a - b) * k == 0.0;
    }
  }

  lemma QuotientIs(q: real, x: real, d: real)
    requires d != 0.0
    ensures q * d == x <==> q == x / d
  {
    QuotientTimes(x, d);
    SameProduct(q, x / d, d);
  }

  /** A run of views as venues should send them: each adds quantity and carries an average, or repeats the last. */
  ghost predicate Steady(f: Filled, views: seq<Filled>)
    decreases |views|
  {
    views == [] ||
    (((views[0].quantity > f.quantity && views[0].avg.Some?) || FoldView(f, views[0]) == f)
      && Steady(FoldView(f, views[0]), views[1..]))
  }

  function FoldViews(f: Filled, views: seq<Filled>): Filled
    decreases |views|
  {
    if views == [] then f else FoldViews(FoldView(f, views[0]), views[1..])
  }

  function ChargedTotal(f: Filled, views: seq<Filled>): real
    decreases |views|
  {
    if views == [] then 0.0 else Charged(f, views[0]) + ChargedTotal(FoldView(f, views[0]), views[1..])
  }

  /** Marginal price times delta, summed over the folds, is the final average times the final quantity. */
  lemma {:induction false} ChargesTelescope(f: Filled, views: seq<Filled>)
    requires f.quantity >= 0 && (f.quantity == 0 || f.avg.Some?)
    requires Steady(f, views)
    ensures Notional(f) + ChargedTotal(f, views) == Notional(FoldViews(f, views))
    decreases |views|
  {
    if views == [] {
    } else {
      FoldBalances(f, views[0]);
      hide Charged, Notional;
      ChargesTelescope(FoldView(f, views[0]), views[1..]);
    }
  }

  /** The price at the edge of the band: the worst that is not a breach. */
  function BandEdge(side: Side, expected: real, limitBps: real): real {
    expected + Dir(side) as real * (limitBps / 10_000.0) * expected
  }

  lemma InsideBand(side: Side, price: real, expected: real, limitBps: real)
    requires expected > 0.0
    ensures !BreachesBand(side, price, expected, limitBps) <==>
      if side.Buy? then price <= BandEdge(side, expected, limitBps) else price >= BandEdge(side, expected, limitBps)
  {
    var x := (price - expected) / expected;
    assert x * expected == price - expected;
    var b := limitBps / 10_000.0;
    if side.Buy? {
      assert !BreachesBand(side, price, expected, limitBps) <==> x <= b;
      assert x <= b <==> x * expected <= b * expected;
    } else {
      assert !BreachesBand(side, price, expected, limitBps) <==> -x <= b;
      assert -x <= b <==> -x * expected <= b * expected;
    }
  }

  lemma ScaleUp(a: real, b: real, k: real)
    requires a <= b && k >= 0.0
    ensures a * k <= b * k
  {
  }

  /** The edge of a band below 10 000 basis points is a positive price. */
  lemma EdgeIsPositive(side: Side, expected: real, limitBps: real)
    requires expected > 0.0 && limitBps >= 0.0 && (side.Buy? || limitBps < 10_000.0)
    ensures BandEdge(side, expected, limitBps) > 0.0
  {
    var b := limitBps / 10_000.0;
    if side.Buy? {
      assert b * expected >= 0.0;
    } else {
      assert (1.0 - b) * expected > 0.0;
    }
  }

  /**
    What the guard on non-positive marginals lets through: a fill delta that was checked and not
    flagged is inside the band if and only if it is a buy or its marginal price is positive, or the
    sell band is so wide that its edge is not a positive price.
   */
  lemma UnflaggedIsInBandExactly(f: Filled, view: Filled, side: Side, expected: real, limitBps: real)
    requires expected > 0.0 && limitBps >= 0.0
    requires Checked(f, view).Some? && !Flagged(f, view, side, expected, limitBps)
    ensures var m := Checked(f, view).value;
      !BreachesBand(side, m, expected, limitBps) <==>
        side.Buy? || m > 0.0 || (limitBps >= 10_000.0 && m >= BandEdge(side, expected, limitBps))
  {
    var m := Checked(f, view).value;
    hide SlippageBpsOf, MarginalFillPrice, BreachesBand, BandEdge;
    InsideBand(side, m, expected, limitBps);
    if side.Buy? || limitBps < 10_000.0 {
      EdgeIsPositive(side, expected, limitBps);
    }
  }

  /** What the units a fold adds cost: the notional it adds, or the average for each when nothing came before. */
  function Cost(f: Filled, view: Filled): real {
    var g := FoldView(f, view);
    if g.avg.None? then 0.0
    else if f.quantity > 0 && f.avg.Some?
    then g.avg.value * g.quantity as real - f.avg.value * f.quantity as real
    else g.avg.value * (g.quantity - f.quantity) as real
  }

  /** The guard in money: for the units added, a buy cost more, or a sell brought in less, than the band allows. */
  predicate OutsideBand(f: Filled, view: Filled, side: Side, expected: real, limitBps: real) {
    && view.quantity > f.quantity && (view.avg.Some? || f.avg.Some?) && Cost(f, view) > 0.0
    && var fair := expected * (view.quantity - f.quantity) as real;
       if expected <= 0.0 then limitBps < 0.0
       else if side == Buy then Cost(f, view) * 10_000.0 > fair * (10_000.0 + limitBps)
       else Cost(f, view) * 10_000.0 < fair * (10_000.0 - limitBps)
  }

  /** The guard flags a fold exactly when its money is outside the band. */
  lemma FlaggedExactly(f: Filled, view: Filled, side: Side, expected: real, limitBps: real)
    ensures Flagged(f, view, side, expected, limitBps) <==> OutsideBand(f, view, side, expected, limitBps)
  {
    hide SlippageBpsOf, BreachesBand, Cost, BandEdge;
    if Checked(f, view).Some? {
      var m, delta := Checked(f, view).value, (view.quantity - f.quantity) as real;
      CostIsCharged(f, view);
      hide Checked;
      ScaleOrder(0.0, m, delta);
      if expected > 0.0 {
        InsideBand(side, m, expected, limitBps);
        EdgeInMoney(side, m, expected, limitBps, delta);
      } else {
        NoAnchor(side, m, expected, limitBps);
      }
    }
  }

  lemma NoAnchor(side: Side, price: real, expected: real, limitBps: real)
    requires expected <= 0.0
    ensures BreachesBand(side, price, expected, limitBps) <==> limitBps < 0.0
  {
  }

  lemma CostIsCharged(f: Filled, view: Filled)
    requires Checked(f, view).Some?
    ensures Cost(f, view) == Checked(f, view).value * (view.quantity - f.quantity) as real
    ensures view.quantity > f.quantity && (view.avg.Some? || f.avg.Some?)
  {
    var g := FoldView(f, view);
    if f.quantity > 0 && f.avg.Some? {
      Telescopes(f.quantity, f.avg.value, g.quantity, g.avg.value);
    }
  }

  lemma EdgeInMoney(side: Side, m: real, expected: real, limitBps: real, delta: real)
    requires delta > 0.0
    ensures side.Buy? ==> (m > BandEdge(side, expected, limitBps) <==>
                           m * delta * 10_000.0 > expected * delta * (10_000.0 + limitBps))
    ensures side.Sell? ==> (m < BandEdge(side, expected, limitBps) <==>
                            m * delta * 10_000.0 < expected * delta * (10_000.0 - limitBps))
  {
    var edge := BandEdge(side, expected, limitBps);
    var scaled := if side.Buy? then expected * (10_000.0 + limitBps) else expected * (10_000.0 - limitBps);
    EdgeScaled(side, expected, limitBps);
    ScaleOrder(edge, m, delta);
    ScaleOrder(m, edge, delta);
    Regroup(edge, delta, scaled);
    Reorder(expected, delta, if side.Buy? then 10_000.0 + limitBps else 10_000.0 - limitBps);
  }

  lemma EdgeScaled(side: Side, expected: real, limitBps: real)
    ensures BandEdge(side, expected, limitBps) * 10_000.0
      == if side.Buy? then expected * (10_000.0 + limitBps) else expected * (10_000.0 - limitBps)
  {
    var b := limitBps / 10_000.0;
    assert b * 10_000.0 == limitBps;
    assert (b * expected) * 10_000.0 == limitBps * expected;
  }

  lemma Regroup(edge: real, delta: real, scaled: real)
    requires edge * 10_000.0 == scaled
    ensures edge * delta * 10_000.0 == scaled * delta
  {
  }

  lemma Reorder(a: real, b: real, c: real)
    ensures a * b * c == a * c * b
  {
  }

  /** No fold of the run is flagged. */
  ghost predicate Unflagged(f: Filled, views: seq<Filled>, side: Side, expected: real, limitBps: real)
    decreases |views|
  {
    views == [] ||
    (!Flagged(f, views[0], side, expected, limitBps)
      && Unflagged(FoldView(f, views[0]), views[1..], side, expected, limitBps))
  }

  /** Every delta the run checks has a positive marginal price. */
  ghost predicate Positive(f: Filled, views: seq<Filled>)
    decreases |views|
  {
    views == [] ||
    ((Checked(f, views[0]).Some? ==> Checked(f, views[0]).value > 0.0) && Positive(FoldView(f, views[0]), views[1..]))
  }

  /** Every delta the run checks is inside the band: what checking every delta is meant to give. */
  ghost predicate EveryDeltaInBand(f: Filled, views: seq<Filled>, side: Side, expected: real, limitBps: real)
    decreases |views|
  {
    views == [] ||
    (&& (Checked(f, views[0]).Some? ==> !BreachesBand(side, Checked(f, views[0]).value, expected, limitBps))
     && EveryDeltaInBand(FoldView(f, views[0]), views[1..], side, expected, limitBps))
  }

  /** An unflagged run has every delta inside the band if and only if it buys, or every marginal was positive. */
  lemma {:induction false} UnflaggedRunExactly(f: Filled, views: seq<Filled>, side: Side, expected: real,
                                             limitBps: real)
    requires expected > 0.0 && limitBps >= 0.0 && (side.Buy? || limitBps < 10_000.0)
    requires Unflagged(f, views, side, expected, limitBps)
    ensures EveryDeltaInBand(f, views, side, expected, limitBps) <==> side.Buy? || Positive(f, views)
    decreases |views|
  {
    if views == [] {
    } else {
      hide BandEdge, BreachesBand, Checked, Flagged;
      if Checked(f, views[0]).Some? {
        UnflaggedIsInBandExactly(f, views[0], side, expected, limitBps);
      }
      UnflaggedRunExactly(FoldView(f, views[0]), views[1..], side, expected, limitBps);
    }
  }

  /** `f`'s notional is on the right side of the band edge for its quantity. */
  ghost predicate WithinBand(f: Filled, side: Side, expected: real, limitBps: real) {
    if side.Buy? then Notional(f) <= BandEdge(side, expected, limitBps) * f.quantity as real
    else Notional(f) >= BandEdge(side, expected, limitBps) * f.quantity as real
  }

  /** A filled quantity is within the band if and only if its average price is no breach. */
  lemma WithinBandIsAverage(f: Filled, side: Side, expected: real, limitBps: real)
    requires expected > 0.0 && f.quantity > 0 && f.avg.Some?
    ensures WithinBand(f, side, expected, limitBps) <==> !BreachesBand(side, f.avg.value, expected, limitBps)
  {
    hide BreachesBand, BandEdge;
    var edge := BandEdge(side, expected, limitBps);
    CancelFactor(f.avg.value, edge, f.quantity as real);
    InsideBand(side, f.avg.value, expected, limitBps);
  }

  /**
    A fold that adds no quantity is never flagged; what it leaves is within the band if and only if
    the average it leaves is on the right side of the edge.
   */
  lemma UncheckedFoldExactly(f: Filled, view: Filled, side: Side, expected: real, limitBps: real)
    requires expected > 0.0 && 0 < view.quantity <= f.quantity && FoldView(f, view).avg.Some?
    ensures !Flagged(f, view, side, expected, limitBps)
    ensures var avg, edge := FoldView(f, view).avg.value, BandEdge(side, expected, limitBps);
      WithinBand(FoldView(f, view), side, expected, limitBps) <==> if side.Buy? then avg <= edge else avg >= edge
  {
    hide BreachesBand, BandEdge;
    WithinBandIsAverage(FoldView(f, view), side, expected, limitBps);
    InsideBand(side, FoldView(f, view).avg.value, expected, limitBps);
  }

  lemma DeltaInBandStaysWithin(f: Filled, view: Filled, side: Side, expected: real, limitBps: real)
    requires expected > 0.0 && f.quantity >= 0 && (f.quantity == 0 || f.avg.Some?)
    requires view.quantity > f.quantity && view.avg.Some?
    requires !BreachesBand(side, Checked(f, view).value, expected, limitBps)
    requires WithinBand(f, side, expected, limitBps)
    ensures WithinBand(FoldView(f, view), side, expected, limitBps)
  {
    hide BandEdge, SlippageBpsOf, MarginalFillPrice, BreachesBand, KeepsBooks;
    AddingKeepsBooks(f, view);
    var m, edge := Checked(f, view).value, BandEdge(side, expected, limitBps);
    var delta := (view.quantity - f.quantity) as real;
    InsideBand(side, m, expected, limitBps);
    FoldBalances(f, view);
    if side.Buy? {
      ScaleUp(m, edge, delta);
    } else {
      ScaleUp(edge, m, delta);
    }
    assert view.quantity as real == f.quantity as real + delta;
    SplitProduct(edge, f.quantity as real, delta);
  }

  lemma AddingKeepsBooks(f: Filled, view: Filled)
    requires view.quantity > f.quantity && view.avg.Some?
    ensures KeepsBooks(f, view) && Checked(f, view).Some?
  {
  }

  lemma SplitProduct(x: real, a: real, b: real)
    ensures x * (a + b) == x * a + x * b
  {
  }

  lemma {:induction false} RunStaysWithin(f: Filled, views: seq<Filled>, side: Side, expected: real, limitBps: real)
    requires expected > 0.0 && f.quantity >= 0 && (f.quantity == 0 || f.avg.Some?)
    requires Steady(f, views) && EveryDeltaInBand(f, views, side, expected, limitBps)
    requires WithinBand(f, side, expected, limitBps)
    ensures WithinBand(FoldViews(f, views), side, expected, limitBps)
    decreases |views|
  {
    if views == [] {
    } else {
      hide BandEdge, BreachesBand, WithinBand, MarginalFillPrice;
      if FoldView(f, views[0]) != f {
        DeltaInBandStaysWithin(f, views[0], side, expected, limitBps);
      }
      RunStaysWithin(FoldView(f, views[0]), views[1..], side, expected, limitBps);
    }
  }

  /**
    When no fold of an order was flagged, its final average price is inside the tolerated band. A
    buy needs nothing more; a sell needs every marginal price to have been positive.
   */
  lemma {:induction false} UnflaggedAverageInBand(views: seq<Filled>, side: Side, expected: real, limitBps: real)
    requires expected > 0.0 && limitBps >= 0.0 && (side.Buy? || limitBps < 10_000.0)
    requires Steady(Filled(0, None), views) && Unflagged(Filled(0, None), views, side, expected, limitBps)
    requires side.Buy? || Positive(Filled(0, None), views)
    ensures var end := FoldViews(Filled(0, None), views);
      end.quantity > 0 && end.avg.Some? ==> !BreachesBand(side, end.avg.value, expected, limitBps)
  {
    hide BreachesBand, BandEdge, SlippageBpsOf, FoldViews, Steady, Unflagged, Positive, EveryDeltaInBand;
    var end := FoldViews(Filled(0, None), views);
    UnflaggedRunExactly(Filled(0, None), views, side, expected, limitBps);
    RunStaysWithin(Filled(0, None), views, side, expected, limitBps);
    if end.quantity > 0 && end.avg.Some? {
      WithinBandIsAverage(end, side, expected, limitBps);
    }
  }

  lemma CancelFactor(a: real, b: real, k: real)
    requires k > 0.0
    ensures a * k <= b * k <==> a <= b
    ensures a * k >= b * k <==> a >= b
  {
    ScaleOrder(a, b, k);
    ScaleOrder(b, a, k);
  }

  /** A venue that changes the average without adding quantity is never checked: no flag, yet outside the band. */
  lemma SilentAverageChangeEscapes()
    ensures var views := [Filled(1, Some(100.0)), Filled(1, Some(200.0))];
      && !Flagged(Filled(0, None), views[0], Buy, 100.0, 25.0)
      && !Flagged(FoldView(Filled(0, None), views[0]), views[1], Buy, 100.0, 25.0)
      && BreachesBand(Buy, FoldViews(Filled(0, None), views).avg.value, 100.0, 25.0)
  {
    var views := [Filled(1, Some(100.0)), Filled(1, Some(200.0))];
    assert views[1..] == [views[1]] && views[1..][1..] == [];
  }

  /** A marginal price at or below zero is skipped: a sell can end outside its band without a flag. */
  lemma NonPositiveMarginalEscapes()
    ensures var views := [Filled(1, Some(100.0)), Filled(2, Some(50.0))];
      && !Flagged(Filled(0, None), views[0], Sell, 100.0, 25.0)
      && !Flagged(FoldView(Filled(0, None), views[0]), views[1], Sell, 100.0, 25.0)
      && BreachesBand(Sell, FoldViews(Filled(0, None), views).avg.value, 100.0, 25.0)
  {
    var views := [Filled(1, Some(100.0)), Filled(2, Some(50.0))];
    assert views[1..] == [views[1]] && views[1..][1..] == [];
    assert Checked(Filled(1, Some(100.0)), views[1]) == Some(0.0);
  }
}
