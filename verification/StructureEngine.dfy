/** Fractal pivots: swing highs and lows with `k` candles on each side. */
module StructureEngine {

  import opened Market

  datatype Kind = HIGH | LOW

  datatype SwingPoint = SwingPoint(index: nat, price: real, kind: Kind, time: OpenTime)

  /** Strictly above, or strictly below, each of the `k` candles on either side. */
  ghost predicate IsExtremum(candles: seq<Candle>, k: nat, i: int, kind: Kind) {
    && k <= i < |candles| - k
    && forall j :: i - k <= j <= i + k && j != i ==>
         if kind.HIGH? then candles[j].high < candles[i].high else candles[j].low > candles[i].low
  }

  function Swing(candles: seq<Candle>, i: nat, kind: Kind): SwingPoint
    requires i < |candles|
  {
    SwingPoint(i, if kind.HIGH? then candles[i].high else candles[i].low, kind, candles[i].openTime)
  }

  ghost function SwingsAt(candles: seq<Candle>, k: nat, i: nat): seq<SwingPoint>
    requires i < |candles|
  {
    (if IsExtremum(candles, k, i, HIGH) then [Swing(candles, i, HIGH)] else [])
    + (if IsExtremum(candles, k, i, LOW) then [Swing(candles, i, LOW)] else [])
  }

  /** The swings whose centre is before `n`. */
  ghost function SwingsBefore(candles: seq<Candle>, k: nat, n: nat): seq<SwingPoint>
    requires n <= |candles|
  {
    if n == 0 then [] else SwingsBefore(candles, k, n - 1) + SwingsAt(candles, k, n - 1)
  }

  /** Does any candle around `i` rule it out as a high, or as a low? */
  method Examine(candles: seq<Candle>, k: nat, i: nat) returns (isHigh: bool, isLow: bool)
    requires k <= i < |candles| - k
    ensures isHigh <==> IsExtremum(candles, k, i, HIGH)
    ensures isLow <==> IsExtremum(candles, k, i, LOW)
  {
    isHigh, isLow := true, true;
    var j := i - k;
    while j <= i + k
      invariant i - k <= j <= i + k + 1
      invariant isHigh <==> forall m :: i - k <= m < j && m != i ==> candles[m].high < candles[i].high
      invariant isLow <==> forall m :: i - k <= m < j && m != i ==> candles[m].low > candles[i].low
    {
      if j != i {
        if candles[j].high >= candles[i].high {
          isHigh := false;
        }
        if candles[j].low <= candles[i].low {
          isLow := false;
        }
      }
      j := j + 1;
    }
  }

  /** A pivot, said outright: a high strictly above, or a low strictly below, its `k` neighbours on both sides. */
  ghost predicate Pivot(candles: seq<Candle>, k: nat, s: SwingPoint) {
    && k <= s.index && s.index + k < |candles| && s.time == candles[s.index].openTime
    && match s.kind
       case HIGH =>
         && s.price == candles[s.index].high
         && forall j :: s.index - k <= j <= s.index + k && j != s.index ==> candles[j].high < s.price
       case LOW =>
         && s.price == candles[s.index].low
         && forall j :: s.index - k <= j <= s.index + k && j != s.index ==> candles[j].low > s.price
  }

  /** The swings of a series are its pivots. */
  lemma {:induction false} PivotsExactly(candles: seq<Candle>, k: nat, s: SwingPoint)
    ensures s in SwingsBefore(candles, k, |candles|) <==> Pivot(candles, k, s)
  {
    ExactlyTheExtrema(candles, k, |candles|, s);
  }

  /** The source ends with a stable sort by index; the list is already in that order. */
  method FindSwings(candles: seq<Candle>, k: nat) returns (swings: seq<SwingPoint>)
    ensures swings == SwingsBefore(candles, k, |candles|)
    ensures forall a, b :: 0 <= a < b < |swings| ==> swings[a].index <= swings[b].index
    ensures forall s :: s in swings <==> Pivot(candles, k, s)
  {
    hide IsExtremum, Pivot;
    swings := [];
    var i := k;
    NoneOutside(candles, k, 0, if k <= |candles| then k else |candles|);
    while i < |candles| - k
      invariant k <= i
      invariant swings == SwingsBefore(candles, k, if i <= |candles| then i else |candles|)
      invariant i <= |candles| - k || i == k
    {
      var isHigh, isLow := Examine(candles, k, i);
      if isHigh {
        swings := swings + [Swing(candles, i, HIGH)];
      }
      if isLow {
        swings := swings + [Swing(candles, i, LOW)];
      }
      i := i + 1;
    }
    if i <= |candles| {
      NoneOutside(candles, k, i, |candles|);
    }
    InOrder(candles, k, |candles|);
    forall s
      ensures s in swings <==> Pivot(candles, k, s)
    {
      PivotsExactly(candles, k, s);
    }
  }

  /** Centres too close to either end give no swing. */
  lemma {:induction false} NoneOutside(candles: seq<Candle>, k: nat, from: nat, to: nat)
    requires from <= to <= |candles|
    requires to <= k || |candles| - k <= from
    ensures SwingsBefore(candles, k, to) == SwingsBefore(candles, k, from)
  {
    if from >= to {
    } else {
      NoneOutside(candles, k, from, to - 1);
    }
  }

  /** By index, a high before a low at the same candle. */
  predicate Before(a: SwingPoint, b: SwingPoint) {
    a.index < b.index || (a.index == b.index && a.kind.HIGH? && b.kind.LOW?)
  }

  lemma SwingsAtExactly(candles: seq<Candle>, k: nat, i: nat, s: SwingPoint)
    requires i < |candles|
    ensures s in SwingsAt(candles, k, i) <==>
      s.index == i && IsExtremum(candles, k, i, s.kind) && s == Swing(candles, i, s.kind)
  {
    hide IsExtremum;
    match s.kind
    case HIGH =>
    case LOW =>
  }

  /** Exactly the strict window extrema, each once, in index order. */
  lemma {:induction false} ExactlyTheExtrema(candles: seq<Candle>, k: nat, n: nat, s: SwingPoint)
    requires n <= |candles|
    ensures s in SwingsBefore(candles, k, n) <==>
      s.index < n && IsExtremum(candles, k, s.index, s.kind) && s == Swing(candles, s.index, s.kind)
  {
    hide IsExtremum, SwingsAt, Swing;
    if n == 0 {
    } else {
      ExactlyTheExtrema(candles, k, n - 1, s);
      SwingsAtExactly(candles, k, n - 1, s);
      InAppended(SwingsBefore(candles, k, n - 1), SwingsAt(candles, k, n - 1), s);
    }
  }

  lemma InAppended(a: seq<SwingPoint>, b: seq<SwingPoint>, s: SwingPoint)
    ensures s in a + b <==> s in a || s in b
  {
  }

  lemma {:induction false} InOrder(candles: seq<Candle>, k: nat, n: nat)
    requires n <= |candles|
    ensures forall a, b :: 0 <= a < b < |SwingsBefore(candles, k, n)| ==>
      Before(SwingsBefore(candles, k, n)[a], SwingsBefore(candles, k, n)[b])
  {
    hide IsExtremum;
    if n == 0 {
    } else {
      InOrder(candles, k, n - 1);
      var init := SwingsBefore(candles, k, n - 1);
      forall a | 0 <= a < |init|
        ensures init[a].index < n - 1
      {
        ExactlyTheExtrema(candles, k, n - 1, init[a]);
      }
    }
  }

  /** Two swings of the same kind are more than `k` candles apart. */
  lemma {:induction false} SameKindFarApart(candles: seq<Candle>, k: nat, a: nat, b: nat)
    requires a < b < |SwingsBefore(candles, k, |candles|)|
    requires SwingsBefore(candles, k, |candles|)[a].kind == SwingsBefore(candles, k, |candles|)[b].kind
    ensures SwingsBefore(candles, k, |candles|)[b].index - SwingsBefore(candles, k, |candles|)[a].index > k
  {
    var s, t := SwingsBefore(candles, k, |candles|)[a], SwingsBefore(candles, k, |candles|)[b];
    InOrder(candles, k, |candles|);
    ExactlyTheExtrema(candles, k, |candles|, s);
    ExactlyTheExtrema(candles, k, |candles|, t);
    assert Before(s, t);
  }

  lemma ExtremumStays(candles: seq<Candle>, more: seq<Candle>, k: nat, i: nat, kind: Kind)
    requires i < |candles| - k
    ensures IsExtremum(candles + more, k, i, kind) <==> IsExtremum(candles, k, i, kind)
  {
    var longer := candles + more;
    assert forall j :: 0 <= j < |candles| ==> longer[j] == candles[j];
    if k <= i {
      assert forall j :: i - k <= j <= i + k ==> candles[j] == longer[j];
    }
  }

  lemma {:induction false} SettledSwings(candles: seq<Candle>, more: seq<Candle>, k: nat, n: nat)
    requires n <= |candles| - k
    ensures SwingsBefore(candles + more, k, n) == SwingsBefore(candles, k, n)
  {
    hide IsExtremum;
    if n == 0 {
    } else {
      SettledSwings(candles, more, k, n - 1);
      ExtremumStays(candles, more, k, n - 1, HIGH);
      ExtremumStays(candles, more, k, n - 1, LOW);
    }
  }

  lemma {:induction false} Grows(candles: seq<Candle>, k: nat, n: nat, m: nat)
    requires n <= m <= |candles|
    ensures SwingsBefore(candles, k, n) <= SwingsBefore(candles, k, m)
  {
    if n >= m {
    } else {
      Grows(candles, k, n, m - 1);
    }
  }

  /** Swings never repaint: more candles only ever append to them. */
  lemma {:induction false} NeverRepaints(candles: seq<Candle>, more: seq<Candle>, k: nat)
    ensures SwingsBefore(candles, k, |candles|) <= SwingsBefore(candles + more, k, |candles + more|)
  {
    if |candles| < k {
      NoneOutside(candles, k, 0, |candles|);
    } else {
      var n := |candles| - k;
      NoneOutside(candles, k, n, |candles|);
      SettledSwings(candles, more, k, n);
      Grows(candles + more, k, n, |candles + more|);
    }
  }
}
