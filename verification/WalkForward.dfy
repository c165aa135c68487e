/**
  The replay harness: a simulated trade ends at the first bar that touches its stop or target, and
  trades are taken only while a position slot is free.
 */
module WalkForward {
  import opened Prelude
  import opened Market

  datatype Direction = LONG | SHORT

  /** A candidate trade's geometry. */
  datatype Candidate = Candidate(direction: Direction, entry: real, stopLoss: real, takeProfit: real)

  datatype Outcome = TARGET | STOP | TIMEOUT

  datatype Resolution = Resolution(
    exit: real,
    outcome: Outcome,
    closedAt: OpenTime,
    worst: real,
    best: real,
    holdingBars: nat
  )

  datatype Trade = Trade(candidate: Candidate, openedAt: OpenTime, resolution: Resolution)

  predicate HitsStop(c: Candidate, bar: Candle) {
    if c.direction.LONG? then bar.low <= c.stopLoss else bar.high >= c.stopLoss
  }

  predicate HitsTarget(c: Candidate, bar: Candle) {
    if c.direction.LONG? then bar.high >= c.takeProfit else bar.low <= c.takeProfit
  }

  predicate Touches(c: Candidate, bar: Candle) {
    HitsStop(c, bar) || HitsTarget(c, bar)
  }

  /** The last bar a trade opened at `start` can be held to. */
  function LastBar(base: seq<Candle>, start: nat, maxHoldBars: nat): (r: nat)
    requires start < |base|
    ensures start <= r < |base|
  {
    Min(start + maxHoldBars, |base| - 1)
  }

  /** The first bar from `i` to `last` that touches stop or target. */
  function FirstTouch(base: seq<Candle>, i: nat, last: nat, c: Candidate): (r: Option<nat>)
    requires last < |base|
    ensures r.Some? ==> i <= r.value <= last && Touches(c, base[r.value])
    ensures r.Some? ==> forall m :: i <= m < r.value ==> !Touches(c, base[m])
    ensures r.None? ==> forall m :: i <= m <= last ==> !Touches(c, base[m])
    decreases last + 1 - i
  {
    if i > last then None
    else if Touches(c, base[i]) then Some(i)
    else FirstTouch(base, i + 1, last, c)
  }

  /** The lowest low after `start` up to `last`, or the entry when that is lower. */
  function LowOver(base: seq<Candle>, start: nat, last: nat, entry: real): real
    requires start <= last < |base|
  {
    if last == start then entry
    else
      var rest := LowOver(base, start, last - 1, entry);
      if base[last].low < rest then base[last].low else rest
  }

  function HighOver(base: seq<Candle>, start: nat, last: nat, entry: real): real
    requires start <= last < |base|
  {
    if last == start then entry
    else
      var rest := HighOver(base, start, last - 1, entry);
      if base[last].high > rest then base[last].high else rest
  }

  /** The extremes bound every bar held and the entry, and each is attained. */
  lemma {:induction false} ExtremesAreTight(base: seq<Candle>, start: nat, last: nat, entry: real)
    requires start <= last < |base|
    ensures var low := LowOver(base, start, last, entry);
      && low <= entry && (forall m :: start < m <= last ==> low <= base[m].low)
      && (low == entry || exists m :: start < m <= last && low == base[m].low)
    ensures var high := HighOver(base, start, last, entry);
      && high >= entry && (forall m :: start < m <= last ==> high >= base[m].high)
      && (high == entry || exists m :: start < m <= last && high == base[m].high)
  {
    if last == start {
    } else {
      ExtremesAreTight(base, start, last - 1, entry);
      assert base[last].low == base[last].low && base[last].high == base[last].high;
    }
  }

  /** The resolution of a trade that touched a level at bar `m`, or of one that never did. */
  function Touched(base: seq<Candle>, start: nat, c: Candidate, m: nat, worst: real, best: real): Resolution
    requires start < m < |base|
  {
    var stopped := HitsStop(c, base[m]);
    Resolution(if stopped then c.stopLoss else c.takeProfit, if stopped then STOP else TARGET,
               base[m].openTime, worst, best, m - start)
  }

  /** How a trade opened at bar `start` ends. */
  function Resolved(base: seq<Candle>, start: nat, maxHoldBars: nat, c: Candidate): Resolution
    requires start < |base|
  {
    var last := LastBar(base, start, maxHoldBars);
    match FirstTouch(base, start + 1, last, c)
    case Some(m) =>
      Touched(base, start, c, m, LowOver(base, start, m, c.entry), HighOver(base, start, m, c.entry))
    case None =>
      Resolution(base[last].close, TIMEOUT, base[last].openTime,
                 LowOver(base, start, last, c.entry), HighOver(base, start, last, c.entry), maxHoldBars)
  }

  method Simulate(base: seq<Candle>, start: nat, maxHoldBars: nat, c: Candidate) returns (r: Resolution)
    requires start < |base|
    ensures r == Resolved(base, start, maxHoldBars, c)
  {
    hide HitsStop, HitsTarget;
    var worst, best := c.entry, c.entry;
    ghost var last := LastBar(base, start, maxHoldBars);
    var j := 1;
    while j <= maxHoldBars && start + j < |base|
      invariant 1 <= j && start + j <= last + 1
      invariant worst == LowOver(base, start, start + j - 1, c.entry)
      invariant best == HighOver(base, start, start + j - 1, c.entry)
      invariant FirstTouch(base, start + 1, last, c) == FirstTouch(base, start + j, last, c)
    {
      var bar := base[start + j];
      worst := if bar.low < worst then bar.low else worst;
      best := if bar.high > best then bar.high else best;
      var hitStop := HitsStop(c, bar);
      var hitTarget := HitsTarget(c, bar);
      if hitStop || hitTarget {
        return Touched(base, start, c, start + j, worst, best);
      }
      j := j + 1;
    }
    var exitBar := if start + maxHoldBars < |base| then base[start + maxHoldBars] else base[|base| - 1];
    r := Resolution(exitBar.close, TIMEOUT, exitBar.openTime, worst, best, maxHoldBars);
  }

  /** What a resolution says: the stop wins an ambiguous bar, and a timeout means no bar touched either level. */
  lemma ResolutionMeans(base: seq<Candle>, start: nat, maxHoldBars: nat, c: Candidate)
    requires start < |base|
    ensures var r := Resolved(base, start, maxHoldBars, c);
      var last := if start + maxHoldBars < |base| then start + maxHoldBars else |base| - 1;
      && (r.outcome.TIMEOUT? <==> forall m :: start < m <= last ==> !Touches(c, base[m]))
      && (!r.outcome.TIMEOUT? ==>
            && 1 <= r.holdingBars <= last - start && r.closedAt == base[start + r.holdingBars].openTime
            && (forall m :: start < m < start + r.holdingBars ==> !Touches(c, base[m]))
            && (r.outcome.STOP? <==> HitsStop(c, base[start + r.holdingBars]))
            && (r.outcome.TARGET? ==> HitsTarget(c, base[start + r.holdingBars]) && r.exit == c.takeProfit)
            && (r.outcome.STOP? ==> r.exit == c.stopLoss))
      && (r.outcome.TIMEOUT? ==>
            r.exit == base[last].close && r.closedAt == base[last].openTime && r.holdingBars == maxHoldBars)
  {
  }

  /** A candidate whose stop is on the losing side of its entry and whose target is on the winning side. */
  predicate WellPlaced(c: Candidate) {
    match c.direction
    case LONG => c.stopLoss < c.entry < c.takeProfit
    case SHORT => c.takeProfit < c.entry < c.stopLoss
  }

  /**
    The outcome read off the recorded extremes: a trade is stopped exactly when its worst price
    reached the stop, ends on its target exactly when only the target was reached, and runs out of
    time exactly when neither was.
   */
  lemma ExtremesTell(base: seq<Candle>, start: nat, maxHoldBars: nat, c: Candidate)
    requires start < |base| && WellPlaced(c)
    ensures var r := Resolved(base, start, maxHoldBars, c);
      var stopped := if c.direction == LONG then r.worst <= c.stopLoss else r.best >= c.stopLoss;
      var reached := if c.direction == LONG then r.best >= c.takeProfit else r.worst <= c.takeProfit;
      && (r.outcome == STOP <==> stopped)
      && (r.outcome == TARGET <==> reached && !stopped)
      && (r.outcome == TIMEOUT <==> !reached && !stopped)
  {
    var last := LastBar(base, start, maxHoldBars);
    match FirstTouch(base, start + 1, last, c)
    case Some(m) =>
      ExtremesAreTight(base, start, m, c.entry);
      ExtremesAreTight(base, start, m - 1, c.entry);
    case None =>
      ExtremesAreTight(base, start, last, c.entry);
  }

  /** What happened up to a bar does not depend on later bars: a trade that touched a level is settled for good. */
  lemma TouchIsFinal(base: seq<Candle>, more: seq<Candle>, start: nat, maxHoldBars: nat, c: Candidate)
    requires start < |base|
    requires !Resolved(base, start, maxHoldBars, c).outcome.TIMEOUT?
    ensures Resolved(base + more, start, maxHoldBars, c) == Resolved(base, start, maxHoldBars, c)
  {
    var longer := base + more;
    var h, g := LastBar(base, start, maxHoldBars), LastBar(longer, start, maxHoldBars);
    SameTouch(base, longer, start + 1, h, g, c);
    SameExtremes(base, longer, start, FirstTouch(base, start + 1, h, c).value, c.entry);
  }

  lemma {:induction false} SameTouch(base: seq<Candle>, longer: seq<Candle>, i: nat, h: nat, g: nat, c: Candidate)
    requires base <= longer && h < |base| && g < |longer| && h <= g
    requires FirstTouch(base, i, h, c).Some?
    ensures FirstTouch(longer, i, g, c) == FirstTouch(base, i, h, c)
    decreases h + 1 - i
  {
    assert longer[i] == base[i];
    if Touches(c, base[i]) {
    } else {
      SameTouch(base, longer, i + 1, h, g, c);
    }
  }

  lemma {:induction false} SameExtremes(base: seq<Candle>, longer: seq<Candle>, start: nat, last: nat, entry: real)
    requires base <= longer && start <= last < |base|
    ensures LowOver(longer, start, last, entry) == LowOver(base, start, last, entry)
    ensures HighOver(longer, start, last, entry) == HighOver(base, start, last, entry)
  {
    if last == start {
    } else {
      SameExtremes(base, longer, start, last - 1, entry);
    }
  }

  // ---- concurrency slots ----

  /** A generated trade and the bar it was decided at. */
  datatype Opened = Opened(bar: nat, trade: Trade)

  function OpenedAt(base: seq<Candle>, i: nat, maxHoldBars: nat, c: Candidate): Opened
    requires i < |base|
  {
    Opened(i, Trade(c, base[i].openTime, Resolved(base, i, maxHoldBars, c)))
  }

  function TradesOf(taken: seq<Opened>): seq<Trade> {
    if taken == [] then [] else TradesOf(taken[..|taken| - 1]) + [taken[|taken| - 1].trade]
  }

  predicate ClosesAfter(o: Opened, t: int) {
    t < o.trade.resolution.closedAt.ms
  }

  predicate IsOpen(o: Opened, t: int) {
    o.trade.openedAt.ms <= t < o.trade.resolution.closedAt.ms
  }

  /** How many trades are open at time `t`. */
  function OpenAt(taken: seq<Opened>, t: int): nat {
    if taken == [] then 0
    else OpenAt(taken[..|taken| - 1], t) + if IsOpen(taken[|taken| - 1], t) then 1 else 0
  }

  /** No decision bar after the trade's own and before bar `i` had reached its close time. */
  predicate Survives(base: seq<Candle>, o: Opened, stepBars: nat, i: nat)
    requires stepBars > 0 && i < |base| + stepBars
  {
    i < stepBars || i - stepBars <= o.bar ||
    (ClosesAfter(o, base[i - stepBars].openTime.ms) && Survives(base, o, stepBars, i - stepBars))
  }

  /** How many trades survive to bar `i` and close after `t`. */
  function Surviving(base: seq<Candle>, taken: seq<Opened>, stepBars: nat, i: nat, t: int): nat
    requires stepBars > 0 && i < |base| + stepBars
  {
    if taken == [] then 0
    else
      var o := taken[|taken| - 1];
      Surviving(base, taken[..|taken| - 1], stepBars, i, t)
      + if Survives(base, o, stepBars, i) && ClosesAfter(o, t) then 1 else 0
  }

  /**
    What the replay should generate: at each decision bar, a trade if there is a setup and fewer
    than `slots` earlier trades have outlived every decision bar since their own, this one included.
   */
  function Replay(base: seq<Candle>, decide: nat -> Option<Candidate>, slots: int, stepBars: nat, maxHoldBars: nat,
                  i: nat, taken: seq<Opened>): seq<Opened>
    requires stepBars > 0
    decreases |base| - i
  {
    if i >= |base| - 1 then taken
    else if Surviving(base, taken, stepBars, i, base[i].openTime.ms) >= slots || decide(i).None? then
      Replay(base, decide, slots, stepBars, maxHoldBars, i + stepBars, taken)
    else
      Replay(base, decide, slots, stepBars, maxHoldBars, i + stepBars,
             taken + [OpenedAt(base, i, maxHoldBars, decide(i).value)])
  }

  ghost predicate Increasing(base: seq<Candle>) {
    forall i, j :: 0 <= i < j < |base| ==> base[i].openTime.ms < base[j].openTime.ms
  }

  /** Every trade was decided at a bar before `i` and carries that bar's time. */
  ghost predicate OpenedBefore(base: seq<Candle>, taken: seq<Opened>, i: int) {
    forall k :: 0 <= k < |taken| ==> DecidedBefore(base, taken[k], i)
  }

  ghost predicate DecidedBefore(base: seq<Candle>, o: Opened, i: int) {
    o.bar < i && o.bar < |base| && o.trade.openedAt == base[o.bar].openTime
  }

  lemma {:induction false} OpenAtSnoc(taken: seq<Opened>, o: Opened, t: int)
    ensures OpenAt(taken + [o], t) == OpenAt(taken, t) + if IsOpen(o, t) then 1 else 0
  {
    assert (taken + [o])[..|taken|] == taken;
  }

  /** When bar times increase, surviving is being open: earlier decision bars released nothing this one keeps. */
  lemma {:induction false} SurvivesWhileOpen(base: seq<Candle>, o: Opened, stepBars: nat, i: nat, t: int)
    requires stepBars > 0 && Increasing(base) && i < |base| + stepBars
    requires ClosesAfter(o, t) && (i >= stepBars ==> base[i - stepBars].openTime.ms <= t)
    ensures Survives(base, o, stepBars, i)
    decreases i
  {
    if i < stepBars || i - stepBars <= o.bar {
    } else {
      SurvivesWhileOpen(base, o, stepBars, i - stepBars, t);
    }
  }

  lemma {:induction false} SurvivingIsOpenAt(base: seq<Candle>, taken: seq<Opened>, stepBars: nat, i: nat)
    requires stepBars > 0 && Increasing(base) && i < |base| && OpenedBefore(base, taken, i)
    ensures Surviving(base, taken, stepBars, i, base[i].openTime.ms) == OpenAt(taken, base[i].openTime.ms)
  {
    hide Survives;
    if taken == [] {
    } else {
      var o := taken[|taken| - 1];
      assert DecidedBefore(base, o, i);
      if ClosesAfter(o, base[i].openTime.ms) {
        SurvivesWhileOpen(base, o, stepBars, i, base[i].openTime.ms);
      }
      SurvivingIsOpenAt(base, taken[..|taken| - 1], stepBars, i);
    }
  }

  /** Nothing opens by itself: trades decided before bar `i` are no more numerous later. */
  lemma {:induction false} OnlyCloses(base: seq<Candle>, taken: seq<Opened>, i: nat, t: int)
    requires Increasing(base) && i < |base| && OpenedBefore(base, taken, i) && base[i].openTime.ms <= t
    ensures OpenAt(taken, t) <= OpenAt(taken, base[i].openTime.ms)
  {
    if taken == [] {
    } else {
      assert DecidedBefore(base, taken[|taken| - 1], i);
      OnlyCloses(base, taken[..|taken| - 1], i, t);
    }
  }

  lemma OpenedLater(base: seq<Candle>, taken: seq<Opened>, i: nat, j: nat)
    requires OpenedBefore(base, taken, i) && i <= j
    ensures OpenedBefore(base, taken, j)
  {
    forall k | 0 <= k < |taken|
      ensures DecidedBefore(base, taken[k], j)
    {
      assert DecidedBefore(base, taken[k], i);
    }
  }

  lemma {:induction false} OpenedSnoc(base: seq<Candle>, taken: seq<Opened>, i: nat, o: Opened)
    requires OpenedBefore(base, taken, i) && DecidedBefore(base, o, i)
    ensures OpenedBefore(base, taken + [o], i)
    ensures TradesOf(taken + [o]) == TradesOf(taken) + [o.trade]
  {
    assert (taken + [o])[..|taken|] == taken;
  }

  lemma {:induction false} ReplayBound(base: seq<Candle>, decide: nat -> Option<Candidate>, slots: int,
                                       stepBars: nat, maxHoldBars: nat, i: nat, taken: seq<Opened>, t: int)
    requires stepBars > 0 && Increasing(base)
    requires OpenedBefore(base, taken, i) && OpenAt(taken, t) <= Max(slots, 0)
    ensures OpenAt(Replay(base, decide, slots, stepBars, maxHoldBars, i, taken), t) <= Max(slots, 0)
    decreases |base| - i
  {
    hide Increasing, OpenAt, Resolved, OpenedBefore, Surviving;
    if i >= |base| - 1 {
    } else if Surviving(base, taken, stepBars, i, base[i].openTime.ms) >= slots || decide(i).None? {
      OpenedLater(base, taken, i, i + stepBars);
      ReplayBound(base, decide, slots, stepBars, maxHoldBars, i + stepBars, taken, t);
    } else {
      var o := OpenedAt(base, i, maxHoldBars, decide(i).value);
      OpenedLater(base, taken, i, i + stepBars);
      OpenedSnoc(base, taken, i + stepBars, o);
      OpenAtSnoc(taken, o, t);
      if base[i].openTime.ms <= t {
        SurvivingIsOpenAt(base, taken, stepBars, i);
        OnlyCloses(base, taken, i, t);
      }
      ReplayBound(base, decide, slots, stepBars, maxHoldBars, i + stepBars, taken + [o], t);
    }
  }

  /** When bar times increase, at every moment no more generated trades are open than there are slots. */
  lemma {:induction false} NeverMoreOpenThanSlots(base: seq<Candle>, decide: nat -> Option<Candidate>, slots: int,
                                                  stepBars: nat, maxHoldBars: nat, minBaseBars: nat, t: int)
    requires stepBars > 0 && Increasing(base)
    ensures OpenAt(Replay(base, decide, slots, stepBars, maxHoldBars, minBaseBars, []), t) <= Max(slots, 0)
  {
    ReplayBound(base, decide, slots, stepBars, maxHoldBars, minBaseBars, [], t);
  }

  // ---- the slot list ----

  /** How many close times are later than `t`. */
  function CountOver(times: seq<OpenTime>, t: int): nat {
    if times == [] then 0 else (if times[0].ms > t then 1 else 0) + CountOver(times[1..], t)
  }

  ghost predicate Ordered(times: seq<OpenTime>) {
    forall i, j :: 0 <= i < j < |times| ==> times[i].ms <= times[j].ms
  }

  /** The slot list holds the close times of the trades that survive to bar `i`. */
  ghost predicate Accounts(base: seq<Candle>, openUntil: seq<OpenTime>, taken: seq<Opened>, stepBars: nat, i: nat)
    requires stepBars > 0 && i < |base| + stepBars
  {
    forall t :: CountOver(openUntil, t) == Surviving(base, taken, stepBars, i, t)
  }

  lemma {:induction false} CountConcat(a: seq<OpenTime>, b: seq<OpenTime>, t: int)
    ensures CountOver(a + b, t) == CountOver(a, t) + CountOver(b, t)
  {
    if a == [] {
      assert a + b == b;
    } else {
      assert (a + b)[1..] == a[1..] + b;
      CountConcat(a[1..], b, t);
    }
  }

  lemma {:induction false} AllOver(times: seq<OpenTime>, t: int)
    requires forall i :: 0 <= i < |times| ==> times[i].ms > t
    ensures CountOver(times, t) == |times|
  {
    if times == [] {
    } else {
      AllOver(times[1..], t);
    }
  }

  /** Shift out every slot that closes by `now`. */
  method Prune(openUntil: seq<OpenTime>, now: int) returns (r: seq<OpenTime>)
    requires Ordered(openUntil)
    ensures Ordered(r) && CountOver(r, now) == |r|
    ensures forall t :: CountOver(r, t) == CountOver(openUntil, Max(t, now))
  {
    r := openUntil;
    while |r| > 0 && r[0].ms <= now
      invariant Ordered(r)
      invariant forall t :: t >= now ==> CountOver(r, t) == CountOver(openUntil, t)
    {
      r := r[1..];
    }
    forall t | t <= now
      ensures CountOver(r, t) == |r|
    {
      AllOver(r, t);
    }
  }

  /** Push a close time and sort: the list was sorted, so the time goes to its place. */
  method PushSorted(openUntil: seq<OpenTime>, x: OpenTime) returns (r: seq<OpenTime>)
    requires Ordered(openUntil)
    ensures Ordered(r)
    ensures forall t :: CountOver(r, t) == CountOver(openUntil, t) + if x.ms > t then 1 else 0
  {
    hide Ordered, CountOver, Inserted;
    var i := |openUntil|;
    while i > 0 && openUntil[i - 1].ms > x.ms
      invariant 0 <= i <= |openUntil|
      invariant i < |openUntil| ==> openUntil[i].ms > x.ms
    {
      i := i - 1;
    }
    r := Inserted(openUntil, i, x);
    InsertedInOrder(openUntil, i, x);
    forall t
      ensures CountOver(r, t) == CountOver(openUntil, t) + if x.ms > t then 1 else 0
    {
      InsertedCounts(openUntil, i, x, t);
    }
  }

  function Inserted(times: seq<OpenTime>, i: nat, x: OpenTime): seq<OpenTime>
    requires i <= |times|
  {
    times[..i] + ([x] + times[i..])
  }

  lemma InsertedInOrder(times: seq<OpenTime>, i: nat, x: OpenTime)
    requires i <= |times| && Ordered(times)
    requires i > 0 ==> times[i - 1].ms <= x.ms
    requires i < |times| ==> x.ms < times[i].ms
    ensures Ordered(Inserted(times, i, x))
  {
    var r := Inserted(times, i, x);
    forall a, b | 0 <= a < b < |r|
      ensures r[a].ms <= r[b].ms
    {
      assert r[a] == if a < i then times[a] else if a == i then x else times[a - 1];
      assert r[b] == if b < i then times[b] else if b == i then x else times[b - 1];
    }
  }

  lemma {:induction false} InsertedCounts(times: seq<OpenTime>, i: nat, x: OpenTime, t: int)
    requires i <= |times|
    ensures CountOver(Inserted(times, i, x), t) == CountOver(times, t) + if x.ms > t then 1 else 0
  {
    CountConcat(times[..i], [x] + times[i..], t);
    CountConcat(times[..i], times[i..], t);
    assert times == times[..i] + times[i..];
    assert ([x] + times[i..])[1..] == times[i..];
  }

  /** The next decision bar ends the trades that close by its time. */
  lemma {:induction false} SurvivingStep(base: seq<Candle>, taken: seq<Opened>, stepBars: nat, i: nat, t: int)
    requires stepBars > 0 && i < |base| && OpenedBefore(base, taken, i)
    ensures Surviving(base, taken, stepBars, i + stepBars, t)
      == Surviving(base, taken, stepBars, i, Max(t, base[i].openTime.ms))
  {
    if taken == [] {
    } else {
      assert DecidedBefore(base, taken[|taken| - 1], i);
      SurvivingStep(base, taken[..|taken| - 1], stepBars, i, t);
    }
  }

  /** After pruning, the length of the slot list is the number of trades still holding a slot. */
  lemma {:induction false} SlotsAreSurvivors(base: seq<Candle>, was: seq<OpenTime>, openUntil: seq<OpenTime>,
                                             taken: seq<Opened>, stepBars: nat, i: nat)
    requires stepBars > 0 && i < |base| && OpenedBefore(base, taken, i)
    requires Accounts(base, was, taken, stepBars, i)
    requires CountOver(openUntil, base[i].openTime.ms) == |openUntil|
    requires forall t :: CountOver(openUntil, t) == CountOver(was, Max(t, base[i].openTime.ms))
    ensures |openUntil| == Surviving(base, taken, stepBars, i, base[i].openTime.ms)
    ensures Accounts(base, openUntil, taken, stepBars, i + stepBars)
  {
    hide Surviving, CountOver;
    forall t
      ensures CountOver(openUntil, t) == Surviving(base, taken, stepBars, i + stepBars, t)
    {
      SurvivingStep(base, taken, stepBars, i, t);
    }
    assert CountOver(openUntil, base[i].openTime.ms) == CountOver(was, base[i].openTime.ms);
  }

  /** One more trade in both books. */
  lemma {:induction false} AccountsSnoc(base: seq<Candle>, before: seq<OpenTime>, after: seq<OpenTime>,
                                        taken: seq<Opened>, o: Opened, stepBars: nat, i: nat)
    requires stepBars > 0 && i < |base| && o.bar == i
    requires Accounts(base, before, taken, stepBars, i + stepBars)
    requires forall t :: CountOver(after, t) == CountOver(before, t) + if ClosesAfter(o, t) then 1 else 0
    ensures Accounts(base, after, taken + [o], stepBars, i + stepBars)
  {
    hide CountOver, ClosesAfter;
    assert (taken + [o])[..|taken|] == taken;
  }

  /** Replay bar by bar; the sorted list of close times stands in for looking at the trades again. */
  method GenerateTrades(base: seq<Candle>, decide: nat -> Option<Candidate>, maxConcurrent: Option<int>,
                        stepBars: nat, maxHoldBars: nat, minBaseBars: nat) returns (trades: seq<Trade>)
    requires stepBars > 0
    ensures trades
      == TradesOf(Replay(base, decide, maxConcurrent.GetOr(1), stepBars, maxHoldBars, minBaseBars, []))
  {
    hide Resolved, Accounts, Surviving, OpenedBefore, Ordered, CountOver, TradesOf;
    var slots := maxConcurrent.GetOr(1);
    trades := [];
    var openUntil: seq<OpenTime> := [];
    ghost var taken: seq<Opened> := [];
    var i := minBaseBars;
    StartsEmpty(base, stepBars, i);
    while i < |base| - 1
      invariant minBaseBars <= i
      invariant Ordered(openUntil) && OpenedBefore(base, taken, i) && trades == TradesOf(taken)
      invariant i < |base| ==> Accounts(base, openUntil, taken, stepBars, i)
      invariant Replay(base, decide, slots, stepBars, maxHoldBars, i, taken)
        == Replay(base, decide, slots, stepBars, maxHoldBars, minBaseBars, [])
      decreases |base| - i
    {
      var now := base[i].openTime.ms;
      ghost var was := openUntil;
      openUntil := Prune(openUntil, now);
      SlotsAreSurvivors(base, was, openUntil, taken, stepBars, i);
      OpenedLater(base, taken, i, i + stepBars);
      if |openUntil| < slots {
        var c := decide(i);
        if c.Some? {
          var r := Simulate(base, i, maxHoldBars, c.value);
          var trade := Trade(c.value, base[i].openTime, r);
          ghost var o, before := Opened(i, trade), openUntil;
          openUntil := PushSorted(openUntil, r.closedAt);
          AccountsSnoc(base, before, openUntil, taken, o, stepBars, i);
          OpenedSnoc(base, taken, i + stepBars, o);
          trades := trades + [trade];
          taken := taken + [o];
        }
      }
      i := i + stepBars;
    }
  }

  lemma StartsEmpty(base: seq<Candle>, stepBars: nat, i: nat)
    requires stepBars > 0
    ensures OpenedBefore(base, [], i) && Ordered([]) && TradesOf([]) == []
    ensures i < |base| ==> Accounts(base, [], [], stepBars, i)
  {
  }
}
