/** The global caps over every interleaving of lanes: reserve, commit, release, expiry, and a moving broker. */
module RiskCaps {
  import opened Prelude
  import opened Primitives
  import opened RiskReservations

  /** Broker truth and the manager's holds. */
  datatype World = World(broker: Portfolio, holds: seq<Hold>)

  datatype Step =
    | DoReserve(snapshot: Portfolio, req: Request, now: int, id: string)
    | DoCommit(id: string, broker: Portfolio)
    | DoRelease(id: string)
    | DoSweep(now: int)
    | BrokerMoves(broker: Portfolio)

  function Next(w: World, step: Step, limits: Limits): World {
    match step
    case DoReserve(snapshot, req, now, id) => w.(holds := Reserved(w.holds, snapshot, req, limits, now, id))
    case DoCommit(id, broker) => World(broker, Settled(w.holds, id, COMMITTED))
    case DoRelease(id) => w.(holds := Settled(w.holds, id, RELEASED))
    case DoSweep(now) => w.(holds := Swept(w.holds, now))
    case BrokerMoves(broker) => w.(broker := broker)
  }

  ghost predicate HasId(holds: seq<Hold>, id: string) {
    exists i :: 0 <= i < |holds| && holds[i].id == id
  }

  /** `after` shows at most what `before` shows plus `extra` in every scope, and `more` positions. */
  ghost predicate GrowsAtMost(before: Portfolio, after: Portfolio, extra: Scope -> real, more: int) {
    && (forall scope: Scope :: Exposure(after, scope) <= Exposure(before, scope) + extra(scope))
    && after.openPositions <= before.openPositions + more
  }

  /** The snapshot shows at least what the broker shows: in every scope, and in positions. */
  ghost predicate Shows(snapshot: Portfolio, broker: Portfolio) {
    && (forall scope: Scope :: Exposure(broker, scope) <= Exposure(snapshot, scope))
    && broker.openPositions <= snapshot.openPositions
  }

  /** The notional a commit of `id` hands from the holds to the broker. */
  function HandedOver(holds: seq<Hold>, id: string): Scope -> real {
    (scope: Scope) => Held(holds, scope) - Held(Settled(holds, id, COMMITTED), scope)
  }

  /**
    What the lanes and the venue may do: snapshots show at least the broker's exposure, equity is
    fixed, and the broker's exposure grows only by what a commit of an active hold hands over.
   */
  ghost predicate Allowed(w: World, step: Step, equity: real) {
    match step
    case DoReserve(snapshot, req, now, id) =>
      req.notional >= 0.0 && !HasId(w.holds, id) && Equity(snapshot) == equity && Shows(snapshot, w.broker)
    case DoCommit(id, broker) =>
      GrowsAtMost(w.broker, broker, HandedOver(w.holds, id),
                  HeldPositions(w.holds) - HeldPositions(Settled(w.holds, id, COMMITTED)))
    case DoRelease(id) => true
    case DoSweep(now) => true
    case BrokerMoves(broker) => Shows(w.broker, broker)
  }

  function Cap(limits: Limits, equity: real, scope: Scope): real {
    CapPercent(limits, scope) * equity / 100.0
  }

  ghost predicate NonNegative(holds: seq<Hold>) {
    forall i :: 0 <= i < |holds| ==> holds[i].notional >= 0.0
  }

  /** Broker exposure plus active holds is inside every cap, for every symbol and every cluster there is. */
  ghost predicate WithinCaps(w: World, limits: Limits, equity: real) {
    && NonNegative(w.holds)
    && (forall scope: Scope :: Exposure(w.broker, scope) + Held(w.holds, scope) <= Cap(limits, equity, scope))
    && w.broker.openPositions + HeldPositions(w.holds) <= limits.maxConcurrentPositions
  }

  /** Holds can only lose: pointwise, each hold stays as it is or stops being active. */
  ghost predicate OnlyEnds(before: seq<Hold>, after: seq<Hold>) {
    && |before| == |after|
    && forall i :: 0 <= i < |before| ==>
      after[i] == before[i] || (after[i] == before[i].(state := after[i].state) && !after[i].state.ACTIVE?)
  }

  lemma {:induction false} EndingFrees(before: seq<Hold>, after: seq<Hold>, scope: Scope)
    requires OnlyEnds(before, after) && NonNegative(before)
    ensures Held(after, scope) <= Held(before, scope)
    ensures HeldPositions(after) <= HeldPositions(before)
    ensures NonNegative(after)
  {
    if before == [] {
    } else {
      EndingFrees(before[..|before| - 1], after[..|after| - 1], scope);
    }
  }

  /** An approved reservation projects inside the cap of every scope it belongs to. */
  lemma ApprovedFits(p: Portfolio, holds: seq<Hold>, req: Request, limits: Limits, scope: Scope)
    requires LimitRejections(p, holds, req, limits) == [] && Covers(scope, req.symbol, req.cluster)
    ensures Projected(p, holds, req, scope) <= Cap(limits, Equity(p), scope)
  {
    hide Projected, CapPercent;
    assert !Exceeds(p, holds, req, limits, scope);
    PercentWithinCap(Projected(p, holds, req, scope), Equity(p), CapPercent(limits, scope));
  }

  lemma {:induction false} ReserveKeepsScope(w: World, snapshot: Portfolio, req: Request, limits: Limits, now: int,
                                             id: string, equity: real, scope: Scope)
    requires WithinCaps(w, limits, equity) && Allowed(w, DoReserve(snapshot, req, now, id), equity)
    ensures Exposure(w.broker, scope)
      + Held(Reserved(w.holds, snapshot, req, limits, now, id), scope) <= Cap(limits, equity, scope)
  {
    hide Held, Exposure, Cap, LimitRejections, Covers, Swept;
    var swept := Swept(w.holds, now);
    SweepOnlyEnds(w.holds, now);
    EndingFrees(w.holds, swept, scope);
    assert Exposure(w.broker, scope) + Held(w.holds, scope) <= Cap(limits, equity, scope);
    assert Exposure(w.broker, scope) <= Exposure(snapshot, scope);
    HeldSnoc(swept, NewHold(req, id, now), scope);
    if LimitRejections(snapshot, swept, req, limits) == [] && Covers(scope, req.symbol, req.cluster) {
      ApprovedFits(snapshot, swept, req, limits, scope);
    }
  }

  lemma SweepOnlyEnds(holds: seq<Hold>, now: int)
    ensures OnlyEnds(holds, Swept(holds, now))
  {
  }

  lemma ReserveKeepsCaps(w: World, snapshot: Portfolio, req: Request, limits: Limits, now: int, id: string,
                         equity: real)
    requires WithinCaps(w, limits, equity) && Allowed(w, DoReserve(snapshot, req, now, id), equity)
    ensures WithinCaps(Next(w, DoReserve(snapshot, req, now, id), limits), limits, equity)
  {
    var swept := Swept(w.holds, now);
    EndingFrees(w.holds, swept, Gross);
    HeldSnoc(swept, NewHold(req, id, now), Gross);
    forall scope: Scope
      ensures Exposure(w.broker, scope)
        + Held(Reserved(w.holds, snapshot, req, limits, now, id), scope) <= Cap(limits, equity, scope)
    {
      ReserveKeepsScope(w, snapshot, req, limits, now, id, equity, scope);
    }
  }

  lemma EndingKeepsCaps(w: World, t: World, limits: Limits, equity: real)
    requires WithinCaps(w, limits, equity) && OnlyEnds(w.holds, t.holds)
    requires GrowsAtMost(w.broker, t.broker, (scope: Scope) => Held(w.holds, scope) - Held(t.holds, scope),
                         HeldPositions(w.holds) - HeldPositions(t.holds))
    ensures WithinCaps(t, limits, equity)
  {
    EndingFrees(w.holds, t.holds, Gross);
    forall scope: Scope
      ensures Exposure(t.broker, scope) + Held(t.holds, scope) <= Cap(limits, equity, scope)
    {
      EndingFrees(w.holds, t.holds, scope);
      assert Exposure(t.broker, scope) <= Exposure(w.broker, scope)
        + ((s: Scope) => Held(w.holds, s) - Held(t.holds, s))(scope);
    }
  }

  lemma StepKeepsCaps(w: World, step: Step, limits: Limits, equity: real)
    requires WithinCaps(w, limits, equity) && Allowed(w, step, equity)
    ensures WithinCaps(Next(w, step, limits), limits, equity)
  {
    var t := Next(w, step, limits);
    if step.DoReserve? {
      ReserveKeepsCaps(w, step.snapshot, step.req, limits, step.now, step.id, equity);
    } else {
      assert OnlyEnds(w.holds, t.holds);
      forall scope: Scope
        ensures Exposure(t.broker, scope) <= Exposure(w.broker, scope) + (Held(w.holds, scope) - Held(t.holds, scope))
      {
        EndingFrees(w.holds, t.holds, scope);
        if step.DoCommit? {
          assert Exposure(t.broker, scope) <= Exposure(w.broker, scope) + HandedOver(w.holds, step.id)(scope);
        }
        if step.BrokerMoves? {
          assert Exposure(t.broker, scope) <= Exposure(w.broker, scope);
        }
      }
      EndingFrees(w.holds, t.holds, Gross);
      EndingKeepsCaps(w, t, limits, equity);
    }
  }

  ghost predicate IsRun(w: World, steps: seq<Step>, limits: Limits, equity: real, t: World)
    decreases |steps|
  {
    if steps == [] then w == t
    else Allowed(w, steps[0], equity) && IsRun(Next(w, steps[0], limits), steps[1..], limits, equity, t)
  }

  /** In every reachable state of every interleaving, broker exposure plus active holds stays inside every cap. */
  lemma {:induction false} CapsHold(w: World, steps: seq<Step>, limits: Limits, equity: real, t: World)
    requires WithinCaps(w, limits, equity) && IsRun(w, steps, limits, equity, t)
    ensures WithinCaps(t, limits, equity)
    decreases |steps|
  {
    if steps == [] {
    } else {
      StepKeepsCaps(w, steps[0], limits, equity);
      CapsHold(Next(w, steps[0], limits), steps[1..], limits, equity, t);
    }
  }

  /** No hold is larger than one trade may be. */
  ghost predicate TradeSized(holds: seq<Hold>, limits: Limits) {
    forall i :: 0 <= i < |holds| ==> holds[i].notional <= limits.maxNotionalPerTrade
  }

  lemma StepKeepsTradeSize(w: World, step: Step, limits: Limits)
    requires TradeSized(w.holds, limits)
    ensures TradeSized(Next(w, step, limits).holds, limits)
  {
    if step.DoReserve? {
      ApprovedExactly(step.snapshot, w.holds, step.req, limits, step.now);
      PlacedHold(step.req, step.id, step.now);
      hide LimitRejections, PositionsFit, SymbolFits, GrossFits, ClusterFits, NewHold;
    }
  }

  /** Over any run, every hold that was placed is within the limit for one trade. */
  lemma {:induction false} PlacedHoldsAreTradeSized(w: World, steps: seq<Step>, limits: Limits, equity: real, t: World)
    requires TradeSized(w.holds, limits) && IsRun(w, steps, limits, equity, t)
    ensures TradeSized(t.holds, limits)
    decreases |steps|
  {
    if steps == [] {
    } else {
      StepKeepsTradeSize(w, steps[0], limits);
      PlacedHoldsAreTradeSized(Next(w, steps[0], limits), steps[1..], limits, equity, t);
    }
  }

  // ---- which snapshots are safe ----

  /** Whatever the limits, the time and the request: reserving against the snapshot keeps the caps. */
  ghost predicate Safe(w: World, snapshot: Portfolio, id: string, equity: real) {
    forall limits: Limits, req: Request, now: int :: req.notional >= 0.0 && WithinCaps(w, limits, equity) ==>
      WithinCaps(Next(w, DoReserve(snapshot, req, now, id), limits), limits, equity)
  }

  /** A moment at which no hold has run out of time. */
  function BeforeExpiry(holds: seq<Hold>): int {
    if holds == [] then 0 else Min(BeforeExpiry(holds[..|holds| - 1]), holds[|holds| - 1].expiresAt - 1)
  }

  lemma {:induction false} NothingExpires(holds: seq<Hold>, now: int)
    requires now <= BeforeExpiry(holds)
    ensures Swept(holds, now) == holds
  {
    if holds == [] {
    } else {
      NothingExpires(holds[..|holds| - 1], now);
      assert Swept(holds, now) == Swept(holds[..|holds| - 1], now) + [SweptHold(holds[|holds| - 1], now)];
    }
  }

  /** Everything a portfolio shows in any scope together: no scope shows more. */
  function Ceiling(p: Portfolio): real {
    ExposureSum(p.exposures, Gross) + Abs(p.grossExposure)
  }

  lemma {:induction false} SumBelowAll(exposures: seq<SymbolExposure>, scope: Scope)
    ensures 0.0 <= ExposureSum(exposures, scope) <= ExposureSum(exposures, Gross)
  {
    if exposures == [] {
    } else {
      SumBelowAll(exposures[..|exposures| - 1], scope);
    }
  }

  lemma {:induction false} HeldBelowAll(holds: seq<Hold>, scope: Scope)
    requires NonNegative(holds)
    ensures 0.0 <= Held(holds, scope) <= Held(holds, Gross)
  {
    if holds == [] {
    } else {
      HeldBelowAll(holds[..|holds| - 1], scope);
    }
  }

  lemma BelowCeiling(p: Portfolio, scope: Scope)
    ensures Exposure(p, scope) <= Ceiling(p)
  {
    SumBelowAll(p.exposures, scope);
  }

  predicate SameKind(a: Scope, b: Scope) {
    a.Gross? == b.Gross? && a.OfSymbol? == b.OfSymbol?
  }

  function Percent(room: real, equity: real): real
    requires equity > 0.0
  {
    room / equity * 100.0
  }

  /** Limits that leave `room` in scopes of the kind of `scope`, and `wide` in all others. */
  function Tight(scope: Scope, room: real, wide: real, equity: real, positions: int, notional: real): Limits
    requires equity > 0.0
  {
    Limits(positions,
           Percent(if scope.OfSymbol? then room else wide, equity),
           Percent(if scope.Gross? then room else wide, equity),
           Percent(if scope.OfCluster? then room else wide, equity),
           notional)
  }

  lemma TightCap(scope: Scope, room: real, wide: real, equity: real, positions: int, notional: real, other: Scope)
    requires equity > 0.0
    ensures Cap(Tight(scope, room, wide, equity, positions, notional), equity, other)
      == if SameKind(other, scope) then room else wide
  {
    QuotientTimes(room, equity);
    QuotientTimes(wide, equity);
  }

  /** A request with room in each of its scopes is approved when nothing expires. */
  lemma {:induction false} RoomApproves(p: Portfolio, holds: seq<Hold>, req: Request, limits: Limits)
    requires forall scope: Scope :: Covers(scope, req.symbol, req.cluster) ==>
      Projected(p, holds, req, scope) <= Cap(limits, Equity(p), scope)
    requires req.addsPosition ==> p.openPositions + HeldPositions(holds) + 1 <= limits.maxConcurrentPositions
    requires req.notional <= limits.maxNotionalPerTrade
    ensures LimitRejections(p, holds, req, limits) == []
  {
    hide Projected, CapPercent;
    forall scope: Scope | Covers(scope, req.symbol, req.cluster)
      ensures !Exceeds(p, holds, req, limits, scope)
    {
      PercentWithinCap(Projected(p, holds, req, scope), Equity(p), CapPercent(limits, scope));
    }
  }

  /** A request of `notional` in a scope. */
  function RequestIn(scope: Scope, notional: real): Request {
    match scope
    case Gross => Request("", "", notional, false, None)
    case OfSymbol(s) => Request(s, "", notional, false, None)
    case OfCluster(c) => Request("", c, notional, false, None)
  }

  lemma ScopesOfRequest(scope: Scope, notional: real, other: Scope)
    ensures Covers(scope, RequestIn(scope, notional).symbol, RequestIn(scope, notional).cluster)
    ensures SameKind(other, scope)
      && Covers(other, RequestIn(scope, notional).symbol, RequestIn(scope, notional).cluster)
      ==> other == scope
  {
  }

  /** When the snapshot lags in a scope, some limits hold the caps before a reservation and not after it. */
  lemma LaggingScopeIsUnsafe(w: World, snapshot: Portfolio, id: string, equity: real, scope: Scope)
    requires NonNegative(w.holds) && Equity(snapshot) == equity
    requires Exposure(w.broker, scope) > Exposure(snapshot, scope)
    ensures !Safe(w, snapshot, id, equity)
  {
    var now := BeforeExpiry(w.holds);
    NothingExpires(w.holds, now);
    var room := Ceiling(w.broker) + Held(w.holds, Gross);
    var notional := room - Exposure(snapshot, scope) - Held(w.holds, scope);
    var wide := Abs(Ceiling(w.broker)) + Abs(Ceiling(snapshot)) + Held(w.holds, Gross) + Abs(notional);
    var positions := w.broker.openPositions + HeldPositions(w.holds);
    var limits := Tight(scope, room, wide, equity, positions, notional);
    var req := RequestIn(scope, notional);
    hide Exposure, Held, Cap, Tight, Ceiling, RequestIn, SameKind, Covers, Swept, LimitRejections, Equity;
    BelowCeiling(w.broker, scope);
    HeldBelowAll(w.holds, scope);
    assert notional >= 0.0;
    forall other: Scope
      ensures Exposure(w.broker, other) + Held(w.holds, other) <= Cap(limits, equity, other)
      ensures Covers(other, req.symbol, req.cluster) ==>
        Projected(snapshot, w.holds, req, other) <= Cap(limits, equity, other)
    {
      TightCap(scope, room, wide, equity, positions, notional, other);
      BelowCeiling(w.broker, other);
      BelowCeiling(snapshot, other);
      HeldBelowAll(w.holds, other);
      ScopesOfRequest(scope, notional, other);
      RequestParts(scope, notional);
    }
    RequestParts(scope, notional);
    TightParts(scope, room, wide, equity, positions, notional);
    assert WithinCaps(w, limits, equity);
    RoomApproves(snapshot, w.holds, req, limits);
    HeldSnoc(w.holds, NewHold(req, id, now), scope);
    ScopesOfRequest(scope, notional, scope);
    TightCap(scope, room, wide, equity, positions, notional, scope);
    var t := Next(w, DoReserve(snapshot, req, now, id), limits);
    assert t.holds == w.holds + [NewHold(req, id, now)];
    assert Exposure(t.broker, scope) + Held(t.holds, scope) > Cap(limits, equity, scope) by { SameKindItself(scope); }
    assert !WithinCaps(t, limits, equity);
  }

  lemma SameKindItself(scope: Scope)
    ensures SameKind(scope, scope)
  {
  }

  lemma RequestParts(scope: Scope, notional: real)
    ensures RequestIn(scope, notional).notional == notional && !RequestIn(scope, notional).addsPosition
  {
  }

  lemma TightParts(scope: Scope, room: real, wide: real, equity: real, positions: int, notional: real)
    requires equity > 0.0
    ensures Tight(scope, room, wide, equity, positions, notional).maxNotionalPerTrade == notional
    ensures Tight(scope, room, wide, equity, positions, notional).maxConcurrentPositions == positions
  {
  }

  /** So it does when the snapshot shows fewer positions than the broker has. */
  lemma LaggingPositionsAreUnsafe(w: World, snapshot: Portfolio, id: string, equity: real)
    requires NonNegative(w.holds) && Equity(snapshot) == equity
    requires w.broker.openPositions > snapshot.openPositions
    ensures !Safe(w, snapshot, id, equity)
  {
    var now := BeforeExpiry(w.holds);
    NothingExpires(w.holds, now);
    var wide := Abs(Ceiling(w.broker)) + Abs(Ceiling(snapshot)) + Held(w.holds, Gross);
    var positions := w.broker.openPositions + HeldPositions(w.holds);
    var limits := Tight(Gross, wide, wide, equity, positions, 0.0);
    var req := Request("", "", 0.0, true, None);
    hide Exposure, Held, Cap, Tight, Ceiling, SameKind, Swept, LimitRejections, Equity;
    forall other: Scope
      ensures Exposure(w.broker, other) + Held(w.holds, other) <= Cap(limits, equity, other)
      ensures Projected(snapshot, w.holds, req, other) <= Cap(limits, equity, other)
    {
      TightCap(Gross, wide, wide, equity, positions, 0.0, other);
      BelowCeiling(w.broker, other);
      BelowCeiling(snapshot, other);
      HeldBelowAll(w.holds, other);
    }
    TightParts(Gross, wide, wide, equity, positions, 0.0);
    assert WithinCaps(w, limits, equity);
    RoomApproves(snapshot, w.holds, req, limits);
    HeldSnoc(w.holds, NewHold(req, id, now), Gross);
    var t := Next(w, DoReserve(snapshot, req, now, id), limits);
    assert t.holds == w.holds + [NewHold(req, id, now)];
    assert t.broker.openPositions + HeldPositions(t.holds) > limits.maxConcurrentPositions;
    assert !WithinCaps(t, limits, equity);
  }

  /**
    Exactly the snapshots that are safe to reserve against: those that show at least the broker's
    exposure in every scope and at least its positions, so every committed hold among them.
   */
  lemma SafeSnapshotsExactly(w: World, snapshot: Portfolio, id: string, equity: real)
    requires NonNegative(w.holds) && !HasId(w.holds, id) && Equity(snapshot) == equity
    ensures Safe(w, snapshot, id, equity) <==> Shows(snapshot, w.broker)
  {
    hide WithinCaps, Exposure, Equity, Next, HasId;
    if Shows(snapshot, w.broker) {
      forall limits: Limits, req: Request, now: int | req.notional >= 0.0 && WithinCaps(w, limits, equity)
        ensures WithinCaps(Next(w, DoReserve(snapshot, req, now, id), limits), limits, equity)
      {
        StepKeepsCaps(w, DoReserve(snapshot, req, now, id), limits, equity);
      }
    } else if w.broker.openPositions > snapshot.openPositions {
      LaggingPositionsAreUnsafe(w, snapshot, id, equity);
    } else {
      var scope: Scope :| Exposure(w.broker, scope) > Exposure(snapshot, scope);
      LaggingScopeIsUnsafe(w, snapshot, id, equity, scope);
    }
  }

  /** One such case: approved against nothing shown, on top of 50 committed under a cap of 50. */
  lemma StaleSnapshotBreaksCaps()
    ensures var limits := Limits(2, 50.0, 50.0, 50.0, 1000.0);
      var stale := Portfolio(100.0, 0, 0.0, []);
      var w := World(Portfolio(100.0, 1, 50.0, [SymbolExposure("S", 50.0, "ALT")]), []);
      && WithinCaps(w, limits, 100.0)
      && !WithinCaps(Next(w, DoReserve(stale, Request("S", "ALT", 50.0, true, None), 0, "r"), limits), limits, 100.0)
  {
    var limits := Limits(2, 50.0, 50.0, 50.0, 1000.0);
    var stale := Portfolio(100.0, 0, 0.0, []);
    var e := SymbolExposure("S", 50.0, "ALT");
    var broker := Portfolio(100.0, 1, 50.0, [e]);
    var req := Request("S", "ALT", 50.0, true, None);
    forall scope: Scope
      ensures Exposure(broker, scope) + Held([], scope) <= Cap(limits, 100.0, scope)
    {
      OneExposure(e, scope);
    }
    StaleApproves(stale, req, limits);
    HeldSnoc([], NewHold(req, "r", 0), Gross);
    hide LimitRejections, Swept, NewHold, ExposureSum;
    var t := Next(World(broker, []), DoReserve(stale, req, 0, "r"), limits);
    assert t.holds == [] + [NewHold(req, "r", 0)];
    assert HeldOne(NewHold(req, "r", 0), Gross) == 50.0 by { NewHoldCounts(req, "r", 0); }
    assert Exposure(t.broker, Gross) + Held(t.holds, Gross) > Cap(limits, 100.0, Gross);
  }

  lemma NewHoldCounts(req: Request, id: string, now: int)
    ensures HeldOne(NewHold(req, id, now), Gross) == req.notional
  {
  }

  lemma StaleApproves(stale: Portfolio, req: Request, limits: Limits)
    requires limits == Limits(2, 50.0, 50.0, 50.0, 1000.0) && stale == Portfolio(100.0, 0, 0.0, [])
    requires req == Request("S", "ALT", 50.0, true, None)
    ensures Swept([], 0) == [] && LimitRejections(stale, [], req, limits) == []
  {
    hide LimitRejections, Swept;
    forall scope: Scope
      ensures Projected(stale, [], req, scope) <= Cap(limits, Equity(stale), scope)
    {
      NothingShown(stale, scope);
    }
    RoomApproves(stale, [], req, limits);
    assert |Swept([], 0)| == 0;
  }

  lemma {:induction false} NothingShown(p: Portfolio, scope: Scope)
    requires p.grossExposure == 0.0 && p.exposures == []
    ensures Exposure(p, scope) == 0.0 && Held([], scope) == 0.0 && HeldPositions([]) == 0
  {
  }

  lemma {:induction false} OneExposure(e: SymbolExposure, scope: Scope)
    ensures ExposureSum([e], scope) == if Covers(scope, e.symbol, e.cluster) then Abs(e.notional) else 0.0
  {
    assert [e][..0] == [];
  }
}
