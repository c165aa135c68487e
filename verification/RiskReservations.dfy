/**
  Global risk holds: every lane reserves against broker exposure plus all active holds, and a
  hold ends by commit, release or expiry.
 */
module RiskReservations {
  import opened Prelude
  import opened Primitives

  datatype HoldState = ACTIVE | COMMITTED | RELEASED | HOLD_EXPIRED

  datatype Hold = Hold(
    id: string,
    symbol: string,
    cluster: string,
    notional: real,
    addsPosition: bool,
    createdAt: int,
    expiresAt: int,
    state: HoldState
  )

  datatype SymbolExposure = SymbolExposure(symbol: string, notional: real, cluster: string)

  datatype Portfolio = Portfolio(equity: real, openPositions: int, grossExposure: real, exposures: seq<SymbolExposure>)

  datatype Request = Request(symbol: string, cluster: string, notional: real, addsPosition: bool, ttlMs: Option<int>)

  datatype Limits = Limits(
    maxConcurrentPositions: int,
    maxSymbolExposurePercent: real,
    maxPortfolioGrossExposurePercent: real,
    maxCorrelatedExposurePercent: real,
    maxNotionalPerTrade: real
  )

  datatype Rejection =
    | MAX_POSITIONS_EXCEEDED
    | SYMBOL_EXPOSURE_EXCEEDED
    | PORTFOLIO_EXPOSURE_EXCEEDED
    | CORRELATED_EXPOSURE_EXCEEDED
    | MAX_NOTIONAL_EXCEEDED

  const DEFAULT_TTL_MS := 90_000

  /** What a cap is about: everything, one symbol, or one cluster. */
  datatype Scope = Gross | OfSymbol(symbol: string) | OfCluster(cluster: string)

  predicate Covers(scope: Scope, symbol: string, cluster: string) {
    match scope
    case Gross => true
    case OfSymbol(s) => s == symbol
    case OfCluster(c) => c == cluster
  }

  function ExposureSum(exposures: seq<SymbolExposure>, scope: Scope): real {
    if exposures == [] then 0.0
    else
      var e := exposures[|exposures| - 1];
      ExposureSum(exposures[..|exposures| - 1], scope)
      + if Covers(scope, e.symbol, e.cluster) then Abs(e.notional) else 0.0
  }

  /** Exposure the broker shows in a scope: its own gross figure, or the positions' absolute notionals. */
  function Exposure(p: Portfolio, scope: Scope): real {
    if scope.Gross? then p.grossExposure else ExposureSum(p.exposures, scope)
  }

  /** Notional of the active holds in a scope. */
  function Held(holds: seq<Hold>, scope: Scope): real {
    if holds == [] then 0.0
    else
      var h := holds[|holds| - 1];
      Held(holds[..|holds| - 1], scope) +
        if h.state.ACTIVE? && Covers(scope, h.symbol, h.cluster) then h.notional else 0.0
  }

  function HeldPositions(holds: seq<Hold>): int {
    if holds == [] then 0
    else
      var h := holds[|holds| - 1];
      HeldPositions(holds[..|holds| - 1]) + if h.state.ACTIVE? && h.addsPosition then 1 else 0
  }

  function Equity(p: Portfolio): real {
    if p.equity < 1.0 then 1.0 else p.equity
  }

  function CapPercent(limits: Limits, scope: Scope): real {
    match scope
    case Gross => limits.maxPortfolioGrossExposurePercent
    case OfSymbol(_) => limits.maxSymbolExposurePercent
    case OfCluster(_) => limits.maxCorrelatedExposurePercent
  }

  /** Broker exposure plus active holds plus the candidate, in a scope the candidate belongs to. */
  function Projected(p: Portfolio, holds: seq<Hold>, req: Request, scope: Scope): real {
    Exposure(p, scope) + Held(holds, scope) + req.notional
  }

  predicate Exceeds(p: Portfolio, holds: seq<Hold>, req: Request, limits: Limits, scope: Scope) {
    Projected(p, holds, req, scope) / Equity(p) * 100.0 > CapPercent(limits, scope)
  }

  function LimitRejections(p: Portfolio, holds: seq<Hold>, req: Request, limits: Limits): seq<Rejection> {
    var projectedPositions := p.openPositions + HeldPositions(holds) + if req.addsPosition then 1 else 0;
    (if req.addsPosition && projectedPositions > limits.maxConcurrentPositions then [MAX_POSITIONS_EXCEEDED] else [])
    + (if Exceeds(p, holds, req, limits, OfSymbol(req.symbol)) then [SYMBOL_EXPOSURE_EXCEEDED] else [])
    + (if Exceeds(p, holds, req, limits, Gross) then [PORTFOLIO_EXPOSURE_EXCEEDED] else [])
    + (if Exceeds(p, holds, req, limits, OfCluster(req.cluster)) then [CORRELATED_EXPOSURE_EXCEEDED] else [])
    + (if req.notional > limits.maxNotionalPerTrade then [MAX_NOTIONAL_EXCEEDED] else [])
  }

  function ActiveOf(holds: seq<Hold>): seq<Hold> {
    if holds == [] then []
    else
      var h := holds[|holds| - 1];
      ActiveOf(holds[..|holds| - 1]) + if h.state.ACTIVE? then [h] else []
  }

  lemma {:induction false} ActiveOfSnoc(holds: seq<Hold>, h: Hold)
    ensures ActiveOf(holds + [h]) == ActiveOf(holds) + if h.state.ACTIVE? then [h] else []
  {
    assert (holds + [h])[..|holds|] == holds;
  }

  lemma {:induction false} HeldOfActive(holds: seq<Hold>, scope: Scope)
    ensures Held(ActiveOf(holds), scope) == Held(holds, scope)
    ensures HeldPositions(ActiveOf(holds)) == HeldPositions(holds)
  {
    if holds == [] {
    } else {
      var init, h := holds[..|holds| - 1], holds[|holds| - 1];
      HeldOfActive(init, scope);
      hide ActiveOf, Held, HeldPositions, HeldOne;
      assert holds == init + [h];
      ActiveOfSnoc(init, h);
      HeldSnoc(init, h, scope);
      HeldSnoc(ActiveOf(init), h, scope);
      if !h.state.ACTIVE? {
        assert ActiveOf(holds) == ActiveOf(init);
        InactiveHoldsNothing(h, scope);
      }
    }
  }

  lemma InactiveHoldsNothing(h: Hold, scope: Scope)
    requires !h.state.ACTIVE?
    ensures HeldOne(h, scope) == 0.0
  {
  }

  /** Only active holds matter to the caps. */
  lemma {:induction false} ActiveSumsAgree(holds: seq<Hold>, p: Portfolio, req: Request, limits: Limits)
    ensures LimitRejections(p, ActiveOf(holds), req, limits) == LimitRejections(p, holds, req, limits)
  {
    HeldOfActive(holds, Gross);
    HeldOfActive(holds, OfSymbol(req.symbol));
    HeldOfActive(holds, OfCluster(req.cluster));
  }

  // ---- what each operation does to the list of holds ----

  function SweptHold(h: Hold, now: int): Hold {
    if h.state.ACTIVE? && h.expiresAt <= now then h.(state := HOLD_EXPIRED) else h
  }

  function Swept(holds: seq<Hold>, now: int): (r: seq<Hold>)
    ensures |r| == |holds|
  {
    seq(|holds|, i requires 0 <= i < |holds| => SweptHold(holds[i], now))
  }

  function Settled(holds: seq<Hold>, id: string, state: HoldState): (r: seq<Hold>)
    ensures |r| == |holds|
  {
    seq(|holds|, i requires 0 <= i < |holds| =>
      if holds[i].id == id && holds[i].state.ACTIVE? then holds[i].(state := state) else holds[i])
  }

  function NewHold(req: Request, id: string, now: int): Hold {
    Hold(id, req.symbol, req.cluster, req.notional, req.addsPosition,
         now, now + req.ttlMs.GetOr(DEFAULT_TTL_MS), ACTIVE)
  }

  lemma PlacedHold(req: Request, id: string, now: int)
    ensures NewHold(req, id, now) == Hold(id, req.symbol, req.cluster, req.notional, req.addsPosition, now,
      now + (if req.ttlMs.Some? then req.ttlMs.value else 90_000), ACTIVE)
  {
  }

  function Reserved(holds: seq<Hold>, p: Portfolio, req: Request, limits: Limits, now: int, id: string): seq<Hold> {
    var swept := Swept(holds, now);
    if LimitRejections(p, swept, req, limits) == [] then swept + [NewHold(req, id, now)] else swept
  }

  // ---- the five limits, spelled out ----

  /** Notional of the holds that are active and not out of time, of those `of` picks. */
  function LiveNotional(holds: seq<Hold>, now: int, of: Hold -> bool): real {
    if holds == [] then 0.0
    else
      var h := holds[|holds| - 1];
      LiveNotional(holds[..|holds| - 1], now, of) +
        if h.state == ACTIVE && now < h.expiresAt && of(h) then h.notional else 0.0
  }

  /** How many of them add a position. */
  function LiveAdding(holds: seq<Hold>, now: int): int {
    if holds == [] then 0
    else
      var h := holds[|holds| - 1];
      LiveAdding(holds[..|holds| - 1], now) + if h.state == ACTIVE && now < h.expiresAt && h.addsPosition then 1 else 0
  }

  /** What the broker shows of the positions `of` picks, short and long alike. */
  function Shown(exposures: seq<SymbolExposure>, of: SymbolExposure -> bool): real {
    if exposures == [] then 0.0
    else
      var e := exposures[|exposures| - 1];
      Shown(exposures[..|exposures| - 1], of)
      + if of(e) then (if e.notional < 0.0 then -e.notional else e.notional) else 0.0
  }

  /** `exposure` is at most `percent` of the equity, taken as at least one. */
  predicate AtMostPercent(exposure: real, percent: real, equity: real) {
    exposure * 100.0 <= percent * (if equity < 1.0 then 1.0 else equity)
  }

  predicate PositionsFit(p: Portfolio, holds: seq<Hold>, req: Request, limits: Limits, now: int) {
    req.addsPosition ==> p.openPositions + LiveAdding(holds, now) + 1 <= limits.maxConcurrentPositions
  }

  predicate SymbolFits(p: Portfolio, holds: seq<Hold>, req: Request, limits: Limits, now: int) {
    AtMostPercent(Shown(p.exposures, (e: SymbolExposure) => e.symbol == req.symbol)
                  + LiveNotional(holds, now, (h: Hold) => h.symbol == req.symbol) + req.notional,
                  limits.maxSymbolExposurePercent, p.equity)
  }

  predicate GrossFits(p: Portfolio, holds: seq<Hold>, req: Request, limits: Limits, now: int) {
    AtMostPercent(p.grossExposure + LiveNotional(holds, now, (h: Hold) => true) + req.notional,
                  limits.maxPortfolioGrossExposurePercent, p.equity)
  }

  predicate ClusterFits(p: Portfolio, holds: seq<Hold>, req: Request, limits: Limits, now: int) {
    AtMostPercent(Shown(p.exposures, (e: SymbolExposure) => e.cluster == req.cluster)
                  + LiveNotional(holds, now, (h: Hold) => h.cluster == req.cluster) + req.notional,
                  limits.maxCorrelatedExposurePercent, p.equity)
  }

  predicate KeepsLimits(p: Portfolio, holds: seq<Hold>, req: Request, limits: Limits, now: int) {
    && PositionsFit(p, holds, req, limits, now) && SymbolFits(p, holds, req, limits, now)
    && GrossFits(p, holds, req, limits, now) && ClusterFits(p, holds, req, limits, now)
    && req.notional <= limits.maxNotionalPerTrade
  }

  /** Exactly which limits a rejection names. */
  ghost predicate Names(rejections: seq<Rejection>, p: Portfolio, holds: seq<Hold>, req: Request, limits: Limits,
                        now: int) {
    && (MAX_POSITIONS_EXCEEDED in rejections <==> !PositionsFit(p, holds, req, limits, now))
    && (SYMBOL_EXPOSURE_EXCEEDED in rejections <==> !SymbolFits(p, holds, req, limits, now))
    && (PORTFOLIO_EXPOSURE_EXCEEDED in rejections <==> !GrossFits(p, holds, req, limits, now))
    && (CORRELATED_EXPOSURE_EXCEEDED in rejections <==> !ClusterFits(p, holds, req, limits, now))
    && (MAX_NOTIONAL_EXCEEDED in rejections <==> req.notional > limits.maxNotionalPerTrade)
  }

  lemma {:induction false} LiveIsHeld(holds: seq<Hold>, now: int, of: Hold -> bool, scope: Scope)
    requires forall h: Hold :: of(h) <==> Covers(scope, h.symbol, h.cluster)
    ensures LiveNotional(holds, now, of) == Held(Swept(holds, now), scope)
    ensures LiveAdding(holds, now) == HeldPositions(Swept(holds, now))
  {
    if holds == [] {
    } else {
      LiveIsHeld(holds[..|holds| - 1], now, of, scope);
      assert Swept(holds, now)[..|holds| - 1] == Swept(holds[..|holds| - 1], now);
    }
  }

  lemma {:induction false} ShownIsExposure(exposures: seq<SymbolExposure>, of: SymbolExposure -> bool, scope: Scope)
    requires forall e: SymbolExposure :: of(e) <==> Covers(scope, e.symbol, e.cluster)
    ensures Shown(exposures, of) == ExposureSum(exposures, scope)
  {
    if exposures == [] {
    } else {
      ShownIsExposure(exposures[..|exposures| - 1], of, scope);
    }
  }

  lemma ExceedsIsTooMuch(exposure: real, p: Portfolio, percent: real)
    ensures exposure / Equity(p) * 100.0 > percent <==> !AtMostPercent(exposure, percent, p.equity)
  {
    PercentWithinCap(exposure, Equity(p), percent);
  }

  lemma SymbolExactly(p: Portfolio, holds: seq<Hold>, req: Request, limits: Limits, now: int)
    ensures SymbolFits(p, holds, req, limits, now)
      <==> !Exceeds(p, Swept(holds, now), req, limits, OfSymbol(req.symbol))
  {
    hide LiveNotional, LiveAdding, Shown, Held, HeldPositions, ExposureSum, Swept, Equity, AtMostPercent;
    LiveIsHeld(holds, now, (h: Hold) => h.symbol == req.symbol, OfSymbol(req.symbol));
    ShownIsExposure(p.exposures, (e: SymbolExposure) => e.symbol == req.symbol, OfSymbol(req.symbol));
    ExceedsIsTooMuch(Projected(p, Swept(holds, now), req, OfSymbol(req.symbol)), p, limits.maxSymbolExposurePercent);
  }

  lemma GrossExactly(p: Portfolio, holds: seq<Hold>, req: Request, limits: Limits, now: int)
    ensures GrossFits(p, holds, req, limits, now) <==> !Exceeds(p, Swept(holds, now), req, limits, Gross)
  {
    hide LiveNotional, LiveAdding, Shown, Held, HeldPositions, ExposureSum, Swept, Equity, AtMostPercent;
    LiveIsHeld(holds, now, (h: Hold) => true, Gross);
    ExceedsIsTooMuch(Projected(p, Swept(holds, now), req, Gross), p, limits.maxPortfolioGrossExposurePercent);
  }

  lemma ClusterExactly(p: Portfolio, holds: seq<Hold>, req: Request, limits: Limits, now: int)
    ensures ClusterFits(p, holds, req, limits, now)
      <==> !Exceeds(p, Swept(holds, now), req, limits, OfCluster(req.cluster))
  {
    hide LiveNotional, LiveAdding, Shown, Held, HeldPositions, ExposureSum, Swept, Equity, AtMostPercent;
    LiveIsHeld(holds, now, (h: Hold) => h.cluster == req.cluster, OfCluster(req.cluster));
    ShownIsExposure(p.exposures, (e: SymbolExposure) => e.cluster == req.cluster, OfCluster(req.cluster));
    ExceedsIsTooMuch(Projected(p, Swept(holds, now), req, OfCluster(req.cluster)), p,
                     limits.maxCorrelatedExposurePercent);
  }

  /** A request is rejected for exactly the limits it breaks. */
  lemma RejectionsExactly(p: Portfolio, holds: seq<Hold>, req: Request, limits: Limits, now: int)
    ensures Names(LimitRejections(p, Swept(holds, now), req, limits), p, holds, req, limits, now)
  {
    hide SymbolFits, GrossFits, ClusterFits, Exceeds, Swept, HeldPositions, LiveAdding;
    SymbolExactly(p, holds, req, limits, now);
    GrossExactly(p, holds, req, limits, now);
    ClusterExactly(p, holds, req, limits, now);
    LiveIsHeld(holds, now, (h: Hold) => true, Gross);
  }

  /** So it is approved exactly when it keeps all five. */
  lemma ApprovedExactly(p: Portfolio, holds: seq<Hold>, req: Request, limits: Limits, now: int)
    ensures LimitRejections(p, Swept(holds, now), req, limits) == [] <==> KeepsLimits(p, holds, req, limits, now)
  {
    RejectionsExactly(p, holds, req, limits, now);
    hide PositionsFit, SymbolFits, GrossFits, ClusterFits, LimitRejections, Swept;
    var rejections := LimitRejections(p, Swept(holds, now), req, limits);
    if rejections != [] {
      assert rejections[0] in rejections;
      match rejections[0]
      case MAX_POSITIONS_EXCEEDED =>
      case SYMBOL_EXPOSURE_EXCEEDED =>
      case PORTFOLIO_EXPOSURE_EXCEEDED =>
      case CORRELATED_EXPOSURE_EXCEEDED =>
      case MAX_NOTIONAL_EXCEEDED =>
    }
  }

  // ---- the manager ----

  class RiskReservation {
    const id: string
    const symbol: string
    const cluster: string
    const notional: real
    const addsPosition: bool
    const createdAt: int
    const expiresAt: int
    var state: HoldState

    constructor (h: Hold)
      ensures AsHold() == h
    {
      id, symbol, cluster, notional := h.id, h.symbol, h.cluster, h.notional;
      addsPosition, createdAt, expiresAt, state := h.addsPosition, h.createdAt, h.expiresAt, h.state;
    }

    function AsHold(): Hold
      reads `state
    {
      Hold(id, symbol, cluster, notional, addsPosition, createdAt, expiresAt, state)
    }
  }

  datatype Check = Approved(id: string) | Declined(rejections: seq<Rejection>)

  class RiskReservationManager {
    /** Holds by id, and the order they were placed in (the map's iteration order). */
    var reservations: map<string, RiskReservation>
    var order: seq<string>

    ghost predicate Valid()
      reads `reservations, `order
    {
      && (forall i :: 0 <= i < |order| ==> order[i] in reservations)
      && (forall id :: id in reservations ==> id in order && reservations[id].id == id)
      && (forall i, j :: 0 <= i < j < |order| ==> order[i] != order[j])
    }

    ghost function View(): (r: seq<Hold>)
      requires Valid()
      reads this, reservations.Values
      ensures |r| == |order|
    {
      seq(|order|, i requires 0 <= i < |order| && order[i] in reservations
                     reads this, reservations.Values => reservations[order[i]].AsHold())
    }

    constructor ()
      ensures Valid() && View() == []
    {
      reservations, order := map[], [];
    }

    /** Turn every active hold past its time EXPIRED, and report them in order. */
    method SweepExpired(now: int) returns (expired: seq<string>)
      requires Valid()
      modifies reservations.Values
      ensures Valid()
      ensures View() == Swept(old(View()), now)
      ensures forall id :: id in expired <==>
        exists i :: 0 <= i < |old(View())| &&
          old(View())[i].id == id && old(View())[i].state.ACTIVE? && old(View())[i].expiresAt <= now
    {
      expired := [];
      ghost var was := View();
      var i := 0;
      while i < |order|
        invariant 0 <= i <= |order|
        invariant forall j :: 0 <= j < i ==> View()[j] == SweptHold(was[j], now)
        invariant forall j :: i <= j < |order| ==> View()[j] == was[j]
        invariant forall id :: id in expired <==>
          exists j :: 0 <= j < i && was[j].id == id && was[j].state.ACTIVE? && was[j].expiresAt <= now
      {
        var r := reservations[order[i]];
        assert View()[i] == was[i] == r.AsHold();
        if r.state.ACTIVE? && r.expiresAt <= now {
          SetState(r, i, HOLD_EXPIRED);
          expired := expired + [r.id];
        }
        i := i + 1;
      }
    }

    method SetState(r: RiskReservation, ghost i: nat, state: HoldState)
      requires Valid() && i < |order| && reservations[order[i]] == r
      modifies r`state
      ensures View() == old(View())[i := old(View())[i].(state := state)]
    {
      r.state := state;
    }

    /** The active holds, in placement order. */
    method Active() returns (active: seq<Hold>)
      requires Valid()
      ensures active == ActiveOf(View())
    {
      active := [];
      ghost var view := View();
      var i := 0;
      while i < |order|
        invariant 0 <= i <= |order|
        invariant active == ActiveOf(view[..i])
      {
        var h := reservations[order[i]].AsHold();
        assert view[..i + 1] == view[..i] + [h];
        ActiveOfSnoc(view[..i], h);
        if h.state.ACTIVE? {
          active := active + [h];
        }
        i := i + 1;
      }
      assert view[..i] == view;
    }

    /** Sweep, check the caps against broker plus holds plus candidate, and place the hold when all pass. */
    method Reserve(p: Portfolio, req: Request, limits: Limits, now: int, id: string) returns (check: Check)
      requires Valid() && id !in reservations
      modifies this, reservations.Values
      ensures Valid()
      ensures View() == old(Reserved(View(), p, req, limits, now, id))
      ensures check == var rejections := old(LimitRejections(p, Swept(View(), now), req, limits));
        if rejections == [] then Approved(id) else Declined(rejections)
      ensures check.Approved? <==> KeepsLimits(p, old(View()), req, limits, now)
      ensures check.Declined? ==> Names(check.rejections, p, old(View()), req, limits, now)
      ensures check.Approved? ==>
        && |View()| == |old(View())| + 1 && View()[|View()| - 1] == Hold(id, req.symbol, req.cluster, req.notional,
             req.addsPosition, now, now + (if req.ttlMs.Some? then req.ttlMs.value else 90_000), ACTIVE)
      ensures fresh(reservations.Values - old(reservations.Values))
      ensures reservations.Keys == old(reservations.Keys) + if check.Approved? then {id} else {}
    {
      hide Names, KeepsLimits, LimitRejections, Swept, ActiveOf, Valid, View, NewHold;
      RejectionsExactly(p, View(), req, limits, now);
      ApprovedExactly(p, View(), req, limits, now);
      PlacedHold(req, id, now);
      var expired := SweepExpired(now);
      var active := Active();
      ActiveSumsAgree(View(), p, req, limits);
      var rejections := LimitRejections(p, active, req, limits);
      if rejections != [] {
        return Declined(rejections);
      }
      Place(NewHold(req, id, now));
      check := Approved(id);
    }

    method Place(h: Hold)
      requires Valid() && h.id !in reservations
      modifies this
      ensures Valid()
      ensures View() == old(View()) + [h]
      ensures fresh(reservations.Values - old(reservations.Values))
      ensures reservations.Keys == old(reservations.Keys) + {h.id}
    {
      var r := new RiskReservation(h);
      ghost var was := View();
      reservations, order := reservations[h.id := r], order + [h.id];
      assert forall i :: 0 <= i < |was| ==> View()[i] == was[i];
    }

    /** End an active hold; a hold that is not active, or unknown, is left alone. */
    method Settle(id: string, state: HoldState)
      requires Valid()
      modifies reservations.Values
      ensures Valid()
      ensures View() == Settled(old(View()), id, state)
    {
      if id in reservations && reservations[id].state.ACTIVE? {
        ghost var i :| 0 <= i < |order| && order[i] == id;
        SetState(reservations[id], i, state);
      }
    }

    /** Fill confirmed: the exposure is now broker-visible. */
    method Commit(id: string)
      requires Valid()
      modifies reservations.Values
      ensures Valid()
      ensures View() == Settled(old(View()), id, COMMITTED)
    {
      Settle(id, COMMITTED);
    }

    /** The order failed or never reached the venue: the budget is free again. */
    method Release(id: string)
      requires Valid()
      modifies reservations.Values
      ensures Valid()
      ensures View() == Settled(old(View()), id, RELEASED)
    {
      Settle(id, RELEASED);
    }
  }

  function HeldOne(h: Hold, scope: Scope): real {
    if h.state.ACTIVE? && Covers(scope, h.symbol, h.cluster) then h.notional else 0.0
  }

  lemma {:induction false} HeldSnoc(holds: seq<Hold>, h: Hold, scope: Scope)
    ensures Held(holds + [h], scope) == Held(holds, scope) + HeldOne(h, scope)
    ensures HeldPositions(holds + [h]) == HeldPositions(holds) + if h.state.ACTIVE? && h.addsPosition then 1 else 0
  {
    assert (holds + [h])[..|holds|] == holds;
  }
}
