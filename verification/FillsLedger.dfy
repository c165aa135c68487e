/**
  The fills ledger as the program keeps it: a class whose maps, counters and position objects
  change in place. Every method is proved to compute the fold of LedgerModel.
 */
module FillsLedger {
  import opened Prelude
  import opened LedgerModel
  import LedgerTheorems

  /** A `fill.recorded` payload as read back from the log: any field may be missing. */
  datatype PartialFill = PartialFill(
    at: int,
    decisionId: string,
    symbol: string,
    side: Option<Side>,
    price: Option<real>,
    quantity: Option<int>,
    cumulative: Option<int>,
    intentType: IntentType
  )

  datatype Event =
    | FillRecorded(payload: PartialFill)
    | PositionOpened(id: PosId, quantity: int, price: real, at: int)
    | PositionClosed(id: PosId, realized: real, openedAt: int, closedAt: int, allocations: seq<Allocation>)
    | Foreign(kind: string)

  predicate Usable(p: PartialFill) {
    p.price.Some? && p.quantity.Some? && p.symbol != "" && p.side.Some?
  }

  function Complete(p: PartialFill): Fill
    requires Usable(p)
  {
    Fill(p.at, p.decisionId, p.symbol, p.side.value, p.price.value, p.quantity.value, p.cumulative, p.intentType)
  }

  function AsPayload(f: Fill): PartialFill {
    PartialFill(f.at, f.decisionId, f.symbol, Some(f.side), Some(f.price), Some(f.quantity), f.cumulative, f.intentType)
  }

  function FoldPayload(s: Ledger, p: PartialFill): Ledger {
    if Usable(p) then Fold(s, Complete(p)) else s
  }

  function FoldEvent(s: Ledger, e: Event): Ledger {
    match e
    case FillRecorded(p) => FoldPayload(s, p)
    case _ => s
  }

  /** Replaying a log: every recorded fill is folded, every other event is skipped. */
  function Replay(s: Ledger, events: seq<Event>): Ledger {
    if events == [] then s else FoldEvent(Replay(s, events[..|events| - 1]), events[|events| - 1])
  }

  lemma {:induction false} ReplaySnoc(s: Ledger, events: seq<Event>, e: Event)
    ensures Replay(s, events + [e]) == FoldEvent(Replay(s, events), e)
  {
    assert (events + [e])[..|events|] == events;
  }

  // ---- what a live fold reports ----

  function OpenedEvent(f: Fill): Event {
    PositionOpened(OpenedBy(f).id, f.quantity, f.price, f.at)
  }

  function CloseEvents(p: Pos, f: Fill): seq<Event> {
    if ClosesFully(p, f) then [PositionClosed(p.id, Reduced(p, f).realized, p.openedAt, f.at, Closing(p, f))] else []
  }

  function NetEvents(p: Pos, f: Fill): seq<Event> {
    if Remainder(p, f).quantity > 0 then CloseEvents(p, f) + [OpenedEvent(Remainder(p, f))] else CloseEvents(p, f)
  }

  /** The position events a live fold of `f` appends. */
  function Lifecycle(s: Ledger, f: Fill): seq<Event> {
    match OpenOf(s, f.symbol)
    case None => if f.intentType.ENTRY? then [OpenedEvent(f)] else []
    case Some(p) =>
      if !f.intentType.ENTRY? then CloseEvents(p, f)
      else if p.side == f.side then []
      else NetEvents(p, f)
  }

  // ---- lost records ----

  /** What became of one record: only a lost critical record in durable mode throws. */
  datatype Fate = Kept | Lost | Threw

  /** The records one call of `record` can write. `fill.recorded` and `position.opened` are telemetry. */
  datatype Writes = Writes(fill: bool, closing: Fate, opening: bool)

  predicate Reaches(e: Event, w: Writes) {
    match e
    case FillRecorded(_) => w.fill
    case PositionClosed(_, _, _, _, _) => w.closing.Kept?
    case PositionOpened(_, _, _, _) => w.opening
    case Foreign(_) => true
  }

  /** The records that reach the log, in order. */
  function Written(events: seq<Event>, w: Writes): seq<Event> {
    if events == [] then []
    else Written(events[..|events| - 1], w) + if Reaches(events[|events| - 1], w) then [events[|events| - 1]] else []
  }

  lemma {:induction false} WrittenOne(e: Event, w: Writes)
    ensures Written([], w) == [] && Written([e], w) == if Reaches(e, w) then [e] else []
  {
    assert [e][..0] == [];
  }

  lemma {:induction false} WrittenClose(p: Pos, f: Fill, w: Writes)
    ensures Written(CloseEvents(p, f), w) == if w.closing.Kept? then CloseEvents(p, f) else []
  {
    hide Closing, Reduced;
    if ClosesFully(p, f) {
      WrittenOne(CloseEvents(p, f)[0], w);
    }
  }

  lemma {:induction false} WrittenNet(p: Pos, f: Fill, w: Writes)
    ensures Written(NetEvents(p, f), w) == Written(CloseEvents(p, f), w) +
      if Remainder(p, f).quantity > 0 && w.opening then [OpenedEvent(Remainder(p, f))] else []
  {
    hide CloseEvents, Total;
    if Remainder(p, f).quantity > 0 {
      assert NetEvents(p, f)[..|NetEvents(p, f)| - 1] == CloseEvents(p, f);
    }
  }

  /** Does folding `f` empty the symbol's position, so that a close record is due? */
  predicate ClosesOut(s: Ledger, f: Fill) {
    match OpenOf(s, f.symbol)
    case None => false
    case Some(p) => !(f.intentType.ENTRY? && p.side == f.side) && ClosesFully(p, f)
  }

  /** The close record threw: the close itself is booked, what should follow it does not happen. */
  predicate Interrupted(s: Ledger, f: Fill, w: Writes) {
    w.closing.Threw? && ClosesOut(s, f)
  }

  function Attributed(s: Ledger, f: Fill, w: Writes): Ledger {
    if Interrupted(s, f, w) then LedgerModel.CloseFifo(s, OpenOf(s, f.symbol).value, f) else Attribute(s, f)
  }

  datatype Venue = Paper | CoinDcx

  /** The part of a tracked order the ledger reads. */
  datatype FilledView = FilledView(
    intentId: string,
    symbol: string,
    side: Side,
    intentType: IntentType,
    filledQuantity: int,
    avgFillPrice: Option<real>
  )

  /** The fill a view amounts to: its cumulative quantity less what is already counted. */
  function DeltaFill(s: Ledger, v: FilledView, at: int): Fill
    requires v.avgFillPrice.Some?
  {
    Fill(at, v.intentId, v.symbol, v.side, v.avgFillPrice.value,
         v.filledQuantity - Counter(s, v.intentId), Some(v.filledQuantity), v.intentType)
  }

  /** The fill is the view's own: its order, its side, its price, and the units that are new. */
  ghost predicate FillOf(f: Fill, v: FilledView, at: int, units: int) {
    && f.decisionId == v.intentId && f.symbol == v.symbol && f.side == v.side && f.intentType == v.intentType
    && Some(f.price) == v.avgFillPrice && f.at == at && f.quantity == units && f.cumulative == Some(v.filledQuantity)
  }

  const READ_WINDOW: nat := 50_000

  /** Ledger, log and callback history together: what a run of `record` calls changes. */
  datatype World = World(ledger: Ledger, log: seq<Event>, calls: seq<Allocation>)

  /** What can happen to a ledger: a call of `record`, somebody else's event, or a new process on the same log. */
  datatype Recording = Stored(fill: Fill) | NoNewFill | NotPersisted

  datatype Input = RecordCall(view: FilledView, at: int, writes: Writes) | OtherEvent(kind: string) | Restart

  /** `record` throws when the view carries no new quantity or no average price. */
  predicate Accepts(s: Ledger, v: FilledView) {
    v.filledQuantity > Counter(s, v.intentId) && v.avgFillPrice.Some?
  }

  function Step(w: World, input: Input, venue: Venue): World {
    match input
    case OtherEvent(kind) => w.(log := w.log + [Foreign(kind)])
    case Restart => w.(ledger := Replay(Empty(), LastN(w.log, READ_WINDOW)))
    case RecordCall(v, at, writes) =>
      if !Accepts(w.ledger, v) then w
      else
        var p := AsPayload(DeltaFill(w.ledger, v, at));
        World(LiveLedger(w.ledger, p, writes),
              w.log + Written([FillRecorded(p)], writes) + LiveEvents(w.ledger, p, writes),
              w.calls + LiveCalls(w.ledger, p, venue, writes))
  }

  function Run(inputs: seq<Input>, venue: Venue): World {
    if inputs == [] then World(Empty(), [], [])
    else Step(Run(inputs[..|inputs| - 1], venue), inputs[|inputs| - 1], venue)
  }

  function LiveLedger(s: Ledger, p: PartialFill, w: Writes): Ledger {
    if Usable(p) then Attributed(Noted(s, Complete(p)), Complete(p), w) else s
  }

  /** Does the call end in an exception because its close record was lost? */
  predicate Throws(s: Ledger, p: PartialFill, w: Writes) {
    Usable(p) && Interrupted(Noted(s, Complete(p)), Complete(p), w)
  }

  function LiveEvents(s: Ledger, p: PartialFill, w: Writes): seq<Event> {
    if Usable(p) && !Throws(s, p, w) then Written(Lifecycle(Noted(s, Complete(p)), Complete(p)), w) else []
  }

  /** The close callbacks a live fold makes: one per allocation, on the live venue only. */
  function LiveCalls(s: Ledger, p: PartialFill, venue: Venue, w: Writes): seq<Allocation> {
    if venue.CoinDcx? && !Throws(s, p, w) then DueCalls(s, p) else []
  }

  /** The allocations a fold makes. */
  function DueCalls(s: Ledger, p: PartialFill): seq<Allocation> {
    if Usable(p) then AllocationsOf(Noted(s, Complete(p)), Complete(p)) else []
  }

  ghost predicate NoFills(events: seq<Event>) {
    forall i :: 0 <= i < |events| ==> !events[i].FillRecorded?
  }

  lemma {:induction false} WrittenNoFills(events: seq<Event>, w: Writes, fill: bool)
    requires NoFills(events)
    ensures Written(events, w.(fill := fill)) == Written(events, w)
    ensures NoFills(Written(events, w))
  {
    if events == [] {
    } else {
      WrittenNoFills(events[..|events| - 1], w, fill);
    }
  }

  /** Whether the fill record itself arrived changes nothing else about the call. */
  lemma FillRecordIsSeparate(s: Ledger, p: PartialFill, venue: Venue, w: Writes, fill: bool)
    ensures LiveLedger(s, p, w.(fill := fill)) == LiveLedger(s, p, w)
    ensures LiveEvents(s, p, w.(fill := fill)) == LiveEvents(s, p, w)
    ensures LiveCalls(s, p, venue, w.(fill := fill)) == LiveCalls(s, p, venue, w)
    ensures Throws(s, p, w.(fill := fill)) <==> Throws(s, p, w)
    ensures NoFills(LiveEvents(s, p, w))
  {
    hide Noted, Attribute, AllocationsOf, OpenOf, Closing, Reduced, Written, Total;
    if Usable(p) {
      var events := Lifecycle(Noted(s, Complete(p)), Complete(p));
      assert NoFills(events);
      WrittenNoFills(events, w, fill);
    }
  }

  /** The ledger's side of the event store; an append may fail at any time. */
  class EventLog {
    const durable: bool
    var events: seq<Event>

    constructor (durable: bool)
      ensures this.durable == durable && events == []
    {
      this.durable, events := durable, [];
    }

    method AppendClassified(e: Event) returns (fate: Fate)
      modifies this
      ensures events == if fate.Kept? then old(events) + [e] else old(events)
      ensures !fate.Kept? ==> (fate.Threw? <==> durable && e.PositionClosed?)
    {
      var ok := *;
      if ok {
        events := events + [e];
        return Kept;
      }
      fate := if durable && e.PositionClosed? then Threw else Lost;
    }

    method ReadAll(limit: nat) returns (tail: seq<Event>)
      requires limit > 0
      ensures tail == LastN(events, limit)
    {
      tail := LastN(events, limit);
    }
  }

  /** One open position; its lots and realized PnL are changed in place. */
  class PositionState {
    const positionId: PosId
    const symbol: string
    const side: Side
    const openedAt: int
    var lots: seq<Lot>
    var realizedPnl: real
    var closedAt: Option<int>

    constructor (p: Pos)
      ensures AsPos() == p && closedAt == None
    {
      positionId, symbol, side, openedAt := p.id, p.symbol, p.side, p.openedAt;
      lots, realizedPnl, closedAt := p.lots, p.realized, None;
    }

    ghost function AsPos(): Pos
      reads `lots, `realizedPnl
    {
      Pos(positionId, symbol, side, lots, openedAt, realizedPnl)
    }
  }

  /** The lots after `closeQty` units of the oldest one are gone. */
  function AfterHead(lots: seq<Lot>, closeQty: int): seq<Lot>
    requires lots != []
  {
    var rest := lots[0].quantity - closeQty;
    if rest <= 0 then lots[1..] else lots[0 := lots[0].(quantity := rest)]
  }

  lemma HeadStep(p: Pos, f: Fill, lots: seq<Lot>, remaining: int)
    requires lots != [] && remaining > 0
    ensures var k := Min(lots[0].quantity, remaining);
      && remaining - k >= 0 && (|AfterHead(lots, k)| < |lots| || (remaining - k == 0 && |AfterHead(lots, k)| == |lots|))
      && Takes(p, f, lots, remaining) == [Allocate(p, f, lots[0], k)] + Takes(p, f, AfterHead(lots, k), remaining - k)
      && Drop(lots, remaining) == Drop(AfterHead(lots, k), remaining - k)
  {
    var k := Min(lots[0].quantity, remaining);
    if k < lots[0].quantity {
      assert AfterHead(lots, k) == [lots[0].(quantity := lots[0].quantity - k)] + lots[1..];
    }
  }

  lemma {:induction false} NothingToTake(p: Pos, f: Fill, lots: seq<Lot>, remaining: int)
    requires remaining <= 0 || lots == []
    ensures Takes(p, f, lots, remaining) == [] && Drop(lots, remaining) == lots
  {
  }

  /** Close up to `remaining` of the oldest lot; an exhausted lot is shifted out. */
  method TakeHead(position: PositionState, f: Fill, remaining: int) returns (a: Allocation)
    requires |position.lots| > 0
    modifies position`lots
    ensures a == old(Allocate(position.AsPos(), f, position.lots[0], Min(position.lots[0].quantity, remaining)))
    ensures position.lots == old(AfterHead(position.lots, Min(position.lots[0].quantity, remaining)))
  {
    hide Times;
    var lot := position.lots[0];
    var closeQty := Min(lot.quantity, remaining);
    var pnl := (f.price - lot.price) * Dir(position.side) as real * closeQty as real;
    ProductOfThree(f.price - lot.price, Dir(position.side), closeQty);
    position.lots := position.lots[0 := lot.(quantity := lot.quantity - closeQty)];
    if position.lots[0].quantity <= 0 {
      position.lots := position.lots[1..];
    }
    a := Allocation(position.positionId, position.symbol, position.side, lot.decisionId, pnl, closeQty, f.at);
  }

  /** Consume `qty` from the position's lots oldest first, one allocation per lot touched. */
  method AllocateFifo(position: PositionState, f: Fill, qty: int) returns (allocations: seq<Allocation>)
    modifies position`lots
    ensures allocations == old(Takes(position.AsPos(), f, position.lots, qty))
    ensures position.lots == old(Drop(position.lots, qty))
  {
    hide Takes, Drop, AfterHead, Times;
    allocations := [];
    var remaining := qty;
    ghost var p, lots := position.AsPos(), position.lots;
    while remaining > 0 && |position.lots| > 0
      invariant position.AsPos() == p.(lots := position.lots)
      invariant allocations + Takes(p, f, position.lots, remaining) == Takes(p, f, lots, qty)
      invariant Drop(position.lots, remaining) == Drop(lots, qty)
      decreases |position.lots|, remaining
    {
      HeadStep(p, f, position.lots, remaining);
      var a := TakeHead(position, f, remaining);
      remaining := remaining - a.quantity;
      assert allocations + ([a] + Takes(p, f, position.lots, remaining))
          == (allocations + [a]) + Takes(p, f, position.lots, remaining);
      allocations := allocations + [a];
    }
    NothingToTake(p, f, position.lots, remaining);
  }

  lemma {:induction false} ProductOfThree(x: real, dir: int, n: int)
    ensures x * dir as real * n as real == Times(dir * n, x)
  {
    TimesIsProduct(dir * n, x);
    assert (dir * n) as real == dir as real * n as real;
  }

  lemma EmptyInv()
    ensures Inv(Empty()) && Empty().positions == map[]
  {
  }

  class FillsLedger {
    const store: EventLog
    const venue: Venue
    var fills: seq<Fill>
    var positions: map<PosId, PositionState>
    var openBySymbol: map<string, PosId>
    var lastCumulative: map<string, int>
    var realizedPnlTotal: real
    var realizedCount: nat
    var positionsOpened: nat
    var positionsClosed: nat
    var replaying: bool
    /** The allocations handed to the close callback so far. */
    var closeCalls: seq<Allocation>

    constructor (store: EventLog, venue: Venue)
      ensures this.store == store && this.venue == venue
      ensures Valid() && View() == Empty() && Inv(View()) && !replaying && closeCalls == []
    {
      hide Empty;
      var s := Empty();
      EmptyInv();
      this.store, this.venue := store, venue;
      fills, positions, openBySymbol, lastCumulative := s.fills, map[], s.openBySymbol, s.lastCumulative;
      realizedPnlTotal, realizedCount := s.realized.total, s.realized.count;
      positionsOpened, positionsClosed := s.openedCount, s.closedCount;
      replaying, closeCalls := false, [];
    }

    ghost function View(): Ledger
      reads `fills, `positions, `openBySymbol, `lastCumulative, `realizedPnlTotal, `realizedCount
      reads `positionsOpened, `positionsClosed, positions.Values
    {
      Ledger(fills, map id | id in positions :: positions[id].AsPos(), openBySymbol, lastCumulative,
             Realized(realizedPnlTotal, realizedCount), positionsOpened, positionsClosed)
    }

    /** Every position object is stored under its own id; all else the ledger keeps is `Inv` of its view. */
    ghost predicate Valid()
      reads `positions
    {
      forall id :: id in positions ==> positions[id].positionId == id
    }

    /** Live folds only; nothing is written, so nothing is lost, during replay. */
    method Persist(e: Event) returns (fate: Fate)
      modifies store
      ensures store.events == if !replaying && fate.Kept? then old(store.events) + [e] else old(store.events)
      ensures replaying ==> fate.Kept?
      ensures !fate.Kept? ==> (fate.Threw? <==> store.durable && e.PositionClosed?)
    {
      fate := Kept;
      if !replaying {
        fate := store.AppendClassified(e);
      }
    }

    method OpenNew(f: Fill) returns (kept: bool)
      requires Valid()
      modifies this, store
      ensures Valid()
      ensures View() == OpenPosition(old(View()), f)
      ensures fresh(positions.Values - old(positions.Values))
      ensures store.events == old(store.events) + if !replaying && kept then [OpenedEvent(f)] else []
      ensures replaying == old(replaying) && closeCalls == old(closeCalls)
    {
      var position := new PositionState(OpenedBy(f));
      Insert(position);
      var fate := Persist(OpenedEvent(f));
      kept := fate.Kept?;
    }

    method Insert(position: PositionState)
      requires Valid()
      modifies `positions, `openBySymbol, `positionsOpened
      ensures View() == old(View()).(
        positions := old(View()).positions[position.positionId := position.AsPos()],
        openBySymbol := old(View()).openBySymbol[position.symbol := position.positionId],
        openedCount := old(View()).openedCount + 1)
      ensures positions.Values <= old(positions.Values) + {position}
      ensures Valid()
    {
      hide PositionState.AsPos;
      positions := positions[position.positionId := position];
      openBySymbol := openBySymbol[position.symbol := position.positionId];
      positionsOpened := positionsOpened + 1;
    }

    /** Drop the counters of the decisions whose lots a full close consumed. */
    method ForgetDecisions(allocations: seq<Allocation>)
      modifies this`lastCumulative
      ensures lastCumulative == old(lastCumulative) - DecisionsOf(allocations)
      ensures View() == old(View()).(lastCumulative := old(View()).lastCumulative - DecisionsOf(allocations))
    {
      var i := 0;
      while i < |allocations|
        invariant 0 <= i <= |allocations|
        invariant lastCumulative == old(lastCumulative) - DecisionsOf(allocations[..i])
      {
        assert DecisionsOf(allocations[..i + 1]) == DecisionsOf(allocations[..i]) + {allocations[i].decisionId};
        lastCumulative := lastCumulative - {allocations[i].decisionId};
        i := i + 1;
      }
      assert allocations[..i] == allocations;
    }

    /** Credit every allocation to the position and to the running totals. */
    method BookAllocations(position: PositionState, allocations: seq<Allocation>)
      modifies position`realizedPnl, `realizedPnlTotal, `realizedCount
      ensures position.realizedPnl == old(position.realizedPnl) + PnlSum(allocations)
      ensures realizedPnlTotal == old(realizedPnlTotal) + PnlSum(allocations)
      ensures realizedCount == old(realizedCount) + |allocations|
    {
      var i := 0;
      while i < |allocations|
        invariant 0 <= i <= |allocations|
        invariant position.realizedPnl == old(position.realizedPnl) + PnlSum(allocations[..i])
        invariant realizedPnlTotal == old(realizedPnlTotal) + PnlSum(allocations[..i])
        invariant realizedCount == old(realizedCount) + i
      {
        assert allocations[..i + 1][..i] == allocations[..i];
        position.realizedPnl := position.realizedPnl + allocations[i].pnl;
        realizedPnlTotal := realizedPnlTotal + allocations[i].pnl;
        realizedCount := realizedCount + 1;
        i := i + 1;
      }
      assert allocations[..i] == allocations;
    }

    method Unlink(position: PositionState, at: int)
      requires position.positionId in positions
      modifies `positions, `openBySymbol, `positionsClosed, position`closedAt
      ensures View() == old(View()).(
        positions := old(View()).positions - {position.positionId},
        openBySymbol := old(View()).openBySymbol - {position.symbol},
        closedCount := old(View()).closedCount + 1)
      ensures positions == old(positions) - {position.positionId} && position.closedAt == Some(at)
    {
      position.closedAt := Some(at);
      positions := positions - {position.positionId};
      openBySymbol := openBySymbol - {position.symbol};
      positionsClosed := positionsClosed + 1;
    }

    /** A fully closed position leaves both maps, and its last allocations' decisions lose their counters. */
    method Retire(position: PositionState, f: Fill, allocations: seq<Allocation>) returns (fate: Fate)
      requires position.positionId in positions
      modifies `positions, `openBySymbol, `positionsClosed, `lastCumulative, position`closedAt, store
      ensures View() == Retired(old(View()), position.positionId, position.symbol, allocations)
      ensures positions == old(positions) - {position.positionId} && position.closedAt == Some(f.at)
      ensures store.events == old(store.events) + if !replaying && fate.Kept?
        then [PositionClosed(position.positionId, position.realizedPnl, position.openedAt, f.at, allocations)]
        else []
      ensures !fate.Kept? ==> !replaying && (fate.Threw? <==> store.durable)
    {
      Unlink(position, f.at);
      hide View, DecisionsOf;
      ForgetDecisions(allocations);
      fate := Persist(PositionClosed(position.positionId, position.realizedPnl, position.openedAt, f.at, allocations));
    }

    /** Take up to `qty` off the position's lots and book what that realizes. */
    method TakeFifo(position: PositionState, f: Fill, qty: int) returns (allocations: seq<Allocation>)
      requires qty == f.quantity
      modifies position`lots, position`realizedPnl, `realizedPnlTotal, `realizedCount
      ensures allocations == old(Closing(position.AsPos(), f))
      ensures position.AsPos() == old(Reduced(position.AsPos(), f))
      ensures realizedPnlTotal == old(realizedPnlTotal) + PnlSum(allocations)
      ensures realizedCount == old(realizedCount) + |allocations|
    {
      allocations := AllocateFifo(position, f, Min(qty, Total(position.lots)));
      BookAllocations(position, allocations);
    }

    /** `TakeFifo` seen from the whole ledger: one entry of the position map changes. */
    method TakeFromOpen(position: PositionState, f: Fill, qty: int) returns (allocations: seq<Allocation>)
      requires Valid()
      requires position.positionId in positions && positions[position.positionId] == position
      requires qty == f.quantity
      modifies position`lots, position`realizedPnl, `realizedPnlTotal, `realizedCount
      ensures allocations == old(Closing(position.AsPos(), f))
      ensures position.AsPos() == old(Reduced(position.AsPos(), f))
      ensures View() == Booked(old(View()), old(position.AsPos()), f)
    {
      hide Closing, Reduced, PnlSum;
      ghost var was := View().positions;
      allocations := TakeFifo(position, f, qty);
      assert forall id :: id in positions && id != position.positionId ==> positions[id].AsPos() == was[id];
    }

    method RetireIfEmpty(position: PositionState, f: Fill, allocations: seq<Allocation>) returns (fate: Fate)
      requires position.positionId in positions
      modifies `positions, `openBySymbol, `positionsClosed, `lastCumulative, position`closedAt, store
      ensures View() == if old(position.lots) == [] && allocations != []
        then Retired(old(View()), position.positionId, position.symbol, allocations) else old(View())
      ensures positions == old(positions) || positions == old(positions) - {position.positionId}
      ensures store.events == old(store.events) +
        if old(position.lots) == [] && allocations != [] && !replaying && fate.Kept? then
          [PositionClosed(position.positionId, position.realizedPnl, position.openedAt, f.at, allocations)]
        else []
      ensures !fate.Kept? ==>
        !replaying && (fate.Threw? <==> store.durable) && old(position.lots) == [] && allocations != []
    {
      hide View, Retired;
      fate := Kept;
      if |position.lots| == 0 && |allocations| > 0 {
        fate := Retire(position, f, allocations);
      }
    }

    /** The state change of a close: lots, totals, and the maps when nothing is left. */
    method Settle(position: PositionState, f: Fill, qty: int) returns (allocations: seq<Allocation>, fate: Fate)
      requires Valid()
      requires position.positionId in positions && positions[position.positionId] == position
      requires qty == f.quantity
      modifies `positions, `openBySymbol, `lastCumulative, `realizedPnlTotal, `realizedCount, `positionsClosed,
        position, store
      ensures allocations == old(Closing(position.AsPos(), f))
      ensures Valid()
      ensures View() == LedgerModel.CloseFifo(old(View()), old(position.AsPos()), f)
      ensures positions == old(positions) || positions == old(positions) - {position.positionId}
      ensures store.events
        == old(store.events) + if !replaying && fate.Kept? then old(CloseEvents(position.AsPos(), f)) else []
      ensures !fate.Kept? ==>
        !replaying && (fate.Threw? <==> store.durable) && old(ClosesFully(position.AsPos(), f))
    {
      hide View, Total, Takes, Drop, PnlSum, Closing, Reduced, ClosesFully, CloseEvents,
        Booked, Retired, LedgerModel.CloseFifo;
      CloseFifoUnfolds(View(), position.AsPos(), f);
      allocations := TakeFromOpen(position, f, qty);
      fate := RetireIfEmpty(position, f, allocations);
    }

    /** Hand every allocation to the close callback: live venue only, and never during replay. */
    method FanOut(allocations: seq<Allocation>)
      modifies `closeCalls
      ensures closeCalls == old(closeCalls) + if venue.CoinDcx? && !replaying then allocations else []
    {
      if venue.CoinDcx? && !replaying {
        closeCalls := closeCalls + allocations;
      }
    }

    /** Close, book and retire, then call back; a lost close record throws before anybody is called. */
    method CloseFifo(position: PositionState, f: Fill, qty: int) returns (closed: int, fate: Fate)
      requires Valid()
      requires position.positionId in positions && positions[position.positionId] == position
      requires qty == f.quantity
      modifies `positions, `openBySymbol, `lastCumulative, `realizedPnlTotal, `realizedCount, `positionsClosed,
        `closeCalls, position, store
      ensures Valid()
      ensures View() == LedgerModel.CloseFifo(old(View()), old(position.AsPos()), f)
      ensures positions == old(positions) || positions == old(positions) - {position.positionId}
      ensures !fate.Threw? ==> closed == old(Max(0, Min(qty, Total(position.AsPos().lots))))
      ensures store.events
        == old(store.events) + if !replaying && fate.Kept? then old(CloseEvents(position.AsPos(), f)) else []
      ensures closeCalls == old(closeCalls) +
        if venue.CoinDcx? && !replaying && !fate.Threw? then old(Closing(position.AsPos(), f)) else []
      ensures !fate.Kept? ==>
        !replaying && (fate.Threw? <==> store.durable) && old(ClosesFully(position.AsPos(), f))
    {
      hide *;
      LedgerTheorems.ClosedQuantity(position.AsPos(), f);
      var allocations;
      allocations, fate := Settle(position, f, qty);
      if fate.Threw? {
        return 0, fate;
      }
      FanOut(allocations);
      closed := QuantitySum(allocations);
    }

    /** Where the symbol index leads in the maps is where `OpenOf` leads in the view. */
    lemma IndexLeadsToOpen(symbol: string)
      ensures OpenOf(View(), symbol) == if symbol in openBySymbol && openBySymbol[symbol] in positions
        then Some(positions[openBySymbol[symbol]].AsPos()) else None
    {
    }

    method AppendLot(position: PositionState, lot: Lot)
      modifies position`lots
      ensures position.AsPos() == old(position.AsPos()).(lots := old(position.lots) + [lot])
    {
      position.lots := position.lots + [lot];
    }

    /** Scale-in: append a lot carrying its own decision. */
    method Extend(position: PositionState, f: Fill)
      requires Valid()
      requires position.positionId in positions && positions[position.positionId] == position
      modifies position`lots
      ensures Valid()
      ensures View() == ScaleIn(old(View()), old(position.AsPos()), f)
    {
      ghost var was := View().positions;
      hide LotOf;
      AppendLot(position, LotOf(f));
      assert forall id :: id in positions && id != position.positionId ==> positions[id].AsPos() == was[id];
    }

    /** Opposite-side ENTRY: net the position down first, then flip with what is left. */
    method NetThenFlip(position: PositionState, f: Fill) returns (w: Writes)
      requires Valid()
      requires position.positionId in positions && positions[position.positionId] == position
      requires OpenOf(View(), f.symbol) == Some(position.AsPos())
      modifies this, position, store
      ensures Valid()
      ensures View() == old(if !w.closing.Threw? && Remainder(position.AsPos(), f).quantity > 0
        then OpenPosition(LedgerModel.CloseFifo(View(), position.AsPos(), f), Remainder(position.AsPos(), f))
        else LedgerModel.CloseFifo(View(), position.AsPos(), f))
      ensures fresh(positions.Values - old(positions.Values))
      ensures store.events == old(store.events) +
        if replaying || w.closing.Threw? then [] else Written(old(NetEvents(position.AsPos(), f)), w)
      ensures closeCalls == old(closeCalls) +
        if venue.CoinDcx? && !replaying && !w.closing.Threw? then old(Closing(position.AsPos(), f)) else []
      ensures replaying == old(replaying)
      ensures !w.closing.Kept? ==>
        !replaying && (w.closing.Threw? <==> store.durable) && old(ClosesFully(position.AsPos(), f))
    {
      hide LedgerModel.CloseFifo, View, CloseEvents, Closing, Total, ClosesFully, Written;
      ghost var p := position.AsPos();
      var closed, fate := CloseFifo(position, f, f.quantity);
      w := Writes(true, fate, true);
      if fate.Threw? {
        return;
      }
      WrittenClose(p, f, w);
      var remainder := f.quantity - closed;
      if remainder > 0 {
        var kept := OpenNew(f.(quantity := remainder));
        w := w.(opening := kept);
        WrittenClose(p, f, w);
      }
      WrittenNet(p, f, w);
    }

    /** ENTRY fill: open the symbol's position, extend it, or net it down and flip. */
    method AttributeEntry(f: Fill, open: Option<PositionState>) returns (w: Writes)
      requires Valid() && f.intentType.ENTRY?
      requires open.Some? ==>
        open.value.positionId in positions && positions[open.value.positionId] == open.value
      requires OpenOf(View(), f.symbol) == if open.Some? then Some(open.value.AsPos()) else None
      modifies this, positions.Values, store
      ensures Valid()
      ensures View() == old(Attributed(View(), f, w))
      ensures fresh(positions.Values - old(positions.Values))
      ensures store.events == old(store.events) +
        if replaying || w.closing.Threw? then [] else Written(old(Lifecycle(View(), f)), w)
      ensures closeCalls == old(closeCalls) +
        if venue.CoinDcx? && !replaying && !w.closing.Threw? then old(AllocationsOf(View(), f)) else []
      ensures replaying == old(replaying)
      ensures !w.closing.Kept? ==> !replaying && (w.closing.Threw? <==> store.durable) && old(ClosesOut(View(), f))
    {
      hide LedgerModel.CloseFifo, View, CloseEvents, NetEvents, Closing, Total, OpenOf, OpenPosition, ScaleIn,
        ClosesFully, Written;
      w := Writes(true, Kept, true);
      if open.None? {
        var kept := OpenNew(f);
        w := w.(opening := kept);
        WrittenOne(OpenedEvent(f), w);
      } else if open.value.side == f.side {
        Extend(open.value, f);
        WrittenOne(OpenedEvent(f), w);
      } else {
        w := NetThenFlip(open.value, f);
      }
    }

    /** What a fill that is no entry does: it closes the open position, if there is one. */
    lemma ExitCases(s: Ledger, f: Fill)
      requires !f.intentType.ENTRY?
      ensures OpenOf(s, f.symbol).None? ==>
        Lifecycle(s, f) == [] && AllocationsOf(s, f) == [] && !ClosesOut(s, f)
      ensures OpenOf(s, f.symbol).Some? ==>
        var p := OpenOf(s, f.symbol).value;
        Lifecycle(s, f) == CloseEvents(p, f) && AllocationsOf(s, f) == Closing(p, f) &&
        (ClosesOut(s, f) <==> ClosesFully(p, f))
      ensures forall w :: Attributed(s, f, w) == match OpenOf(s, f.symbol)
        case None => s
        case Some(p) => LedgerModel.CloseFifo(s, p, f)
    {
      hide OpenOf, LedgerModel.CloseFifo, Closing, Reduced;
    }

    /** One fill into the position accounting: entries build, everything else closes FIFO. */
    method AttributeFill(f: Fill) returns (w: Writes)
      requires Valid()
      modifies this, positions.Values, store
      ensures Valid()
      ensures View() == old(Attributed(View(), f, w))
      ensures fresh(positions.Values - old(positions.Values))
      ensures store.events == old(store.events) +
        if replaying || w.closing.Threw? then [] else Written(old(Lifecycle(View(), f)), w)
      ensures closeCalls == old(closeCalls) +
        if venue.CoinDcx? && !replaying && !w.closing.Threw? then old(AllocationsOf(View(), f)) else []
      ensures replaying == old(replaying)
      ensures !w.closing.Kept? ==> !replaying && (w.closing.Threw? <==> store.durable) && old(ClosesOut(View(), f))
    {
      hide LedgerModel.CloseFifo, View, CloseEvents, NetEvents, Closing, Total, OpenOf, OpenPosition, ScaleIn,
        Attribute, Lifecycle, AllocationsOf, Written, ClosesOut, Attributed;
      IndexLeadsToOpen(f.symbol);
      var open: Option<PositionState> :=
        if f.symbol in openBySymbol && openBySymbol[f.symbol] in positions
        then Some(positions[openBySymbol[f.symbol]]) else None;
      if f.intentType.ENTRY? {
        w := AttributeEntry(f, open);
      } else {
        ExitCases(View(), f);
        w := Writes(true, Kept, true);
        WrittenOne(OpenedEvent(f), w);
        if open.Some? {
          ghost var was, p := positions, open.value.AsPos();
          var closed, fate := CloseFifo(open.value, f, f.quantity);
          w := w.(closing := fate);
          WrittenClose(p, f, w);
          NothingAdded(was, positions, open.value.positionId);
        }
      }
    }

    lemma NothingAdded(was: map<PosId, PositionState>, now: map<PosId, PositionState>, id: PosId)
      requires now == was || now == was - {id}
      ensures now.Values - was.Values == {}
    {
    }

    /** Fold one payload; an unusable one is ignored. */
    method FoldIn(p: PartialFill) returns (w: Writes)
      requires Valid()
      modifies this, positions.Values, store
      ensures Valid()
      ensures View() == old(LiveLedger(View(), p, w))
      ensures fresh(positions.Values - old(positions.Values))
      ensures store.events == old(store.events) + if replaying then [] else old(LiveEvents(View(), p, w))
      ensures closeCalls == old(closeCalls) + if replaying then [] else old(LiveCalls(View(), p, venue, w))
      ensures replaying == old(replaying)
      ensures w.closing.Threw? <==> old(Throws(View(), p, w))
      ensures !w.closing.Kept? ==> !replaying && (w.closing.Threw? <==> store.durable)
    {
      w := Writes(true, Kept, true);
      if p.price.None? || p.quantity.None? || p.symbol == "" || p.side.None? {
        return;
      }
      var f := Complete(p);
      Note(f);
      hide View, Noted, Attribute, Attributed, Lifecycle, AllocationsOf, Written, ClosesOut;
      w := AttributeFill(f);
    }

    /** Remember the fill (newest 10 000) and raise its decision's counter. */
    method Note(f: Fill)
      modifies `fills, `lastCumulative
      ensures View() == Noted(old(View()), f)
    {
      fills := LastN(fills + [f], FILLS_CAP);
      if f.decisionId != "" && f.cumulative.Some? {
        var last := if f.decisionId in lastCumulative then lastCumulative[f.decisionId] else 0;
        lastCumulative := lastCumulative[f.decisionId := Max(last, f.cumulative.value)];
      }
    }

    /** How much of a decision is counted already. */
    function Counted(decisionId: string): int
      reads `lastCumulative
    {
      if decisionId in lastCumulative then lastCumulative[decisionId] else 0
    }

    /** Record the new quantity of an order; refused when there is none, and cut short by a lost close record. */
    method Record(v: FilledView, at: int) returns (recorded: Recording, w: Writes)
      requires Valid() && !replaying
      modifies this, positions.Values, store
      ensures Valid() && !replaying
      ensures recorded == old(
        if !Accepts(View(), v) then NoNewFill
        else if Throws(View(), AsPayload(DeltaFill(View(), v, at)), w) then NotPersisted
        else Stored(DeltaFill(View(), v, at)))
      ensures recorded.NoNewFill? <==> v.avgFillPrice.None? || v.filledQuantity <= old(Counted(v.intentId))
      ensures recorded.Stored? ==> FillOf(recorded.fill, v, at, v.filledQuantity - old(Counted(v.intentId)))
      ensures World(View(), store.events, closeCalls)
        == Step(old(World(View(), store.events, closeCalls)), RecordCall(v, at, w), venue)
      ensures !w.closing.Kept? ==> (w.closing.Threw? <==> store.durable)
      ensures fresh(positions.Values - old(positions.Values))
      ensures old(Inv(View())) ==> Inv(View())
    {
      w := Writes(true, Kept, true);
      var delta := v.filledQuantity - Counted(v.intentId);
      if delta <= 0 || v.avgFillPrice.None? {
        return NoNewFill, w;
      }
      var f := Fill(at, v.intentId, v.symbol, v.side, v.avgFillPrice.value, delta, Some(v.filledQuantity),
                    v.intentType);
      assert f == DeltaFill(View(), v, at) && Accepts(View(), v) && FillOf(f, v, at, delta);
      hide View, LiveLedger, LiveEvents, LiveCalls, Written, Throws, Accepts, DeltaFill, Valid, FillOf;
      ghost var was := View();
      w := PersistAndFold(AsPayload(f));
      PositivePayloadKeepsInv(was, AsPayload(f), w);
      recorded := if w.closing.Threw? then NotPersisted else Stored(f);
    }

    lemma PositivePayloadKeepsInv(s: Ledger, p: PartialFill, w: Writes)
      requires Usable(p) ==> p.quantity.value > 0
      ensures Inv(s) ==> Inv(LiveLedger(s, p, w))
    {
      hide Inv, Noted, Attribute, LedgerModel.CloseFifo, OpenOf, ClosesFully;
      if Inv(s) && Usable(p) {
        var f := Complete(p);
        LedgerTheorems.NotedKeepsInv(s, f);
        LedgerTheorems.AttributeKeepsInv(Noted(s, f), f);
        if ClosesOut(Noted(s, f), f) {
          LedgerTheorems.CloseKeepsInv(Noted(s, f), OpenOf(Noted(s, f), f.symbol).value, f);
        }
      }
    }

    method PersistAndFold(p: PartialFill) returns (w: Writes)
      requires Valid() && !replaying
      modifies this, positions.Values, store
      ensures Valid() && !replaying
      ensures w.closing.Threw? <==> old(Throws(View(), p, w))
      ensures World(View(), store.events, closeCalls) == old(World(
        LiveLedger(View(), p, w),
        store.events + Written([FillRecorded(p)], w) + LiveEvents(View(), p, w),
        closeCalls + LiveCalls(View(), p, venue, w)))
      ensures !w.closing.Kept? ==> (w.closing.Threw? <==> store.durable)
      ensures fresh(positions.Values - old(positions.Values))
    {
      hide View, LiveLedger, LiveEvents, LiveCalls, Throws, Valid, Written;
      ghost var was := View();
      var fill := store.AppendClassified(FillRecorded(p));
      w := FoldIn(p);
      FillRecordIsSeparate(was, p, venue, w, fill.Kept?);
      w := w.(fill := fill.Kept?);
      WrittenOne(FillRecorded(p), w);
    }

    /** Rebuild from the newest 50 000 events: folds only, no event appended, no callback made. */
    method Hydrate()
      requires Valid() && !replaying
      modifies this, positions.Values, store
      ensures Valid() && !replaying
      ensures View() == Replay(old(View()), LastN(store.events, READ_WINDOW))
      ensures store.events == old(store.events) && closeCalls == old(closeCalls)
      ensures fresh(positions.Values - old(positions.Values))
    {
      hide View, Valid, Replay, LastN, Usable;
      replaying := true;
      var window := store.ReadAll(READ_WINDOW);
      ReplayWindow(window);
      replaying := false;
    }

    method ReplayWindow(window: seq<Event>)
      requires Valid() && replaying
      modifies this, positions.Values, store
      ensures Valid() && replaying
      ensures View() == Replay(old(View()), window)
      ensures fresh(positions.Values - old(positions.Values))
      ensures store.events == old(store.events) && closeCalls == old(closeCalls)
    {
      hide View, FoldEvent, Valid, Usable;
      var i := 0;
      while i < |window|
        invariant 0 <= i <= |window|
        invariant Valid() && replaying
        invariant View() == Replay(old(View()), window[..i])
        invariant store.events == old(store.events) && closeCalls == old(closeCalls)
        invariant fresh(positions.Values - old(positions.Values))
      {
        ReplaySnoc(old(View()), window[..i], window[i]);
        assert window[..i + 1] == window[..i] + [window[i]];
        ReplayEvent(window[i]);
        i := i + 1;
      }
      assert window[..i] == window;
    }

    method ReplayEvent(e: Event)
      requires Valid() && replaying
      modifies this, positions.Values, store
      ensures Valid() && replaying
      ensures View() == FoldEvent(old(View()), e)
      ensures fresh(positions.Values - old(positions.Values))
      ensures store.events == old(store.events) && closeCalls == old(closeCalls)
    {
      if e.FillRecorded? {
        hide View, FoldPayload, LiveEvents, LiveCalls, Valid;
        var w := FoldIn(e.payload);
      }
    }
  }

  /** A new process on the same log: construct, then hydrate. */
  method Boot(store: EventLog, venue: Venue, ghost w: World) returns (ledger: FillsLedger)
    requires w.log == store.events
    modifies store
    ensures fresh(ledger) && ledger.store == store && ledger.venue == venue
    ensures ledger.Valid() && !ledger.replaying && fresh(ledger.positions.Values)
    ensures World(ledger.View(), store.events, w.calls + ledger.closeCalls) == Step(w, Restart, venue)
  {
    ledger := new FillsLedger(store, venue);
    ledger.Hydrate();
  }

  lemma CloseFifoUnfolds(s: Ledger, p: Pos, f: Fill)
    ensures if Reduced(p, f).lots == [] && Closing(p, f) != []
      then
        && LedgerModel.CloseFifo(s, p, f) == Retired(Booked(s, p, f), p.id, p.symbol, Closing(p, f))
        && CloseEvents(p, f) == [PositionClosed(p.id, Reduced(p, f).realized, p.openedAt, f.at, Closing(p, f))]
      else LedgerModel.CloseFifo(s, p, f) == Booked(s, p, f) && CloseEvents(p, f) == []
    ensures ClosesFully(p, f) <==> Reduced(p, f).lots == [] && Closing(p, f) != []
    ensures Reduced(p, f).id == p.id && Reduced(p, f).symbol == p.symbol && Reduced(p, f).openedAt == p.openedAt
  {
  }
}
