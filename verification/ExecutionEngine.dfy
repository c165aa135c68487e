/**
  The execution engine: it owns the tracked orders, writes the audit log, calls the venue and
  folds venue views. Every method is proved to be a run of the protocol machine of
  Lifecycle.dfy, so a crash anywhere inside it is a crash the machine knows.
 */
module ExecutionEngine {
  import opened Prelude
  import opened LedgerModel
  import opened OrderState
  import opened Lifecycle
  import opened EventStore
  import LifecycleTheorems
  import LogScan
  import Slippage

  datatype PlaceRequest = PlaceRequest(
    expectedPrice: Option<real>,
    maxSlippageBps: Option<real>,
    intentType: IntentType
  )

  datatype BrokerOrder = BrokerOrder(
    orderId: string,
    status: OrderStatus,
    filledQuantity: int,
    avgFillPrice: Option<real>
  )

  datatype EngineError =
    | UnknownIntent
    | NotSubmittable
    | StoreUnhealthy
    | Blocked
    | NoExpectedPrice
    | IllegalTransition
    | NotPersisted
    | HookFailed
    | NotCancellable

  /** The part of an order a venue view changes. */
  datatype Core = Core(status: OrderStatus, filled: Slippage.Filled)

  function FilledView(u: BrokerOrder): Slippage.Filled {
    Slippage.Filled(u.filledQuantity, u.avgFillPrice)
  }

  predicate FoldThrows(status: OrderStatus, u: BrokerOrder) {
    status != u.status && !CanTransition(status, u.status)
  }

  /** Folding a venue view: quantity and average are overwritten even when the transition is refused. */
  function FoldCore(c: Core, u: BrokerOrder): Core {
    Core(if FoldThrows(c.status, u) then c.status else u.status, Slippage.FoldView(c.filled, FilledView(u)))
  }

  /** The fold brings new quantity at a known average: what the fills observer is told about. */
  predicate NewFill(f: Slippage.Filled, u: BrokerOrder) {
    u.filledQuantity > f.quantity && Slippage.FoldView(f, FilledView(u)).avg.Some?
  }

  /** The slippage guard's verdict on a fold of an order with (or without) a contract. */
  predicate OutOfBand(f: Slippage.Filled, u: BrokerOrder, side: Side, expected: Option<real>, limitBps: Option<real>) {
    NewFill(f, u) && expected.Some? && limitBps.Some? &&
    Slippage.Flagged(f, FilledView(u), side, expected.value, limitBps.value)
  }

  predicate Cancellable(status: OrderStatus, filledQuantity: int, quantity: int, orderId: Option<string>) {
    filledQuantity < quantity && orderId.Some? &&
    (status == SUBMITTED || status == ACKNOWLEDGED || status == PARTIALLY_FILLED)
  }

  /** These steps neither register nor submit anything. */
  ghost predicate OnlyMovesAndLogs(steps: seq<Step>) {
    forall i :: 0 <= i < |steps| ==> steps[i].Transition? || steps[i].LogOther?
  }

  const BREACH := "execution.slippage_breach"

  /** The steps attempt a record of this kind. */
  ghost predicate Logs(steps: seq<Step>, kind: string) {
    exists i :: 0 <= i < |steps| && steps[i].LogOther? && steps[i].kind == kind
  }

  lemma LogsConcat(a: seq<Step>, b: seq<Step>, kind: string)
    ensures Logs(a + b, kind) <==> Logs(a, kind) || Logs(b, kind)
    ensures !Logs([], kind)
  {
    if Logs(a, kind) {
      var i :| 0 <= i < |a| && a[i].LogOther? && a[i].kind == kind;
      assert (a + b)[i] == a[i];
    }
    if Logs(b, kind) {
      var i :| 0 <= i < |b| && b[i].LogOther? && b[i].kind == kind;
      assert (a + b)[|a| + i] == b[i];
    }
  }

  datatype Verdict = Done | Thrown(error: EngineError)

  /**
    What giving up on a submission does: UNKNOWN when the table allows it, logged, and then the
    record of why; a lost record ends it where it is.
   */
  ghost predicate GaveUp(from: OrderStatus, to: OrderStatus, verdict: Verdict, steps: seq<Step>, durable: bool) {
    if from != UNKNOWN && !CanTransition(from, UNKNOWN) then
      to == from && verdict == Thrown(IllegalTransition) && steps == []
    else
      var moves := if from == UNKNOWN then 0 else 1;
      && to == UNKNOWN && |steps| > 0
      && (moves == 1 ==> steps[0].Transition? && steps[0].to == UNKNOWN)
      && if moves == 1 && steps[0].w.Failed? && durable then |steps| == 1 && verdict == Thrown(NotPersisted)
         else
           && |steps| == moves + 1 && steps[moves].LogOther? && steps[moves].kind == "order.unknown"
           && verdict == if steps[moves].w.Failed? && durable then Thrown(NotPersisted) else Done
  }

  /** The terminal statuses the rebuild filters on; `TerminalSetAgrees` compares it with the edge table. */
  const TERMINAL: set<OrderStatus> := {CLOSED, REJECTED, CANCELLED, EXPIRED}

  lemma TerminalSetAgrees(status: OrderStatus)
    ensures status in TERMINAL <==> IsTerminal(status)
  {
    LogScan.TerminalStates(status);
  }

  class TrackedOrder {
    const intentId: string
    const pair: string
    const symbol: string
    const side: Side
    const quantity: int
    const reservationId: Option<string>
    const registeredAt: int
    var status: OrderStatus
    var orderId: Option<string>
    var filledQuantity: int
    var avgFillPrice: Option<real>
    var updatedAt: int
    var expectedPrice: Option<real>
    var maxSlippageBps: Option<real>
    var breached: bool
    var intentType: IntentType

    constructor (intentId: string, spec: OrderSpec, status: OrderStatus, orderId: Option<string>, registeredAt: int,
                 now: int)
      ensures this.intentId == intentId
      ensures this.pair == spec.pair && this.symbol == spec.symbol && this.side == spec.side
      ensures this.quantity == spec.quantity && this.reservationId == spec.reservationId
      ensures this.status == status && this.orderId == orderId && this.registeredAt == registeredAt && updatedAt == now
      ensures filledQuantity == 0 && avgFillPrice == None && expectedPrice == None && maxSlippageBps == None
      ensures !breached && intentType == ENTRY
    {
      this.intentId, this.pair, this.symbol, this.side := intentId, spec.pair, spec.symbol, spec.side;
      this.quantity, this.reservationId := spec.quantity, spec.reservationId;
      this.status, this.orderId, this.registeredAt, updatedAt := status, orderId, registeredAt, now;
      filledQuantity, avgFillPrice, expectedPrice, maxSlippageBps := 0, None, None, None;
      breached, intentType := false, ENTRY;
    }

    /** As a rebuild from the log leaves it. */
    ghost predicate Rebuilt(h: LogScan.HydratedOrder)
      reads `status, `orderId, `filledQuantity, `avgFillPrice, `expectedPrice, `maxSlippageBps, `breached, `intentType
    {
      && status == h.status && orderId == h.orderId && filledQuantity == 0 && avgFillPrice == None
      && registeredAt == h.registeredAt && Specified(h.spec) && Bare()
    }

    ghost predicate Specified(spec: OrderSpec) {
      && pair == spec.pair && symbol == spec.symbol && side == spec.side && quantity == spec.quantity
      && reservationId == spec.reservationId
    }

    /** No price contract, and an entry: a new order before `submit`, or any order after a restart. */
    ghost predicate Bare()
      reads `expectedPrice, `maxSlippageBps, `breached, `intentType
    {
      expectedPrice == None && maxSlippageBps == None && !breached && intentType == ENTRY
    }

    /** What slippage checking reads. */
    ghost function Filled(): Slippage.Filled
      reads `filledQuantity, `avgFillPrice
    {
      Slippage.Filled(filledQuantity, avgFillPrice)
    }
  }

  /** One call of the fills observer: the order, its cumulative quantity and average at that moment. */
  datatype HookCall = HookCall(intentId: string, filledQuantity: int, avgFillPrice: real)

  class ExecutionEngine {
    const store: EventStore
    const journal: Journal
    var orders: map<string, TrackedOrder>
    var cancelRequested: set<string>
    /** Cancel requests the slippage guard has sent to the venue, in order. */
    var remainderCancels: seq<string>
    var hookCalls: seq<HookCall>
    /** Did the fills observer throw when it was last called? */
    ghost var hookThrew: bool
    /** Submissions past their durable transition and not yet handed to the venue. */
    ghost var cleared: set<string>

    ghost predicate Valid()
      reads `orders, `cancelRequested, `remainderCancels
    {
      && journal == store.journal
      && (forall id :: id in orders ==> orders[id].intentId == id)
      && (forall id :: id in remainderCancels ==> id in cancelRequested)
      && (forall i, j :: 0 <= i < j < |remainderCancels| ==> remainderCancels[i] != remainderCancels[j])
    }

    ghost function Statuses(): map<string, OrderStatus>
      reads `orders, orders.Values`status
    {
      map id | id in orders :: orders[id].status
    }

    /** The engine and its surroundings as a state of the protocol machine. */
    ghost function View(): Sys
      reads `orders, `cleared, orders.Values`status, store`file, store`healthy, journal`trace
    {
      Sys(Statuses(), cleared, store.file, store.healthy, journal.trace)
    }

    constructor (store: EventStore)
      ensures this.store == store && this.journal == store.journal
      ensures Valid() && orders == map[] && cleared == {} && hookCalls == [] && remainderCancels == []
      ensures Statuses() == map[]
    {
      this.store, this.journal := store, store.journal;
      orders, cancelRequested, remainderCancels, hookCalls, cleared := map[], {}, [], [], {};
    }

    /** Mark an intent risk-approved: in memory first, then on the log. */
    method RegisterApproved(id: string, spec: OrderSpec, now: int)
      returns (tracked: TrackedOrder, verdict: Verdict, ghost steps: seq<Step>)
      requires Valid()
      modifies `orders, store, journal
      ensures Valid()
      ensures fresh(tracked) && orders == old(orders)[id := tracked]
      ensures tracked.intentId == id && tracked.status == RISK_APPROVED && tracked.Specified(spec) && tracked.Bare()
      ensures tracked.filledQuantity == 0 && tracked.avgFillPrice == None && tracked.orderId == None
      ensures |steps| == 1 && steps[0].Register? && steps[0].id == id && steps[0].spec == spec
      ensures IsRun(old(View()), steps, store.durable, View())
      ensures verdict == if steps[0].w.Failed? && store.durable then Thrown(NotPersisted) else Done
    {
      hide Appended, IsRun, Next, Enabled;
      tracked := new TrackedOrder(id, spec, RISK_APPROVED, None, now, now);
      orders := orders[id := tracked];
      ghost var s := old(View());
      assert Statuses() == s.orders[id := RISK_APPROVED];
      hide Statuses;
      journal.trace := journal.trace + [RegisterCall(id)];
      var thrown;
      ghost var w;
      thrown, w := store.AppendCritical(OrderRegistered(id, spec, now));
      verdict := if thrown then Thrown(NotPersisted) else Done;
      steps := [Register(id, spec, now, w)];
      LifecycleTheorems.RegisterStep(s, id, spec, now, w, store.durable, View());
    }

    /** Setting one order's status changes that entry of the machine's map, and no other. */
    method SetStatus(tracked: TrackedOrder, to: OrderStatus, now: int)
      requires Valid() && tracked.intentId in orders && orders[tracked.intentId] == tracked
      modifies tracked`status, tracked`updatedAt
      ensures tracked.status == to && tracked.updatedAt == now
      ensures Statuses() == old(Statuses())[tracked.intentId := to]
    {
      ghost var was := Statuses();
      tracked.status, tracked.updatedAt := to, now;
      assert forall id :: id in orders && id != tracked.intentId ==> orders[id].status == was[id];
    }

    /** `transition`: refuse an edge the table does not have, otherwise move and log old and new status. */
    method Move(tracked: TrackedOrder, to: OrderStatus, now: int) returns (verdict: Verdict, ghost steps: seq<Step>)
      requires Valid() && tracked.intentId in orders && orders[tracked.intentId] == tracked
      modifies tracked`status, tracked`updatedAt, store, journal
      ensures IsRun(old(View()), steps, store.durable, View())
      ensures steps == [] <==> old(tracked.status) == to || !CanTransition(old(tracked.status), to)
      ensures steps == [] ==> tracked.status == old(tracked.status) && tracked.updatedAt == old(tracked.updatedAt)
      ensures steps == [] ==> verdict == if old(tracked.status) == to then Done else Thrown(IllegalTransition)
      ensures steps != [] ==>
        && |steps| == 1 && steps[0].Transition? && steps[0].id == tracked.intentId && steps[0].to == to
        && tracked.status == to && tracked.updatedAt == now
        && verdict == if steps[0].w.Failed? && store.durable then Thrown(NotPersisted) else Done
      ensures Statuses() == old(Statuses())[tracked.intentId := tracked.status]
    {
      steps := [];
      var from := tracked.status;
      if from == to {
        return Done, [];
      }
      if !CanTransition(from, to) {
        return Thrown(IllegalTransition), [];
      }
      ghost var s := View();
      hide Appended, CanTransition, Allowed, IsTerminal, Statuses, IsRun, Next, Enabled;
      SetStatus(tracked, to, now);
      var thrown;
      ghost var w;
      thrown, w := store.AppendCritical(OrderTransition(tracked.intentId, from, to, tracked.orderId));
      verdict := if thrown then Thrown(NotPersisted) else Done;
      steps := [Transition(tracked.intentId, to, tracked.orderId, w)];
      LifecycleTheorems.TransitionStep(s, tracked.intentId, to, tracked.orderId, w, store.durable, View());
    }

    /** Ask the venue to cancel what is left after a breach, at most once per intent. */
    method CancelRemainder(tracked: TrackedOrder)
      requires Valid()
      modifies `cancelRequested, `remainderCancels
      ensures Valid()
      ensures remainderCancels == old(remainderCancels) +
        if Cancellable(tracked.status, tracked.filledQuantity, tracked.quantity, tracked.orderId)
           && tracked.intentId !in old(cancelRequested) then [tracked.intentId] else []
      ensures remainderCancels != old(remainderCancels) <==>
        && tracked.filledQuantity < tracked.quantity && tracked.orderId.Some?
        && tracked.status in {SUBMITTED, ACKNOWLEDGED, PARTIALLY_FILLED}
        && tracked.intentId !in old(cancelRequested)
      ensures cancelRequested >= old(cancelRequested)
    {
      var cancellable := Cancellable(tracked.status, tracked.filledQuantity, tracked.quantity, tracked.orderId);
      if !cancellable || tracked.intentId in cancelRequested {
        return;
      }
      cancelRequested := cancelRequested + {tracked.intentId};
      remainderCancels := remainderCancels + [tracked.intentId];
    }

    /** Log the breach; unless that throws, stop the remainder. */
    method RecordBreach(tracked: TrackedOrder) returns (verdict: Verdict, ghost steps: seq<Step>)
      requires Valid()
      modifies `cancelRequested, `remainderCancels, tracked`breached, store, journal
      ensures Valid()
      ensures IsRun(old(View()), steps, store.durable, View())
      ensures Statuses() == old(Statuses())
      ensures tracked.breached
      ensures |steps| == 1 && steps[0].LogOther? && steps[0].kind == BREACH
      ensures verdict == if steps[0].w.Failed? && store.durable then Thrown(NotPersisted) else Done
      ensures remainderCancels == old(remainderCancels) +
        if verdict.Done? && Cancellable(tracked.status, tracked.filledQuantity, tracked.quantity, tracked.orderId)
           && tracked.intentId !in old(cancelRequested) then [tracked.intentId] else []
    {
      hide Appended, IsRun, Next, Enabled, Statuses;
      ghost var s := View();
      tracked.breached := true;
      var thrown;
      ghost var w;
      thrown, w := store.AppendCritical(Other(BREACH));
      steps := [LogOther(BREACH, w)];
      LifecycleTheorems.LogOtherStep(s, BREACH, w, store.durable, View());
      if thrown {
        return Thrown(NotPersisted), steps;
      }
      CancelRemainder(tracked);
      verdict := Done;
    }

    /** Check the newest delta against the contract; a breach is logged and stops the remainder. */
    method EnforceSlippage(tracked: TrackedOrder, prev: Slippage.Filled, ghost u: BrokerOrder)
      returns (verdict: Verdict, ghost steps: seq<Step>)
      requires Valid() && NewFill(prev, u)
      requires tracked.filledQuantity == u.filledQuantity
      requires tracked.avgFillPrice == Slippage.FoldView(prev, FilledView(u)).avg
      modifies `cancelRequested, `remainderCancels, tracked`breached, store, journal
      ensures Valid()
      ensures IsRun(old(View()), steps, store.durable, View())
      ensures Statuses() == old(Statuses())
      ensures var flagged := OutOfBand(prev, u, tracked.side, tracked.expectedPrice, tracked.maxSlippageBps);
        && tracked.breached == (old(tracked.breached) || flagged)
        && (!flagged ==> verdict.Done? && steps == [])
        && (flagged ==> |steps| == 1 && steps[0].LogOther? && steps[0].kind == BREACH)
        && (flagged ==> verdict == if steps[0].w.Failed? && store.durable then Thrown(NotPersisted) else Done)
        && remainderCancels == old(remainderCancels) +
             if flagged && verdict.Done?
                && Cancellable(tracked.status, tracked.filledQuantity, tracked.quantity, tracked.orderId)
                && tracked.intentId !in old(cancelRequested) then [tracked.intentId] else []
    {
      verdict, steps := Done, [];
      EmptyRun(View(), store.durable, View());
      if tracked.maxSlippageBps.None? || tracked.expectedPrice.None? {
        return;
      }
      var marginal := Slippage.MarginalFillPrice(prev.quantity, prev.avg, tracked.filledQuantity,
                                                  tracked.avgFillPrice.value);
      if marginal.None? || marginal.value <= 0.0 {
        return;
      }
      if !Slippage.BreachesBand(tracked.side, marginal.value, tracked.expectedPrice.value,
                                   tracked.maxSlippageBps.value) {
        return;
      }
      hide View, Statuses, IsRun;
      verdict, steps := RecordBreach(tracked);
    }

    /** Overwrite what the view carries; the status is left to `Move`. */
    method TakeView(tracked: TrackedOrder, u: BrokerOrder)
      modifies tracked`orderId, tracked`filledQuantity, tracked`avgFillPrice
      ensures tracked.orderId == Some(u.orderId)
      ensures tracked.Filled() == Slippage.FoldView(old(tracked.Filled()), FilledView(u))
      ensures Statuses() == old(Statuses())
    {
      hide Statuses;
      tracked.orderId := Some(u.orderId);
      tracked.filledQuantity := u.filledQuantity;
      if u.avgFillPrice.Some? {
        tracked.avgFillPrice := u.avgFillPrice;
      }
    }

    /** Tell the fills observer about a new quantity; the observer may throw. */
    method FireHook(tracked: TrackedOrder) returns (ok: bool)
      requires tracked.avgFillPrice.Some?
      modifies `hookCalls, `hookThrew
      ensures hookCalls == old(hookCalls)
        + [HookCall(tracked.intentId, tracked.filledQuantity, tracked.avgFillPrice.value)]
      ensures ok <==> !hookThrew
    {
      hookCalls := hookCalls + [HookCall(tracked.intentId, tracked.filledQuantity, tracked.avgFillPrice.value)];
      ok := *;
      hookThrew := !ok;
    }

    /** The cancel requests a fold sends: one for a flagged fold of a cancellable order not asked about before. */
    ghost function CancelsFor(f: Slippage.Filled, u: BrokerOrder, tracked: TrackedOrder): seq<string>
      reads `cancelRequested, tracked`status, tracked`expectedPrice, tracked`maxSlippageBps
    {
      if OutOfBand(f, u, tracked.side, tracked.expectedPrice, tracked.maxSlippageBps)
         && Cancellable(tracked.status, u.filledQuantity, tracked.quantity, Some(u.orderId))
         && tracked.intentId !in cancelRequested
      then [tracked.intentId] else []
    }

    /** A new quantity has been folded: check it, then tell the observer. */
    method ObserveFill(tracked: TrackedOrder, prev: Slippage.Filled, ghost u: BrokerOrder)
      returns (verdict: Verdict, ghost steps: seq<Step>)
      requires Valid() && NewFill(prev, u)
      requires tracked.Filled() == Slippage.FoldView(prev, FilledView(u)) && tracked.orderId == Some(u.orderId)
      modifies `cancelRequested, `remainderCancels, `hookCalls, `hookThrew, tracked`breached, store, journal
      ensures Valid()
      ensures IsRun(old(View()), steps, store.durable, View())
      ensures OnlyMovesAndLogs(steps)
      ensures Statuses() == old(Statuses())
      ensures verdict.Done? || verdict == Thrown(HookFailed) || verdict == Thrown(NotPersisted)
      ensures var flagged := OutOfBand(prev, u, tracked.side, tracked.expectedPrice, tracked.maxSlippageBps);
        && (Logs(steps, BREACH) <==> flagged) && tracked.breached == (old(tracked.breached) || flagged)
        && (verdict == Thrown(NotPersisted) ==> flagged)
      ensures verdict != Thrown(NotPersisted) ==> (verdict == Thrown(HookFailed) <==> hookThrew)
      ensures hookCalls == old(hookCalls) + if verdict == Thrown(NotPersisted) then []
        else [HookCall(tracked.intentId, tracked.filledQuantity, tracked.avgFillPrice.value)]
      ensures remainderCancels == old(remainderCancels) +
        if verdict == Thrown(NotPersisted) then [] else old(CancelsFor(prev, u, tracked))
    {
      verdict, steps := EnforceSlippage(tracked, prev, u);
      if verdict.Done? {
        var ok := FireHook(tracked);
        if !ok {
          verdict := Thrown(HookFailed);
        }
      }
    }

    method Touch(tracked: TrackedOrder, now: int)
      modifies tracked`updatedAt
      ensures tracked.updatedAt == now && Statuses() == old(Statuses())
    {
      hide Statuses;
      tracked.updatedAt := now;
    }

    /** The first half of a fold: overwrite, then move; a refused move throws after the overwrite. */
    method TakeAndMove(tracked: TrackedOrder, u: BrokerOrder, now: int)
      returns (verdict: Verdict, ghost steps: seq<Step>)
      requires Valid() && tracked.intentId in orders && orders[tracked.intentId] == tracked
      modifies tracked`orderId, tracked`filledQuantity, tracked`avgFillPrice, tracked`status, tracked`updatedAt,
        store, journal
      ensures IsRun(old(View()), steps, store.durable, View())
      ensures OnlyMovesAndLogs(steps)
      ensures Core(tracked.status, tracked.Filled()) == FoldCore(old(Core(tracked.status, tracked.Filled())), u)
      ensures tracked.orderId == Some(u.orderId)
      ensures Statuses() == old(Statuses())[tracked.intentId := tracked.status]
      ensures verdict == Thrown(IllegalTransition) <==> FoldThrows(old(tracked.status), u)
      ensures verdict.Done? || verdict == Thrown(NotPersisted) || verdict == Thrown(IllegalTransition)
      ensures verdict == Thrown(IllegalTransition) ==> steps == []
      ensures verdict == Thrown(NotPersisted) ==> old(tracked.status) != u.status
      ensures !Logs(steps, BREACH)
      ensures tracked.updatedAt == if FoldThrows(old(tracked.status), u) then old(tracked.updatedAt) else now
    {
      hide CanTransition, Allowed, IsTerminal, IsRun, Statuses;
      ghost var s := View();
      TakeView(tracked, u);
      assert View() == s;
      verdict, steps := Move(tracked, u.status, now);
      if verdict.Thrown? {
        return;
      }
      Touch(tracked, now);
    }

    /** Fold a venue view: overwrite, move, check slippage, tell the observer, in that order. */
    method ApplyBrokerUpdate(tracked: TrackedOrder, u: BrokerOrder, now: int)
      returns (verdict: Verdict, ghost steps: seq<Step>)
      requires Valid() && tracked.intentId in orders && orders[tracked.intentId] == tracked
      modifies `cancelRequested, `remainderCancels, `hookCalls, `hookThrew, tracked, store, journal
      ensures Valid()
      ensures IsRun(old(View()), steps, store.durable, View())
      ensures OnlyMovesAndLogs(steps)
      ensures Core(tracked.status, tracked.Filled()) == FoldCore(old(Core(tracked.status, tracked.Filled())), u)
      ensures tracked.orderId == Some(u.orderId)
      ensures Statuses() == old(Statuses())[tracked.intentId := tracked.status]
      ensures verdict == Thrown(IllegalTransition) <==> FoldThrows(old(tracked.status), u)
      ensures verdict.Done? || verdict.error in {HookFailed, NotPersisted, IllegalTransition}
      ensures hookCalls == old(hookCalls) +
        (if old(NewFill(tracked.Filled(), u)) && (verdict.Done? || verdict == Thrown(HookFailed))
         then [HookCall(tracked.intentId, tracked.filledQuantity, tracked.avgFillPrice.value)] else [])
      ensures verdict == Thrown(HookFailed) ==> old(NewFill(tracked.Filled(), u)) && hookThrew
      ensures verdict.Done? && old(NewFill(tracked.Filled(), u)) ==> !hookThrew
      ensures verdict == Thrown(NotPersisted) ==> old(tracked.status) != u.status || old(NewFill(tracked.Filled(), u))
      ensures verdict == Thrown(IllegalTransition) ==> steps == []
      ensures remainderCancels == old(remainderCancels) +
          (if (verdict.Done? || verdict == Thrown(HookFailed))
            && old(OutOfBand(tracked.Filled(), u, tracked.side, tracked.expectedPrice, tracked.maxSlippageBps))
              && Cancellable(tracked.status, u.filledQuantity, tracked.quantity, Some(u.orderId))
              && tracked.intentId !in old(cancelRequested) then [tracked.intentId] else [])
      ensures Logs(steps, BREACH) ==>
        old(OutOfBand(tracked.Filled(), u, tracked.side, tracked.expectedPrice, tracked.maxSlippageBps))
      ensures verdict.Done? || verdict == Thrown(HookFailed) ==>
        (Logs(steps, BREACH) <==>
         old(OutOfBand(tracked.Filled(), u, tracked.side, tracked.expectedPrice, tracked.maxSlippageBps)))
      ensures tracked.breached == (old(tracked.breached) || Logs(steps, BREACH))
      ensures tracked.expectedPrice == old(tracked.expectedPrice)
      ensures tracked.maxSlippageBps == old(tracked.maxSlippageBps) && tracked.intentType == old(tracked.intentType)
      ensures tracked.updatedAt == if FoldThrows(old(tracked.status), u) then old(tracked.updatedAt) else now
    {
      hide CanTransition, Allowed, IsTerminal, IsRun, Statuses, Cancellable, FoldThrows, Logs;
      ghost var s := View();
      var prev := Slippage.Filled(tracked.filledQuantity, tracked.avgFillPrice);
      verdict, steps := TakeAndMove(tracked, u, now);
      if verdict.Thrown? {
        return;
      }
      if tracked.filledQuantity > prev.quantity && tracked.avgFillPrice.Some? {
        ghost var m, first := View(), steps;
        ghost var second;
        verdict, second := ObserveFill(tracked, prev, u);
        LifecycleTheorems.RunConcat(s, first, m, second, View(), store.durable);
        LogsConcat(first, second, BREACH);
        steps := first + second;
      }
    }

    /** The checks of `submit` before anything is changed; a blocked submission leaves a log record. */
    method AssertSubmittable(tracked: TrackedOrder, blocked: bool) returns (verdict: Verdict, ghost steps: seq<Step>)
      requires Valid()
      modifies store, journal
      ensures IsRun(old(View()), steps, store.durable, View())
      ensures verdict.Done? <==> tracked.status == RISK_APPROVED && old(store.healthy) && !blocked
      ensures verdict.Done? ==> steps == []
      ensures |steps| <= 1 && (steps != [] ==> steps[0].LogOther? && steps[0].kind == "order.blocked")
      ensures Statuses() == old(Statuses())
    {
      steps := [];
      if tracked.status != RISK_APPROVED {
        return Thrown(NotSubmittable), [];
      }
      if !store.healthy {
        return Thrown(StoreUnhealthy), [];
      }
      if blocked {
        ghost var s := View();
        hide Statuses;
        ghost var w := store.Append(Other("order.blocked"));
        steps := [LogOther("order.blocked", w)];
        LifecycleTheorems.LogOtherStep(s, "order.blocked", w, store.durable, View());
        return Thrown(Blocked), steps;
      }
      verdict := Done;
    }

    method SetContract(tracked: TrackedOrder, req: PlaceRequest)
      modifies tracked`expectedPrice, tracked`maxSlippageBps, tracked`intentType
      ensures tracked.expectedPrice == req.expectedPrice && tracked.maxSlippageBps == req.maxSlippageBps
      ensures tracked.intentType == req.intentType
      ensures Statuses() == old(Statuses())
    {
      hide Statuses;
      tracked.expectedPrice, tracked.maxSlippageBps, tracked.intentType := req.expectedPrice, req.maxSlippageBps,
        req.intentType;
    }

    /** The durable transition to SUBMITTING; only when it holds is the submission cleared for the venue. */
    method StartSubmitting(tracked: TrackedOrder, now: int) returns (verdict: Verdict, ghost step: Step)
      requires Valid() && tracked.intentId in orders && orders[tracked.intentId] == tracked
      requires tracked.status == RISK_APPROVED && store.healthy
      modifies `cleared, tracked`status, tracked`updatedAt, store, journal
      ensures step.BeginSubmit? && step.id == tracked.intentId
      ensures IsRun(old(View()), [step], store.durable, View())
      ensures tracked.status == SUBMITTING
      ensures verdict == if step.w.Failed? && store.durable then Thrown(NotPersisted) else Done
      ensures cleared == old(cleared) + if verdict.Done? then {tracked.intentId} else {}
    {
      hide Appended, IsRun, Next, Enabled;
      ghost var s := View();
      assert s.orders[tracked.intentId] == RISK_APPROVED;
      hide Statuses;
      SetStatus(tracked, SUBMITTING, now);
      var thrown;
      ghost var w;
      thrown, w := store.AppendCritical(OrderTransition(tracked.intentId, RISK_APPROVED, SUBMITTING, tracked.orderId));
      step := Step.BeginSubmit(tracked.intentId, tracked.orderId, w);
      verdict := if thrown then Thrown(NotPersisted) else Done;
      if !thrown {
        cleared := cleared + {tracked.intentId};
      }
      LifecycleTheorems.BeginSubmitStep(s, tracked.intentId, tracked.orderId, w, store.durable, View());
    }

    method LogSubmissionIntent(id: string) returns (ghost step: Step)
      requires Valid() && id in cleared
      modifies store, journal
      ensures step.LogIntent? && step.id == id
      ensures IsRun(old(View()), [step], store.durable, View())
    {
      hide Appended, Statuses, IsRun, Next, Enabled;
      ghost var s := View();
      ghost var w := store.Append(SubmissionIntent(id));
      step := LogIntent(id, w);
      LifecycleTheorems.LogIntentStep(s, id, w, store.durable, View());
    }

    /** The call that reaches the venue. */
    method PlaceOrder(id: string) returns (ghost step: Step)
      requires Valid() && id in cleared
      modifies `cleared, journal
      ensures step == Place(id)
      ensures IsRun(old(View()), [step], store.durable, View())
      ensures journal.trace == old(journal.trace) + [Placed(id)]
    {
      hide Appended, Statuses, IsRun, Next, Enabled;
      ghost var s := View();
      cleared := cleared - {id};
      journal.trace := journal.trace + [Placed(id)];
      step := Place(id);
      LifecycleTheorems.PlaceStep(s, id, store.durable, View());
    }

    /** Durable transition, intent record, venue call: in that order, stopping at a lost transition. */
    method SendToVenue(tracked: TrackedOrder, now: int) returns (verdict: Verdict, ghost steps: seq<Step>)
      requires Valid() && tracked.intentId in orders && orders[tracked.intentId] == tracked
      requires tracked.status == RISK_APPROVED && store.healthy
      modifies `cleared, tracked`status, tracked`updatedAt, store, journal
      ensures IsRun(old(View()), steps, store.durable, View())
      ensures tracked.status == SUBMITTING
      ensures |steps| >= 1 && steps[0].BeginSubmit? && steps[0].id == tracked.intentId
      ensures verdict == if steps[0].w.Failed? && store.durable then Thrown(NotPersisted) else Done
      ensures verdict.Thrown? ==> |steps| == 1
      ensures verdict.Done? ==> |steps| == 3 && steps[1].LogIntent? && steps[2] == Place(tracked.intentId)
    {
      hide View, IsRun, Valid;
      ghost var s := View();
      ghost var first;
      verdict, first := StartSubmitting(tracked, now);
      steps := [first];
      if verdict.Done? {
        ghost var m1 := View();
        ghost var second := LogSubmissionIntent(tracked.intentId);
        ghost var m2 := View();
        ghost var third := PlaceOrder(tracked.intentId);
        LifecycleTheorems.RunConcat(s, [first], m1, [second], m2, store.durable);
        LifecycleTheorems.RunConcat(s, [first] + [second], m2, [third], View(), store.durable);
        steps := [first] + [second] + [third];
      }
    }

    /**
      `submit` up to the venue call: checks, contract, durable transition, intent record, call.
      The answer arrives later and is handled by `FinishSubmit`.
     */
    method BeginSubmit(id: string, req: PlaceRequest, blocked: bool, now: int)
      returns (verdict: Verdict, ghost steps: seq<Step>)
      requires Valid()
      modifies `cleared, if id in orders then {orders[id]} else {}, store, journal
      ensures Valid()
      ensures IsRun(old(View()), steps, store.durable, View())
      ensures id in orders ==>
        orders[id].Filled() == old(orders[id].Filled()) && orders[id].breached == old(orders[id].breached)
      ensures !Logs(steps, BREACH)
      ensures id !in orders ==> verdict == Thrown(UnknownIntent) && steps == []
      ensures verdict.Done? ==>
        id in orders && old(orders[id].status) == RISK_APPROVED && old(store.healthy) && !blocked
      ensures verdict.Done? ==> req.maxSlippageBps.Some? ==> req.expectedPrice.Some?
      ensures verdict.Done? ==>
        && orders[id].status == SUBMITTING && orders[id].expectedPrice == req.expectedPrice
        && orders[id].maxSlippageBps == req.maxSlippageBps && orders[id].intentType == req.intentType
      ensures verdict.Done? <==> steps != [] && steps[|steps| - 1] == Place(id)
      ensures verdict.Done? <==> Place(id) in steps
      ensures id in orders ==>
        var ready := old(orders[id].status) == RISK_APPROVED && old(store.healthy) && !blocked;
        var priced := req.maxSlippageBps.Some? ==> req.expectedPrice.Some?;
        && (ready && priced ==> steps != [] && steps[0].BeginSubmit? && steps[0].id == id)
        && (ready && priced ==> verdict == if steps[0].w.Failed? && store.durable then Thrown(NotPersisted) else Done)
        && (ready && !priced ==> verdict == Thrown(NoExpectedPrice) && steps == [])
    {
      hide Statuses, IsRun;
      steps := [];
      EmptyRun(View(), store.durable, View());
      if id !in orders {
        return Thrown(UnknownIntent), [];
      }
      var tracked := orders[id];
      ghost var s := View();
      verdict, steps := AssertSubmittable(tracked, blocked);
      if verdict.Thrown? {
        return;
      }
      EmptyRun(s, store.durable, View());
      if req.maxSlippageBps.Some? && req.expectedPrice.None? {
        return Thrown(NoExpectedPrice), [];
      }
      SetContract(tracked, req);
      assert View() == s;
      verdict, steps := SendToVenue(tracked, now);
    }

    lemma {:induction false} EmptyRun(s: Sys, durable: bool, t: Sys)
      ensures IsRun(s, [], durable, t) <==> s == t
    {
    }

    /**
      `submit` after the venue answered, or failed to within the timeout (None): fold the answer;
      anything thrown on the way, `folded`, turns the order UNKNOWN for the reconciler.
     */
    method FinishSubmit(tracked: TrackedOrder, answer: Option<BrokerOrder>, now: int)
      returns (verdict: Verdict, ghost steps: seq<Step>, ghost folded: Verdict, ghost gaveUp: seq<Step>)
      requires Valid() && tracked.intentId in orders && orders[tracked.intentId] == tracked
      modifies `cancelRequested, `remainderCancels, `hookCalls, `hookThrew, tracked, store, journal
      ensures Valid()
      ensures IsRun(old(View()), steps, store.durable, View())
      ensures OnlyMovesAndLogs(steps)
      ensures answer.None? ==>
        && hookCalls == old(hookCalls) && tracked.Filled() == old(tracked.Filled())
        && remainderCancels == old(remainderCancels) && !Logs(steps, BREACH) && folded.Done?
        && GaveUp(old(tracked.status), tracked.status, verdict, gaveUp, store.durable)
      ensures answer.Some? ==>
        && (folded.Done? || folded == Thrown(HookFailed) ==>
              (Logs(steps, BREACH) <==>
               old(OutOfBand(tracked.Filled(), answer.value, tracked.side, tracked.expectedPrice,
                             tracked.maxSlippageBps))))
        && remainderCancels == old(remainderCancels) +
             (if (folded.Done? || folded == Thrown(HookFailed)) && Logs(steps, BREACH)
                 && Cancellable(answer.value.status, answer.value.filledQuantity, tracked.quantity,
                                Some(answer.value.orderId))
                 && tracked.intentId !in old(cancelRequested) then [tracked.intentId] else [])
        && (folded.Done? || folded.error in {HookFailed, NotPersisted, IllegalTransition})
        && (tracked.breached <==> old(tracked.breached) || Logs(steps, BREACH))
      ensures answer.Some? ==>
        && tracked.Filled() == Slippage.FoldView(old(tracked.Filled()), FilledView(answer.value))
        && (folded == Thrown(IllegalTransition) <==> FoldThrows(old(tracked.status), answer.value))
        && hookCalls == old(hookCalls) +
             (if old(NewFill(tracked.Filled(), answer.value)) && (folded.Done? || folded == Thrown(HookFailed))
              then [HookCall(tracked.intentId, tracked.filledQuantity, tracked.avgFillPrice.value)] else [])
        && if folded.Done? then verdict.Done? && tracked.status == answer.value.status
           else GaveUp(FoldCore(old(Core(tracked.status, tracked.Filled())), answer.value).status,
                       tracked.status, verdict, gaveUp, store.durable)
    {
      hide View, IsRun, CanTransition, Allowed, IsTerminal, Slippage.FoldView, GaveUp, Logs, Cancellable, OutOfBand;
      ghost var s := View();
      steps, folded, gaveUp := [], Done, [];
      EmptyRun(s, store.durable, s);
      if answer.Some? {
        verdict, steps := ApplyBrokerUpdate(tracked, answer.value, now);
        folded := verdict;
        if verdict.Done? {
          return;
        }
      }
      ghost var m, first := View(), steps;
      verdict, gaveUp := GiveUp(tracked, now);
      LifecycleTheorems.RunConcat(s, first, m, gaveUp, View(), store.durable);
      LogsConcat(first, gaveUp, BREACH);
      steps := first + gaveUp;
    }

    /** What `submit` promises for an answer that was folded, in terms of the request and the answer alone. */
    twostate predicate Enforces(tracked: TrackedOrder, req: PlaceRequest, u: BrokerOrder, steps: seq<Step>)
      reads `remainderCancels, tracked`breached
    {
      var breach := req.expectedPrice.Some? && req.maxSlippageBps.Some? &&
        Slippage.OutsideBand(old(tracked.Filled()), FilledView(u), tracked.side, req.expectedPrice.value,
                             req.maxSlippageBps.value);
      && (Logs(steps, BREACH) <==> breach) && tracked.breached == (old(tracked.breached) || breach)
      && remainderCancels == old(remainderCancels) +
           (if breach && u.filledQuantity < tracked.quantity && u.status in {SUBMITTED, ACKNOWLEDGED, PARTIALLY_FILLED}
               && tracked.intentId !in old(cancelRequested) then [tracked.intentId] else [])
    }

    /**
      `submit` as a whole, when nothing comes between the venue call and its answer: the order that
      was placed is held to the price and the tolerance of its own request, on both sides.
     */
    method Submit(id: string, req: PlaceRequest, blocked: bool, answer: Option<BrokerOrder>, now: int, answered: int)
      returns (verdict: Verdict, ghost placed: bool, ghost folded: Verdict, ghost steps: seq<Step>)
      requires Valid()
      modifies `cleared, `cancelRequested, `remainderCancels, `hookCalls, `hookThrew, store, journal
      modifies if id in orders then {orders[id]} else {}
      ensures Valid()
      ensures IsRun(old(View()), steps, store.durable, View())
      ensures placed <==> Place(id) in steps
      ensures placed ==> id in orders && old(orders[id].status) == RISK_APPROVED && old(store.healthy) && !blocked
      ensures !placed ==> verdict.Thrown? && hookCalls == old(hookCalls) && remainderCancels == old(remainderCancels)
      ensures placed && answer.None? ==>
        && hookCalls == old(hookCalls) && remainderCancels == old(remainderCancels)
        && orders[id].Filled() == old(orders[id].Filled()) && (verdict.Done? ==> orders[id].status == UNKNOWN)
      ensures placed && answer.Some? ==>
        && (folded != Thrown(IllegalTransition) <==>
            answer.value.status in {SUBMITTING, SUBMITTED, UNKNOWN, REJECTED, FILLED, PARTIALLY_FILLED})
        && (folded.Done? || folded == Thrown(HookFailed) ==> Enforces(orders[id], req, answer.value, steps))
        && (folded.Done? ==> verdict.Done? && orders[id].status == answer.value.status)
        && (folded.Done? || folded.error in {HookFailed, NotPersisted, IllegalTransition})
        && (folded.Thrown? && verdict.Done? ==> orders[id].status == UNKNOWN)
        && hookCalls == old(hookCalls) +
             (if old(NewFill(orders[id].Filled(), answer.value)) && (folded.Done? || folded == Thrown(HookFailed))
              then [HookCall(id, answer.value.filledQuantity,
                             Slippage.FoldView(old(orders[id].Filled()), FilledView(answer.value)).avg.value)]
              else [])
    {
      hide View, IsRun, CanTransition, Allowed, IsTerminal, GaveUp, Logs, Slippage.OutsideBand, FoldThrows, OutOfBand;
      ghost var s := View();
      ghost var first;
      verdict, first := BeginSubmit(id, req, blocked, now);
      steps, placed, folded := first, verdict.Done?, Done;
      if verdict.Thrown? {
        return;
      }
      ghost var m, second, gaveUp := View(), [], [];
      ghost var filled := orders[id].Filled();
      verdict, second, folded, gaveUp := FinishSubmit(orders[id], answer, answered);
      assert Place(id) !in second;
      if answer.Some? {
        var u := answer.value;
        SubmittingAnswers(u);
        GuardIsBand(filled, u, orders[id].side, req.expectedPrice, req.maxSlippageBps);
        GaveUpIsUnknown(FoldCore(Core(SUBMITTING, filled), u).status, orders[id].status, verdict, gaveUp,
                        store.durable);
      } else {
        GaveUpIsUnknown(SUBMITTING, orders[id].status, verdict, gaveUp, store.durable);
      }
      LifecycleTheorems.RunConcat(s, first, m, second, View(), store.durable);
      LogsConcat(first, second, BREACH);
      steps := first + second;
    }

    /** The catch branch of `submit`: move to UNKNOWN and log why. */
    method GiveUp(tracked: TrackedOrder, now: int) returns (verdict: Verdict, ghost steps: seq<Step>)
      requires Valid() && tracked.intentId in orders && orders[tracked.intentId] == tracked
      modifies tracked`status, tracked`updatedAt, store, journal
      ensures IsRun(old(View()), steps, store.durable, View())
      ensures OnlyMovesAndLogs(steps)
      ensures GaveUp(old(tracked.status), tracked.status, verdict, steps, store.durable)
      ensures !Logs(steps, BREACH)
    {
      hide Appended, IsRun, Next, Enabled, CanTransition, Allowed, IsTerminal, Statuses;
      ghost var s := View();
      verdict, steps := Move(tracked, UNKNOWN, now);
      if verdict.Thrown? {
        return;
      }
      ghost var m, first := View(), steps;
      var thrown;
      ghost var w;
      thrown, w := store.AppendCritical(Other("order.unknown"));
      ghost var second := [LogOther("order.unknown", w)];
      LifecycleTheorems.LogOtherStep(m, "order.unknown", w, store.durable, View());
      LifecycleTheorems.RunConcat(s, first, m, second, View(), store.durable);
      steps := first + second;
      if thrown {
        verdict := Thrown(NotPersisted);
      }
    }

    /** Cancel an order that has a venue id, once the venue has accepted the request. */
    method Cancel(id: string, accepted: bool, now: int) returns (verdict: Verdict, ghost steps: seq<Step>)
      requires Valid()
      modifies if id in orders then {orders[id]} else {}, store, journal
      ensures Valid()
      ensures IsRun(old(View()), steps, store.durable, View())
      ensures id !in orders || orders[id].orderId.None? || !accepted ==>
        verdict == Thrown(NotCancellable) && steps == []
      ensures verdict.Done? ==> id in orders && orders[id].status == CANCELLED
      ensures id in orders && old(orders[id].orderId).Some? && accepted ==>
        && (verdict == Thrown(IllegalTransition) <==>
              old(orders[id].status) != CANCELLED && !CanTransition(old(orders[id].status), CANCELLED))
        && (verdict != Thrown(IllegalTransition) ==> orders[id].status == CANCELLED)
    {
      hide IsRun, Statuses;
      EmptyRun(View(), store.durable, View());
      if id !in orders || orders[id].orderId.None? || !accepted {
        return Thrown(NotCancellable), [];
      }
      verdict, steps := Move(orders[id], CANCELLED, now);
    }

    /** The orders that still need reconciling: every tracked order in a state that is not terminal, once. */
    method ListOpen() returns (open: seq<TrackedOrder>)
      requires Valid()
      ensures forall i :: 0 <= i < |open| ==>
        open[i].intentId in orders && orders[open[i].intentId] == open[i] && open[i].status !in TERMINAL
      ensures forall id :: id in orders && orders[id].status !in TERMINAL ==> orders[id] in open
      ensures forall i, j :: 0 <= i < j < |open| ==> open[i] != open[j]
    {
      open := [];
      var todo := orders.Keys;
      while todo != {}
        invariant todo <= orders.Keys
        invariant forall i :: 0 <= i < |open| ==>
          && open[i].intentId in orders && orders[open[i].intentId] == open[i]
          && open[i].status !in TERMINAL && open[i].intentId !in todo
        invariant forall id :: id in orders && id !in todo && orders[id].status !in TERMINAL ==> orders[id] in open
        invariant forall i, j :: 0 <= i < j < |open| ==> open[i] != open[j]
        decreases |todo|
      {
        var id :| id in todo;
        todo := todo - {id};
        if orders[id].status !in TERMINAL {
          open := open + [orders[id]];
        }
      }
    }

    /** Put one rebuilt order into memory: nothing filled yet, status and ids as logged. */
    method Restore(id: string, h: LogScan.HydratedOrder, now: int)
      requires Valid()
      modifies `orders
      ensures Valid()
      ensures id in orders && fresh(orders[id]) && orders == old(orders)[id := orders[id]]
      ensures fresh(orders.Values - old(orders.Values))
      ensures orders[id].Rebuilt(h) && orders[id].status == h.status
    {
      var tracked := new TrackedOrder(id, h.spec, h.status, h.orderId, h.registeredAt, now);
      orders := orders[id := tracked];
    }

    /** Put the orders a log revives into memory, over whatever is tracked already. */
    method Hydrate(source: seq<Event>, now: int)
      requires Valid()
      modifies `orders
      ensures Valid()
      ensures fresh(orders.Values - old(orders.Values))
      ensures Statuses() == old(Statuses()) + Revive(source)
      ensures forall id :: id in Revive(source) ==>
        id in orders && LogScan.HydratedOf(source, id).Some? && orders[id].Rebuilt(LogScan.HydratedOf(source, id).value)
      ensures forall id :: id in old(orders) && id !in Revive(source) ==> id in orders && orders[id] == old(orders[id])
    {
      hide LogScan.HydratedOf, Revive, TrackedOrder.Rebuilt, StatusesOf, Statuses;
      var out := LogScan.ScanOrderEvents(source);
      ScannedStatuses(source, out);
      RestoreAll(out, now);
    }

    twostate lemma RestoredStatuses(out: map<string, LogScan.HydratedOrder>)
      requires forall id :: id in orders <==> id in old(orders) || id in out
      requires forall id :: id in out ==> orders[id].status == out[id].status
      requires forall id :: id in old(orders) && id !in out ==> orders[id].status == old(orders[id].status)
      ensures Statuses() == old(Statuses()) + StatusesOf(out)
    {
      var now, was := Statuses(), old(Statuses()) + StatusesOf(out);
      assert now.Keys == was.Keys;
      assert forall id :: id in now ==> now[id] == was[id];
    }

    method RestoreAll(out: map<string, LogScan.HydratedOrder>, now: int)
      requires Valid()
      modifies `orders
      ensures Valid()
      ensures forall id :: id in orders <==> id in old(orders) || id in out
      ensures fresh(orders.Values - old(orders.Values))
      ensures forall id :: id in out ==> orders[id].Rebuilt(out[id]) && orders[id].status == out[id].status
      ensures forall id :: id in old(orders) && id !in out ==> orders[id] == old(orders[id])
      ensures Statuses() == old(Statuses()) + StatusesOf(out)
    {
      hide *;
      var todo := out.Keys;
      while todo != {}
        invariant Valid()
        invariant forall id :: id in todo ==> id in out
        invariant forall id :: id in orders <==> id in old(orders) || (id in out && id !in todo)
        invariant fresh(orders.Values - old(orders.Values))
        invariant forall id :: id in out && id !in todo ==>
          orders[id].Rebuilt(out[id]) && orders[id].status == out[id].status
        invariant forall id :: id in old(orders) && (id !in out || id in todo) ==> orders[id] == old(orders[id])
        decreases |todo|
      {
        var id :| id in todo;
        todo := todo - {id};
        Restore(id, out[id], now);
      }
      RestoredStatuses(out);
    }
  }

  function StatusesOf(out: map<string, LogScan.HydratedOrder>): map<string, OrderStatus> {
    map id | id in out :: out[id].status
  }

  /** What the scan found is what the machine revives. */
  lemma ScannedStatuses(source: seq<Event>, out: map<string, LogScan.HydratedOrder>)
    requires forall id :: id in out <==> LogScan.HydratedOf(source, id).Some?
    requires forall id :: id in out ==> LogScan.HydratedOf(source, id) == Some(out[id])
    ensures StatusesOf(out) == Revive(source)
    ensures forall id :: id in out <==> id in StatusesOf(out)
    ensures forall id :: id in out ==> StatusesOf(out)[id] == out[id].status
  {
    hide LogScan.HydratedOf, Revive;
    forall id: string
      ensures id in out <==> id in Revive(source)
      ensures id in out ==> out[id].status == Revive(source)[id]
    {
      LogScan.ScanIsRevive(source, id);
    }
  }

  /** The statuses a venue can answer a submission with. */
  lemma SubmittingAnswers(u: BrokerOrder)
    ensures !FoldThrows(SUBMITTING, u) <==>
      u.status in {SUBMITTING, SUBMITTED, UNKNOWN, REJECTED, FILLED, PARTIALLY_FILLED}
  {
  }

  lemma GuardIsBand(f: Slippage.Filled, u: BrokerOrder, side: Side, expected: Option<real>, limitBps: Option<real>)
    ensures OutOfBand(f, u, side, expected, limitBps) <==>
      expected.Some? && limitBps.Some? &&
      Slippage.OutsideBand(f, FilledView(u), side, expected.value, limitBps.value)
  {
    hide Slippage.Flagged;
    if expected.Some? && limitBps.Some? {
      Slippage.FlaggedExactly(f, FilledView(u), side, expected.value, limitBps.value);
    }
  }

  lemma GaveUpIsUnknown(from: OrderStatus, to: OrderStatus, verdict: Verdict, steps: seq<Step>, durable: bool)
    ensures GaveUp(from, to, verdict, steps, durable) && verdict.Done? ==> to == UNKNOWN
  {
  }

  const READ_LIMIT: nat := 5000

  /**
    A new process on the log a crash left behind, wherever the crash struck: its engine is the
    machine's restart from that point.
   */
  method Boot(ghost crashed: Sys, durable: bool, journal: Journal, file: seq<Event>, codec: Codec, now: int)
    returns (engine: ExecutionEngine)
    requires file == crashed.disk && journal.trace == crashed.trace && RoundTrips(codec)
    ensures fresh(engine) && fresh(engine.store) && engine.journal == journal && engine.store.durable == durable
    ensures engine.Valid()
    ensures IsRun(crashed, [Restart(if |file| <= READ_LIMIT then 0 else |file| - READ_LIMIT)], durable, engine.View())
  {
    hide Revive, IsRun, RoundTrips, ExecutionEngine.Statuses, LogScan.HydratedOf, TrackedOrder.Rebuilt;
    var store := new EventStore(durable, journal, file);
    engine := new ExecutionEngine(store);
    var window := store.ReadAll(READ_LIMIT, codec);
    engine.Hydrate(window, now);
    ghost var unread := if |file| <= READ_LIMIT then 0 else |file| - READ_LIMIT;
    assert window == file[unread..];
    assert engine.Statuses() == Revive(window);
    LifecycleTheorems.RestartStep(crashed, unread, durable, engine.View());
  }
}
