/**
  The reconciler: the periodic truth-sync between tracked orders and the venue. One order's
  pass is a list of stages; a pass that throws stops at the stage it had reached.
 */
module Reconciler {
  import opened Prelude
  import opened OrderState
  import opened EventStore
  import opened ExecutionEngine
  import opened RiskReservations
  import Lifecycle
  import LifecycleTheorems
  import Slippage

  /** The venue's three-way answer about one order. */
  datatype Answer = Found(order: BrokerOrder) | NotFound | LookupFailed

  /** What a pass can change in a tracked order. */
  datatype Cell = Cell(core: Core, updatedAt: int)

  datatype HoldOp = Keep | CommitHold | ReleaseHold

  /** An intermediate state of one pass: the order, its hold, and the counters so far. */
  datatype Stage = Stage(cell: Cell, op: HoldOp, resolved: nat, repaired: nat)

  const SUBMITTING_TIMEOUT_MS := 10_000

  /** An unavailable snapshot is no evidence. */
  predicate HasPosition(positions: Option<set<string>>, pair: string) {
    positions.Some? && pair in positions.value
  }

  function AnswerFor(answers: map<string, Answer>, id: string): Answer {
    if id in answers then answers[id] else LookupFailed
  }

  predicate TimedOut(c: Cell, now: int) {
    now - c.updatedAt > SUBMITTING_TIMEOUT_MS
  }

  function Moved(c: Cell, to: OrderStatus, now: int): Cell {
    Cell(c.core.(status := to), now)
  }

  function NotFoundStages(c: Cell, evidence: bool, now: int): (r: seq<Stage>)
    ensures |r| > 0
  {
    var start := [Stage(c, Keep, 0, 0)];
    if evidence || (c.core.status == SUBMITTING && !TimedOut(c, now)) then start
    else
      var lost := Moved(c, UNKNOWN, now);
      var gone := Moved(c, CANCELLED, now);
      if c.core.status == SUBMITTING then
        start + [Stage(lost, Keep, 0, 0), Stage(gone, Keep, 0, 0), Stage(gone, ReleaseHold, 0, 1)]
      else if CanTransition(c.core.status, CANCELLED) then
        start + [Stage(gone, Keep, 0, 0), Stage(gone, ReleaseHold, 0, 1)]
      else start
  }

  predicate Differs(c: Cell, u: BrokerOrder) {
    c.core.status != u.status || c.core.filled.quantity != u.filledQuantity
  }

  /** The order after the fold: a refused fold has still overwritten quantity and average. */
  function Folded(c: Cell, u: BrokerOrder, now: int): Cell {
    if !Differs(c, u) then c
    else Cell(FoldCore(c.core, u), if FoldThrows(c.core.status, u) then c.updatedAt else now)
  }

  predicate Refused(c: Cell, u: BrokerOrder) {
    Differs(c, u) && FoldThrows(c.core.status, u)
  }

  function FoundOp(folded: Cell, u: BrokerOrder): HoldOp {
    if u.status == FILLED || folded.core.status == POSITION_OPEN then CommitHold else Keep
  }

  function FoundStages(c: Cell, u: BrokerOrder, evidence: bool, now: int): (r: seq<Stage>)
    ensures |r| > 0
  {
    var folded := Folded(c, u, now);
    var start := [Stage(c, Keep, 0, 0), Stage(folded, Keep, 0, 0)];
    if Refused(c, u) then start
    else
      var n := if Differs(c, u) then 1 else 0;
      var settled := start + [Stage(folded, FoundOp(folded, u), n, 0)];
      if u.status == FILLED && evidence && CanTransition(folded.core.status, POSITION_OPEN) then
        var open := Moved(folded, POSITION_OPEN, now);
        settled + [Stage(open, FoundOp(folded, u), n, 0), Stage(open, FoundOp(folded, u), n + 1, 0)]
      else settled
  }

  /** Every state one order's pass goes through, the last being where it ends when nothing stops it. */
  function Stages(c: Cell, answer: Answer, evidence: bool, now: int): (r: seq<Stage>)
    ensures |r| > 0
  {
    match answer
    case LookupFailed => [Stage(c, Keep, 0, 0)]
    case NotFound => NotFoundStages(c, evidence, now)
    case Found(u) => FoundStages(c, u, evidence, now)
  }

  /** What the fills observer is told when the pass is not stopped before. */
  function HooksOf(id: string, c: Cell, answer: Answer): seq<HookCall> {
    if answer.Found? && Differs(c, answer.order) && !FoldThrows(c.core.status, answer.order)
      && NewFill(c.core.filled, answer.order)
    then [HookCall(id, answer.order.filledQuantity,
                   Slippage.FoldView(c.core.filled, FilledView(answer.order)).avg.value)]
    else []
  }

  function HoldsAfter(holds: seq<Hold>, reservationId: Option<string>, op: HoldOp): seq<Hold> {
    if reservationId.None? || op.Keep? then holds
    else Settled(holds, reservationId.value, if op.CommitHold? then COMMITTED else RELEASED)
  }

  /** A pass is cut short by a lost audit write or a throwing observer, and by nothing else. */
  predicate CutShort(v: Verdict) {
    v == Thrown(NotPersisted) || v == Thrown(HookFailed)
  }

  ghost function CellOf(tracked: TrackedOrder): Cell
    reads tracked`status, tracked`filledQuantity, tracked`avgFillPrice, tracked`updatedAt
  {
    Cell(Core(tracked.status, tracked.Filled()), tracked.updatedAt)
  }

  datatype Counters = Counters(resolved: nat, repaired: nat, stillUnknown: nat, lookupFailed: nat)

  function Plus(a: Counters, b: Counters): Counters {
    Counters(a.resolved + b.resolved, a.repaired + b.repaired,
             a.stillUnknown + b.stillUnknown, a.lookupFailed + b.lookupFailed)
  }

  /** What a pass that reached `stage` adds to the cycle's report. */
  function CountersAt(stage: Stage, c: Cell, answer: Answer, evidence: bool): Counters {
    Counters(stage.resolved, stage.repaired,
             if c.core.status == UNKNOWN && (answer.LookupFailed? || (answer.NotFound? && evidence)) then 1 else 0,
             if answer.LookupFailed? then 1 else 0)
  }

  /** How one order's pass ended: the stage it reached, its verdict and what the observer heard. */
  datatype Outcome = Outcome(at: nat, verdict: Verdict, hooks: seq<HookCall>)

  /** A fold cut short: by a lost record before the observer is told, or by the observer itself. */
  predicate FoldCut(id: string, c: Cell, u: BrokerOrder, verdict: Verdict, hooks: seq<HookCall>) {
    && Differs(c, u) && !FoldThrows(c.core.status, u)
    && if verdict == Thrown(NotPersisted) then hooks == [] && (c.core.status != u.status || NewFill(c.core.filled, u))
       else verdict == Thrown(HookFailed) && NewFill(c.core.filled, u) && hooks == HooksOf(id, c, Found(u))
  }

  /** Where a pass can be cut short: at a stage just logged, or in the middle of a fold. */
  predicate FitsCut(id: string, c: Cell, answer: Answer, evidence: bool, now: int, o: Outcome) {
    match answer
    case LookupFailed => false
    case NotFound =>
      o.verdict == Thrown(NotPersisted) && 0 < o.at < |NotFoundStages(c, evidence, now)| - 1 && o.hooks == []
    case Found(u) =>
      || (o.at == 1 && FoldCut(id, c, u, o.verdict, o.hooks))
      || (o.at == 3 && |FoundStages(c, u, evidence, now)| == 5
          && o.verdict == Thrown(NotPersisted) && o.hooks == HooksOf(id, c, answer))
  }

  /** The outcomes a pass can have: its last stage when nothing stops it, else one of the cuts. */
  ghost predicate Fits(id: string, c: Cell, answer: Answer, evidence: bool, now: int, o: Outcome) {
    var stages := Stages(c, answer, evidence, now);
    && o.at < |stages|
    && if CutShort(o.verdict) then FitsCut(id, c, answer, evidence, now, o)
       else
         && o.at == |stages| - 1 && o.hooks == HooksOf(id, c, answer)
         && o.verdict == if answer.Found? && Refused(c, answer.order) then Thrown(IllegalTransition) else Done
  }

  /**
    What the venue's answer and the positions mean for one order, from what the cycle found to what
    it leaves. `op` is what happens to the order's hold.
   */
  ghost predicate Ends(start: Cell, answer: Answer, positions: Option<set<string>>, pair: string, now: int,
                       verdict: Verdict, end: Cell, op: HoldOp) {
    var live := positions.Some? && pair in positions.value;
    match answer
    case LookupFailed => verdict.Done? && end == start && op == Keep
    case NotFound =>
      var gone := if start.core.status == SUBMITTING then now - start.updatedAt > 10_000
                  else CanTransition(start.core.status, CANCELLED);
      && (verdict.Done? || verdict == Thrown(NotPersisted))
      && end.core.filled == start.core.filled
      && (live || !gone ==> verdict.Done? && end == start && op == Keep)
      && (!live && gone ==> end.updatedAt == now && (end.core.status == CANCELLED || end.core.status == UNKNOWN))
      && (!live && gone && verdict.Done? ==> end.core.status == CANCELLED && op == ReleaseHold)
      && (verdict.Thrown? ==> op == Keep)
    case Found(u) =>
      && (verdict.Done? ==> end.core.filled.quantity == u.filledQuantity)
      && (verdict.Done? ==> end.core.status == if u.status == FILLED && live then POSITION_OPEN else u.status)
      && (verdict.Done? ==> op == if u.status == FILLED || u.status == POSITION_OPEN then CommitHold else Keep)
      && (op != Keep ==> op == CommitHold && (u.status == FILLED || u.status == POSITION_OPEN))
      && (end.core.status != start.core.status ==>
            end.core.status == u.status || (end.core.status == POSITION_OPEN && u.status == FILLED && live))
  }

  /** What one order's pass adds to the report, from its answer, the positions and its verdict. */
  ghost predicate Counts(start: Cell, answer: Answer, positions: Option<set<string>>, pair: string, now: int,
                         verdict: Verdict, counters: Counters) {
    var live := positions.Some? && pair in positions.value;
    && counters.lookupFailed == (if answer == LookupFailed then 1 else 0)
    && counters.stillUnknown ==
         (if start.core.status == UNKNOWN && (answer == LookupFailed || (answer == NotFound && live)) then 1 else 0)
    && (counters.repaired == 1 <==>
          answer == NotFound && !live && verdict.Done? &&
          (if start.core.status == SUBMITTING then now - start.updatedAt > 10_000
           else CanTransition(start.core.status, CANCELLED)))
    && counters.repaired <= 1
    && (!answer.Found? ==> counters.resolved == 0)
    && (answer.Found? && verdict.Done? ==> counters.resolved == Resolves(start, answer.order, live))
  }

  /** A difference folded is one thing resolved, a lift to an open position another. */
  function Resolves(start: Cell, u: BrokerOrder, live: bool): nat {
    (if start.core.status != u.status || start.core.filled.quantity != u.filledQuantity then 1 else 0)
    + (if u.status == FILLED && live then 1 else 0)
  }

  lemma FitsCounts(id: string, c: Cell, answer: Answer, positions: Option<set<string>>, pair: string, now: int,
                   o: Outcome)
    requires Fits(id, c, answer, HasPosition(positions, pair), now, o)
    ensures var evidence := HasPosition(positions, pair);
      Counts(c, answer, positions, pair, now, o.verdict,
             CountersAt(Stages(c, answer, evidence, now)[o.at], c, answer, evidence))
  {
    var evidence := HasPosition(positions, pair);
    UnknownCancels();
    FilledLifts();
    NotFoundResolvesNothing(c, evidence, now);
    NotFoundCases(c, evidence, now);
    match answer
    case LookupFailed =>
    case NotFound =>
      hide CanTransition;
    case Found(u) =>
      FoundCases(c, u, evidence, now);
      FoundRepairsNothing(c, u, evidence, now);
      hide CanTransition, HooksOf, NewFill;
  }

  lemma FoundRepairsNothing(c: Cell, u: BrokerOrder, evidence: bool, now: int)
    ensures forall i :: 0 <= i < |FoundStages(c, u, evidence, now)| ==>
      FoundStages(c, u, evidence, now)[i].repaired == 0
  {
  }

  /** Exactly the active hold of that name ends, in the state the operation is for. */
  ghost predicate Settles(before: seq<Hold>, after: seq<Hold>, reservationId: Option<string>, op: HoldOp) {
    && |after| == |before|
    && forall k :: 0 <= k < |before| ==>
      after[k] == before[k].(state :=
        if before[k].state == ACTIVE && reservationId == Some(before[k].id) && op != Keep
        then (if op == CommitHold then COMMITTED else RELEASED)
        else before[k].state)
  }

  lemma SettlesOne(holds: seq<Hold>, reservationId: Option<string>, op: HoldOp)
    ensures Settles(holds, HoldsAfter(holds, reservationId, op), reservationId, op)
  {
  }

  lemma AbsenceEnds(c: Cell, positions: Option<set<string>>, pair: string, now: int, o: Outcome, id: string)
    requires Fits(id, c, NotFound, HasPosition(positions, pair), now, o)
    ensures var stage := Stages(c, NotFound, HasPosition(positions, pair), now)[o.at];
      Ends(c, NotFound, positions, pair, now, o.verdict, stage.cell, stage.op)
  {
    hide CanTransition;
    UnknownCancels();
    NotFoundCases(c, HasPosition(positions, pair), now);
  }

  lemma FindingEnds(c: Cell, u: BrokerOrder, positions: Option<set<string>>, pair: string, now: int, o: Outcome,
                    id: string)
    requires Fits(id, c, Found(u), HasPosition(positions, pair), now, o)
    ensures var stage := Stages(c, Found(u), HasPosition(positions, pair), now)[o.at];
      Ends(c, Found(u), positions, pair, now, o.verdict, stage.cell, stage.op)
  {
    FilledLifts();
    FoundCases(c, u, HasPosition(positions, pair), now);
    hide CanTransition, HooksOf, NewFill;
  }

  lemma FilledLifts()
    ensures CanTransition(FILLED, POSITION_OPEN)
  {
  }

  /** A pass that fits the policy ends as the answer and the positions say. */
  lemma FitsEnds(id: string, c: Cell, answer: Answer, positions: Option<set<string>>, pair: string, now: int,
                 o: Outcome)
    requires Fits(id, c, answer, HasPosition(positions, pair), now, o)
    ensures var stage := Stages(c, answer, HasPosition(positions, pair), now)[o.at];
      Ends(c, answer, positions, pair, now, o.verdict, stage.cell, stage.op)
  {
    match answer
    case LookupFailed =>
    case NotFound => AbsenceEnds(c, positions, pair, now, o, id);
    case Found(u) => FindingEnds(c, u, positions, pair, now, o, id);
  }

  /** One order's pass through a cycle, from the state the cycle found it in. */
  datatype Pass = Pass(
    id: string,
    reservationId: Option<string>,
    start: Cell,
    answer: Answer,
    evidence: bool,
    outcome: Outcome
  )

  ghost predicate Follows(p: Pass, now: int) {
    Fits(p.id, p.start, p.answer, p.evidence, now, p.outcome)
  }

  ghost function End(p: Pass, now: int): Stage
    requires Follows(p, now)
  {
    Stages(p.start, p.answer, p.evidence, now)[p.outcome.at]
  }

  ghost predicate AllFollow(passes: seq<Pass>, now: int) {
    forall i :: 0 <= i < |passes| ==> Follows(passes[i], now)
  }

  /** The holds after a cycle: each pass settles its own hold, in order. */
  ghost function HoldsOver(holds: seq<Hold>, passes: seq<Pass>, now: int): seq<Hold>
    requires AllFollow(passes, now)
  {
    if passes == [] then holds
    else
      var p := passes[|passes| - 1];
      HoldsAfter(HoldsOver(holds, passes[..|passes| - 1], now), p.reservationId, End(p, now).op)
  }

  function HooksOver(passes: seq<Pass>): seq<HookCall> {
    if passes == [] then [] else HooksOver(passes[..|passes| - 1]) + passes[|passes| - 1].outcome.hooks
  }

  ghost function ReportOf(passes: seq<Pass>, now: int): Counters
    requires AllFollow(passes, now)
  {
    if passes == [] then Counters(0, 0, 0, 0)
    else
      var p := passes[|passes| - 1];
      Plus(ReportOf(passes[..|passes| - 1], now), CountersAt(End(p, now), p.start, p.answer, p.evidence))
  }

  lemma {:induction false} CycleSnoc(holds: seq<Hold>, passes: seq<Pass>, p: Pass, now: int)
    requires AllFollow(passes, now) && Follows(p, now)
    ensures AllFollow(passes + [p], now)
    ensures HoldsOver(holds, passes + [p], now)
      == HoldsAfter(HoldsOver(holds, passes, now), p.reservationId, End(p, now).op)
    ensures HooksOver(passes + [p]) == HooksOver(passes) + p.outcome.hooks
    ensures ReportOf(passes + [p], now)
      == Plus(ReportOf(passes, now), CountersAt(End(p, now), p.start, p.answer, p.evidence))
  {
    assert (passes + [p])[..|passes|] == passes;
  }

  class Reconciler {
    const execution: ExecutionEngine
    const reservations: RiskReservationManager

    constructor (execution: ExecutionEngine, reservations: RiskReservationManager)
      ensures this.execution == execution && this.reservations == reservations
    {
      this.execution, this.reservations := execution, reservations;
    }

    ghost predicate Valid()
      reads execution`orders, execution`cancelRequested, execution`remainderCancels
      reads reservations`reservations, reservations`order
    {
      execution.Valid() && reservations.Valid()
    }

    ghost predicate Tracks(tracked: TrackedOrder)
      reads execution`orders
    {
      tracked.intentId in execution.orders && execution.orders[tracked.intentId] == tracked
    }

    /** One status change of a pass, as the engine makes it. */
    method MoveTo(tracked: TrackedOrder, to: OrderStatus, now: int) returns (verdict: Verdict,
                  ghost steps: seq<Lifecycle.Step>)
      requires Valid() && Tracks(tracked) && CanTransition(tracked.status, to) && tracked.status != to
      modifies tracked`status, tracked`updatedAt, execution.store, execution.journal
      ensures Lifecycle.IsRun(old(execution.View()), steps, execution.store.durable, execution.View())
      ensures OnlyMovesAndLogs(steps)
      ensures CellOf(tracked) == Moved(old(CellOf(tracked)), to, now)
      ensures verdict.Done? || verdict == Thrown(NotPersisted)
    {
      hide Lifecycle.IsRun, CanTransition, Allowed, ExecutionEngine.View, ExecutionEngine.Statuses;
      verdict, steps := execution.Move(tracked, to, now);
    }

    method SettleHold(tracked: TrackedOrder, op: HoldOp)
      requires Valid()
      modifies reservations.reservations.Values
      ensures Valid()
      ensures reservations.View() == HoldsAfter(old(reservations.View()), tracked.reservationId, op)
    {
      if tracked.reservationId.Some? {
        match op
        case CommitHold => reservations.Commit(tracked.reservationId.value);
        case ReleaseHold => reservations.Release(tracked.reservationId.value);
        case Keep =>
      }
    }

    /** Cancel an order the venue does not know, then free its budget. */
    method CancelMissing(tracked: TrackedOrder, now: int)
      returns (verdict: Verdict, repaired: nat, ghost steps: seq<Lifecycle.Step>)
      requires Valid() && Tracks(tracked) && CanTransition(tracked.status, CANCELLED) && tracked.status != CANCELLED
      modifies tracked`status, tracked`updatedAt, execution.store, execution.journal, reservations.reservations.Values
      ensures Valid()
      ensures Lifecycle.IsRun(old(execution.View()), steps, execution.store.durable, execution.View())
      ensures OnlyMovesAndLogs(steps)
      ensures verdict.Done? || verdict == Thrown(NotPersisted)
      ensures CellOf(tracked) == Moved(old(CellOf(tracked)), CANCELLED, now)
      ensures repaired == if verdict.Done? then 1 else 0
      ensures reservations.View() ==
        HoldsAfter(old(reservations.View()), tracked.reservationId, if verdict.Done? then ReleaseHold else Keep)
    {
      hide Lifecycle.IsRun, CanTransition, Allowed, Moved, RiskReservationManager.View, ExecutionEngine.Statuses,
        HoldsAfter;
      ghost var holds := reservations.View();
      verdict, steps := MoveTo(tracked, CANCELLED, now);
      repaired := 0;
      KeepLeavesHolds(reservations.View(), tracked.reservationId);
      if verdict.Done? {
        ghost var v := execution.View();
        SettleHold(tracked, ReleaseHold);
        assert v == execution.View();
        repaired := 1;
      }
    }

    lemma KeepLeavesHolds(holds: seq<Hold>, reservationId: Option<string>)
      ensures HoldsAfter(holds, reservationId, Keep) == holds
    {
    }

    /** The venue answered that the order does not exist: the missing-order policy. */
    method OnNotFound(tracked: TrackedOrder, evidence: bool, now: int)
      returns (verdict: Verdict, repaired: nat, ghost steps: seq<Lifecycle.Step>, ghost at: nat)
      requires Valid() && Tracks(tracked)
      modifies tracked`status, tracked`updatedAt, execution.store, execution.journal, reservations.reservations.Values
      ensures Valid()
      ensures Lifecycle.IsRun(old(execution.View()), steps, execution.store.durable, execution.View())
      ensures OnlyMovesAndLogs(steps)
      ensures verdict.Done? || verdict == Thrown(NotPersisted)
      ensures var stages := NotFoundStages(old(CellOf(tracked)), evidence, now);
        && at < |stages| && (verdict.Done? ==> at == |stages| - 1) && (verdict.Thrown? ==> 0 < at < |stages| - 1)
        && CellOf(tracked) == stages[at].cell && repaired == stages[at].repaired && stages[at].resolved == 0
        && reservations.View() == HoldsAfter(old(reservations.View()), tracked.reservationId, stages[at].op)
    {
      hide Lifecycle.IsRun, Allowed, ExecutionEngine.View, RiskReservationManager.View, HoldsAfter,
        ExecutionEngine.Valid, RiskReservationManager.Valid, CanTransition, NotFoundStages, Moved;
      ghost var s, c := execution.View(), CellOf(tracked);
      hide ExecutionEngine.Statuses;
      KeepLeavesHolds(reservations.View(), tracked.reservationId);
      UnknownCancels();
      NotFoundCases(c, evidence, now);
      verdict, repaired, steps, at := Done, 0, [], 0;
      execution.EmptyRun(s, execution.store.durable, s);
      if evidence {
        return;
      }
      if tracked.status == SUBMITTING {
        if now - tracked.updatedAt <= SUBMITTING_TIMEOUT_MS {
          return;
        }
        verdict, steps := MoveTo(tracked, UNKNOWN, now);
        at := 1;
        if verdict.Thrown? {
          return;
        }
      }
      if CanTransition(tracked.status, CANCELLED) {
        ghost var m, first := execution.View(), steps;
        ghost var second;
        verdict, repaired, second := CancelMissing(tracked, now);
        LifecycleTheorems.RunConcat(s, first, m, second, execution.View(), execution.store.durable);
        steps, at := first + second, at + 1 + repaired;
      }
    }

    /** Fold the venue's view when it differs from the tracked order. */
    method FoldFound(tracked: TrackedOrder, u: BrokerOrder, now: int)
      returns (verdict: Verdict, resolved: nat, ghost steps: seq<Lifecycle.Step>, ghost hooks: seq<HookCall>)
      requires Valid() && Tracks(tracked)
      modifies execution`cancelRequested, execution`remainderCancels, execution`hookCalls, execution`hookThrew
      modifies tracked, execution.store, execution.journal
      ensures Valid()
      ensures Lifecycle.IsRun(old(execution.View()), steps, execution.store.durable, execution.View())
      ensures OnlyMovesAndLogs(steps)
      ensures CellOf(tracked) == Folded(old(CellOf(tracked)), u, now)
      ensures verdict == Thrown(IllegalTransition) <==> Refused(old(CellOf(tracked)), u)
      ensures verdict.Done? || CutShort(verdict) || verdict == Thrown(IllegalTransition)
      ensures CutShort(verdict) ==> FoldCut(tracked.intentId, old(CellOf(tracked)), u, verdict, hooks)
      ensures resolved == if verdict.Done? && Differs(old(CellOf(tracked)), u) then 1 else 0
      ensures execution.hookCalls == old(execution.hookCalls) + hooks
      ensures !CutShort(verdict) ==> hooks == HooksOf(tracked.intentId, old(CellOf(tracked)), Found(u))
    {
      hide Lifecycle.IsRun, Allowed, CanTransition, ExecutionEngine.View, ExecutionEngine.Statuses, FoldCore,
        Slippage.FoldView, FoldThrows, NewFill;
      verdict, resolved, steps, hooks := Done, 0, [], [];
      execution.EmptyRun(execution.View(), execution.store.durable, execution.View());
      ghost var c := CellOf(tracked);
      if tracked.status != u.status || tracked.filledQuantity != u.filledQuantity {
        verdict, steps := execution.ApplyBrokerUpdate(tracked, u, now);
        FoldedFill(c, u);
        if !(verdict == Thrown(NotPersisted)) {
          hooks := HooksOf(tracked.intentId, c, Found(u));
        }
        if verdict.Done? {
          resolved := 1;
        }
      }
    }

    /** A confirmed fill with a live position behind it advances to POSITION_OPEN. */
    method Lift(tracked: TrackedOrder, u: BrokerOrder, evidence: bool, now: int)
      returns (verdict: Verdict, resolved: nat, ghost steps: seq<Lifecycle.Step>)
      requires Valid() && Tracks(tracked)
      modifies tracked`status, tracked`updatedAt, execution.store, execution.journal
      ensures Valid()
      ensures Lifecycle.IsRun(old(execution.View()), steps, execution.store.durable, execution.View())
      ensures OnlyMovesAndLogs(steps)
      ensures var lifted := u.status == FILLED && evidence && CanTransition(old(tracked.status), POSITION_OPEN);
        && CellOf(tracked) == (if lifted then Moved(old(CellOf(tracked)), POSITION_OPEN, now) else old(CellOf(tracked)))
        && (verdict.Done? || (lifted && verdict == Thrown(NotPersisted)))
        && resolved == (if lifted && verdict.Done? then 1 else 0)
    {
      hide Lifecycle.IsRun, Allowed, CanTransition, ExecutionEngine.View, ExecutionEngine.Statuses, Moved;
      verdict, resolved, steps := Done, 0, [];
      execution.EmptyRun(execution.View(), execution.store.durable, execution.View());
      NoSelfLift();
      if u.status == FILLED && evidence && CanTransition(tracked.status, POSITION_OPEN) {
        verdict, steps := MoveTo(tracked, POSITION_OPEN, now);
        if verdict.Done? {
          resolved := 1;
        }
      }
    }

    /** After the fold: commit the hold of a fill, then lift the order. */
    method CommitAndLift(tracked: TrackedOrder, u: BrokerOrder, evidence: bool, now: int)
      returns (verdict: Verdict, resolved: nat, ghost steps: seq<Lifecycle.Step>)
      requires Valid() && Tracks(tracked)
      modifies tracked`status, tracked`updatedAt, execution.store, execution.journal, reservations.reservations.Values
      ensures Valid()
      ensures Lifecycle.IsRun(old(execution.View()), steps, execution.store.durable, execution.View())
      ensures OnlyMovesAndLogs(steps)
      ensures reservations.View() ==
        HoldsAfter(old(reservations.View()), tracked.reservationId, FoundOp(old(CellOf(tracked)), u))
      ensures var lifted := u.status == FILLED && evidence && CanTransition(old(tracked.status), POSITION_OPEN);
        && CellOf(tracked) == (if lifted then Moved(old(CellOf(tracked)), POSITION_OPEN, now) else old(CellOf(tracked)))
        && (verdict.Done? || (lifted && verdict == Thrown(NotPersisted)))
        && resolved == (if lifted && verdict.Done? then 1 else 0)
    {
      hide Lifecycle.IsRun, CanTransition, ExecutionEngine.View, RiskReservationManager.View, HoldsAfter, Moved,
        ExecutionEngine.Valid, RiskReservationManager.Valid;
      ghost var v := execution.View();
      KeepLeavesHolds(reservations.View(), tracked.reservationId);
      if u.status == FILLED || tracked.status == POSITION_OPEN {
        SettleHold(tracked, CommitHold);
      }
      assert execution.View() == v;
      verdict, resolved, steps := Lift(tracked, u, evidence, now);
    }

    /** Venue truth wins: fold the view, commit the hold of a fill, then lift it to an open position. */
    method OnFound(tracked: TrackedOrder, u: BrokerOrder, evidence: bool, now: int)
      returns (verdict: Verdict, resolved: nat, ghost steps: seq<Lifecycle.Step>, ghost at: nat,
               ghost hooks: seq<HookCall>)
      requires Valid() && Tracks(tracked)
      modifies execution`cancelRequested, execution`remainderCancels, execution`hookCalls, execution`hookThrew
      modifies tracked, execution.store, execution.journal, reservations.reservations.Values
      ensures Valid()
      ensures Lifecycle.IsRun(old(execution.View()), steps, execution.store.durable, execution.View())
      ensures OnlyMovesAndLogs(steps)
      ensures var c, stages := old(CellOf(tracked)), FoundStages(old(CellOf(tracked)), u, evidence, now);
        && at < |stages| && (!CutShort(verdict) ==> at == |stages| - 1)
        && CellOf(tracked) == stages[at].cell && resolved == stages[at].resolved && stages[at].repaired == 0
        && reservations.View() == HoldsAfter(old(reservations.View()), tracked.reservationId, stages[at].op)
        && (verdict == Thrown(IllegalTransition) <==> Refused(c, u))
        && (!CutShort(verdict) ==>
              (verdict.Done? || verdict == Thrown(IllegalTransition)) &&
              hooks == HooksOf(tracked.intentId, c, Found(u)))
        && (CutShort(verdict) ==> FitsCut(tracked.intentId, c, Found(u), evidence, now, Outcome(at, verdict, hooks)))
      ensures execution.hookCalls == old(execution.hookCalls) + hooks
    {
      hide Lifecycle.IsRun, Allowed, CanTransition, ExecutionEngine.View, RiskReservationManager.View, HoldsAfter,
        Folded, Moved, Refused, Differs, HooksOf, FoundStages, FoldCut, ExecutionEngine.Valid,
        RiskReservationManager.Valid;
      ghost var s, c, holds := execution.View(), CellOf(tracked), reservations.View();
      FoundCases(c, u, evidence, now);
      KeepLeavesHolds(holds, tracked.reservationId);
      verdict, resolved, steps, hooks := FoldFound(tracked, u, now);
      at := 1;
      if verdict.Thrown? {
        return;
      }
      ghost var m, first := execution.View(), steps;
      ghost var second;
      var lifts;
      verdict, lifts, second := CommitAndLift(tracked, u, evidence, now);
      LifecycleTheorems.RunConcat(s, first, m, second, execution.View(), execution.store.durable);
      steps, resolved := first + second, resolved + lifts;
      at := if verdict.Thrown? then 3 else if lifts == 1 then 4 else 2;
    }

    /** One order's pass: ask the venue, then act on its three-way answer. */
    method ReconcileOne(tracked: TrackedOrder, answer: Answer, positions: Option<set<string>>, now: int)
      returns (verdict: Verdict, counters: Counters, ghost steps: seq<Lifecycle.Step>, ghost o: Outcome)
      requires Valid() && Tracks(tracked)
      modifies execution`cancelRequested, execution`remainderCancels, execution`hookCalls, execution`hookThrew
      modifies tracked, execution.store, execution.journal, reservations.reservations.Values
      ensures Valid()
      ensures Lifecycle.IsRun(old(execution.View()), steps, execution.store.durable, execution.View())
      ensures OnlyMovesAndLogs(steps)
      ensures verdict == o.verdict
      ensures var c, evidence := old(CellOf(tracked)), HasPosition(positions, tracked.pair);
        && Fits(tracked.intentId, c, answer, evidence, now, o)
        && var stage := Stages(c, answer, evidence, now)[o.at];
        && CellOf(tracked) == stage.cell
        && counters == CountersAt(stage, c, answer, evidence)
        && reservations.View() == HoldsAfter(old(reservations.View()), tracked.reservationId, stage.op)
        && Ends(c, answer, positions, tracked.pair, now, verdict, CellOf(tracked), stage.op)
        && Settles(old(reservations.View()), reservations.View(), tracked.reservationId, stage.op)
        && Counts(c, answer, positions, tracked.pair, now, verdict, counters)
      ensures execution.hookCalls == old(execution.hookCalls) + o.hooks
    {
      hide Ends, Settles, Counts, Lifecycle.IsRun, ExecutionEngine.View, RiskReservationManager.View, HoldsAfter,
        HooksOf, FoundStages, NotFoundStages, ExecutionEngine.Valid, RiskReservationManager.Valid;
      ghost var c, holds := CellOf(tracked), reservations.View();
      var evidence := HasPosition(positions, tracked.pair);
      var held := if tracked.status == UNKNOWN then 1 else 0;
      KeepLeavesHolds(reservations.View(), tracked.reservationId);
      if !answer.Found? {
        NoFoldNoHook(tracked.intentId, CellOf(tracked), answer);
      }
      match answer {
        case LookupFailed =>
          execution.EmptyRun(execution.View(), execution.store.durable, execution.View());
          verdict, counters, steps, o := Done, Counters(0, 0, held, 1), [], Outcome(0, Done, []);
        case NotFound =>
          var repaired;
          ghost var at;
          NotFoundResolvesNothing(CellOf(tracked), evidence, now);
          verdict, repaired, steps, at := OnNotFound(tracked, evidence, now);
          counters := Counters(0, repaired, if evidence then held else 0, 0);
          o := Outcome(at, verdict, []);
        case Found(u) =>
          var resolved;
          ghost var at, hooks;
          FoundCases(CellOf(tracked), u, evidence, now);
          verdict, resolved, steps, at, hooks := OnFound(tracked, u, evidence, now);
          counters := Counters(resolved, 0, 0, 0);
          o := Outcome(at, verdict, hooks);
      }
      FitsEnds(tracked.intentId, c, answer, positions, tracked.pair, now, o);
      FitsCounts(tracked.intentId, c, answer, positions, tracked.pair, now, o);
      SettlesOne(holds, tracked.reservationId, Stages(c, answer, evidence, now)[o.at].op);
    }

    /** `p` is the pass of `tracked`, which a cycle on these answers and positions found at `start`. */
    ghost predicate PassOf(p: Pass, tracked: TrackedOrder, start: Cell, answers: map<string, Answer>,
                           positions: Option<set<string>>) {
      && p.id == tracked.intentId && p.reservationId == tracked.reservationId && p.start == start
      && p.answer == AnswerFor(answers, tracked.intentId) && p.evidence == HasPosition(positions, tracked.pair)
    }

    /** The order ends the cycle as the venue's own answer, a failed lookup if there was none, and the positions say. */
    ghost predicate EndsAs(p: Pass, tracked: TrackedOrder, start: Cell, answers: map<string, Answer>,
                           positions: Option<set<string>>, now: int) {
      Follows(p, now) &&
      Ends(start, if tracked.intentId in answers then answers[tracked.intentId] else LookupFailed, positions,
           tracked.pair, now, p.outcome.verdict, End(p, now).cell, End(p, now).op)
    }

    /** What a cycle that began at `s`, `holds` and `hooks` has done after `passes`. */
    ghost predicate Progress(s: Lifecycle.Sys, holds: seq<Hold>, hooks: seq<HookCall>,
                             steps: seq<Lifecycle.Step>, passes: seq<Pass>, report: Counters, now: int)
      requires Valid()
      reads execution, execution.orders.Values, execution.store, execution.journal
      reads reservations, reservations.reservations.Values
    {
      && Lifecycle.IsRun(s, steps, execution.store.durable, execution.View()) && OnlyMovesAndLogs(steps)
      && AllFollow(passes, now)
      && reservations.View() == HoldsOver(holds, passes, now)
      && execution.hookCalls == hooks + HooksOver(passes)
      && report == ReportOf(passes, now)
    }

    lemma EmptyCycle(now: int)
      requires Valid()
      ensures Progress(execution.View(), reservations.View(), execution.hookCalls, [], [], Counters(0, 0, 0, 0), now)
    {
    }

    /** A cycle that changed something leaves an audit record; losing it throws. */
    method LogReport(report: Counters, now: int,
                     ghost s: Lifecycle.Sys, ghost holds: seq<Hold>, ghost hooks: seq<HookCall>,
                     ghost steps: seq<Lifecycle.Step>, ghost passes: seq<Pass>)
      returns (thrown: bool, ghost steps': seq<Lifecycle.Step>)
      requires Valid() && Progress(s, holds, hooks, steps, passes, report, now)
      modifies execution.store, execution.journal
      ensures Valid() && Progress(s, holds, hooks, steps', passes, report, now)
      ensures report.resolved + report.repaired == 0 ==> !thrown && steps' == steps
      ensures report.resolved + report.repaired > 0 ==>
        && |steps'| == |steps| + 1 && steps'[..|steps|] == steps
        && steps'[|steps|].LogOther? && steps'[|steps|].kind == "reconcile"
        && (thrown <==> steps'[|steps|].w.Failed? && execution.store.durable)
    {
      hide Lifecycle.Appended, Lifecycle.IsRun, Lifecycle.Next, Lifecycle.Enabled, RiskReservationManager.View,
        HoldsOver, HooksOver,
        ReportOf, AllFollow, RiskReservationManager.Valid;
      ghost var statuses := execution.Statuses();
      hide ExecutionEngine.Statuses;
      thrown, steps' := false, steps;
      if report.resolved + report.repaired > 0 {
        ghost var m := execution.View();
        ghost var w;
        thrown, w := execution.store.AppendCritical(Lifecycle.Other("reconcile"));
        ghost var last := Lifecycle.LogOther("reconcile", w);
        LifecycleTheorems.LogOtherStep(m, "reconcile", w, execution.store.durable, execution.View());
        LifecycleTheorems.RunConcat(s, steps, m, [last], execution.View(), execution.store.durable);
        steps' := steps + [last];
      }
    }

    /** One turn of the cycle's loop: whatever the pass throws ends with it. */
    method PassOver(tracked: TrackedOrder, answers: map<string, Answer>, positions: Option<set<string>>, now: int,
                    report: Counters,
                    ghost s: Lifecycle.Sys, ghost holds: seq<Hold>, ghost hooks: seq<HookCall>,
                    ghost steps: seq<Lifecycle.Step>, ghost passes: seq<Pass>)
      returns (report': Counters, ghost steps': seq<Lifecycle.Step>, ghost p: Pass)
      requires Valid() && Tracks(tracked) && Progress(s, holds, hooks, steps, passes, report, now)
      modifies execution`cancelRequested, execution`remainderCancels, execution`hookCalls, execution`hookThrew
      modifies tracked, execution.store, execution.journal, reservations.reservations.Values
      ensures Valid() && Progress(s, holds, hooks, steps', passes + [p], report', now)
      ensures PassOf(p, tracked, old(CellOf(tracked)), answers, positions)
      ensures Follows(p, now) && CellOf(tracked) == End(p, now).cell
      ensures EndsAs(p, tracked, old(CellOf(tracked)), answers, positions, now)
    {
      hide Lifecycle.IsRun, ExecutionEngine.View, RiskReservationManager.View, HoldsAfter, HoldsOver, HooksOver,
        ReportOf,
        CellOf, Fits, Stages, ExecutionEngine.Valid, RiskReservationManager.Valid, CountersAt, Plus, Ends, Settles;
      ghost var start, m := CellOf(tracked), execution.View();
      var answer := AnswerFor(answers, tracked.intentId);
      ghost var second, o;
      var verdict, counters;
      verdict, counters, second, o := ReconcileOne(tracked, answer, positions, now);
      LifecycleTheorems.RunConcat(s, steps, m, second, execution.View(), execution.store.durable);
      p := Pass(tracked.intentId, tracked.reservationId, start, answer, HasPosition(positions, tracked.pair), o);
      CycleSnoc(holds, passes, p, now);
      AppendHooks(hooks, HooksOver(passes), o.hooks);
      steps', report' := steps + second, Plus(report, counters);
    }

    /** The cycle's loop, over the orders it found open. */
    method PassOverAll(orders: seq<TrackedOrder>, answers: map<string, Answer>, positions: Option<set<string>>,
                       now: int)
      returns (report: Counters, ghost passes: seq<Pass>, ghost steps: seq<Lifecycle.Step>)
      requires Valid()
      requires forall i :: 0 <= i < |orders| ==> Tracks(orders[i])
      requires forall i, j :: 0 <= i < j < |orders| ==> orders[i] != orders[j]
      modifies execution`cancelRequested, execution`remainderCancels, execution`hookCalls, execution`hookThrew
      modifies set o | o in orders
      modifies execution.store, execution.journal, reservations.reservations.Values
      ensures Valid()
      ensures |passes| == |orders| && AllFollow(passes, now)
      ensures forall i :: 0 <= i < |orders| ==> PassOf(passes[i], orders[i], old(CellOf(orders[i])), answers, positions)
      ensures forall i :: 0 <= i < |orders| ==> CellOf(orders[i]) == End(passes[i], now).cell
      ensures forall i :: 0 <= i < |orders| ==>
        EndsAs(passes[i], orders[i], old(CellOf(orders[i])), answers, positions, now)
      ensures Progress(old(execution.View()), old(reservations.View()), old(execution.hookCalls), steps, passes,
                       report, now)
    {
      hide Progress, PassOf, EndsAs, Follows, End, CellOf, ExecutionEngine.View, RiskReservationManager.View,
        ExecutionEngine.Valid, RiskReservationManager.Valid;
      report, passes, steps := Counters(0, 0, 0, 0), [], [];
      ghost var s, holds, hooks := execution.View(), reservations.View(), execution.hookCalls;
      EmptyCycle(now);
      var i := 0;
      while i < |orders|
        invariant 0 <= i <= |orders|
        invariant Valid()
        invariant |passes| == i && Progress(s, holds, hooks, steps, passes, report, now)
        invariant AllFollow(passes, now)
        invariant forall j :: i <= j < |orders| ==> CellOf(orders[j]) == old(CellOf(orders[j]))
        invariant forall j :: 0 <= j < i ==> CellOf(orders[j]) == End(passes[j], now).cell
        invariant forall j :: 0 <= j < i ==>
          EndsAs(passes[j], orders[j], old(CellOf(orders[j])), answers, positions, now)
        invariant forall j :: 0 <= j < i ==> PassOf(passes[j], orders[j], old(CellOf(orders[j])), answers, positions)
      {
        ghost var p;
        report, steps, p := PassOver(orders[i], answers, positions, now, report, s, holds, hooks, steps, passes);
        passes := passes + [p];
        i := i + 1;
      }
    }

    /**
      One cycle: every open order gets its own pass, and what a pass throws is kept to that order.
      The only thing that can stop the cycle is the loss of its own report.
     */
    method Reconcile(answers: map<string, Answer>, positions: Option<set<string>>, now: int)
      returns (checked: nat, report: Counters, thrown: bool,
               ghost open: seq<TrackedOrder>, ghost passes: seq<Pass>, ghost steps: seq<Lifecycle.Step>)
      requires Valid()
      modifies execution`cancelRequested, execution`remainderCancels, execution`hookCalls, execution`hookThrew
      modifies execution.orders.Values, execution.store, execution.journal, reservations.reservations.Values
      ensures Valid()
      ensures forall id :: id in execution.orders ==>
        (execution.orders[id] in open <==> old(execution.orders[id].status) !in TERMINAL)
      ensures forall id :: id in execution.orders && execution.orders[id] !in open ==>
        CellOf(execution.orders[id]) == old(CellOf(execution.orders[id]))
      ensures checked == |open| == |passes| && AllFollow(passes, now)
      ensures forall i :: 0 <= i < |open| ==> open[i] in old(execution.orders.Values)
      ensures forall i, j :: 0 <= i < j < |open| ==> open[i] != open[j]
      ensures forall i :: 0 <= i < |open| ==> Tracks(open[i])
      ensures forall i :: 0 <= i < |open| ==> PassOf(passes[i], open[i], old(CellOf(open[i])), answers, positions)
      ensures forall i :: 0 <= i < |open| ==> CellOf(open[i]) == End(passes[i], now).cell
      ensures forall i :: 0 <= i < |open| ==>
        EndsAs(passes[i], open[i], old(CellOf(open[i])), answers, positions, now)
      ensures Progress(old(execution.View()), old(reservations.View()), old(execution.hookCalls), steps, passes,
                       report, now)
      ensures report.resolved + report.repaired == 0 ==> !thrown
      ensures report.resolved + report.repaired > 0 ==>
        && |steps| > 0 && steps[|steps| - 1].LogOther? && steps[|steps| - 1].kind == "reconcile"
        && (thrown <==> steps[|steps| - 1].w.Failed? && execution.store.durable)
    {
      hide Progress, PassOf, EndsAs, Follows, End, CellOf, ExecutionEngine.View, RiskReservationManager.View,
        ExecutionEngine.Valid, RiskReservationManager.Valid, AllFollow;
      ghost var s, holds, hooks := execution.View(), reservations.View(), execution.hookCalls;
      var orders := execution.ListOpen();
      open, checked := orders, |orders|;
      report, passes, steps := PassOverAll(orders, answers, positions, now);
      thrown, steps := LogReport(report, now, s, holds, hooks, steps, passes);
    }
  }

  lemma AppendHooks(a: seq<HookCall>, b: seq<HookCall>, c: seq<HookCall>)
    ensures (a + b) + c == a + (b + c)
  {
  }

  lemma NotFoundResolvesNothing(c: Cell, evidence: bool, now: int)
    ensures forall i :: 0 <= i < |NotFoundStages(c, evidence, now)| ==>
      NotFoundStages(c, evidence, now)[i].resolved == 0
  {
  }

  lemma NoFoldNoHook(id: string, c: Cell, answer: Answer)
    requires !answer.Found?
    ensures HooksOf(id, c, answer) == []
  {
  }

  lemma NoSelfLift()
    ensures !CanTransition(POSITION_OPEN, POSITION_OPEN)
  {
  }

  /** The fold policy, case by case. */
  lemma FoundCases(c: Cell, u: BrokerOrder, evidence: bool, now: int)
    ensures var r, folded := FoundStages(c, u, evidence, now), Folded(c, u, now);
      var op, n := FoundOp(folded, u), if Differs(c, u) then 1 else 0;
      && |r| >= 2 && r[1] == Stage(folded, Keep, 0, 0)
      && (Refused(c, u) ==> |r| == 2)
      && (!Refused(c, u) ==> |r| >= 3 && r[2] == Stage(folded, op, n, 0))
      && (!Refused(c, u) && !(u.status == FILLED && evidence && CanTransition(folded.core.status, POSITION_OPEN)) ==>
        |r| == 3)
      && (!Refused(c, u) && u.status == FILLED && evidence && CanTransition(folded.core.status, POSITION_OPEN) ==>
            |r| == 5 && r[3] == Stage(Moved(folded, POSITION_OPEN, now), op, n, 0)
            && r[4] == Stage(Moved(folded, POSITION_OPEN, now), op, n + 1, 0))
  {
  }

  lemma FoldedFill(c: Cell, u: BrokerOrder)
    ensures FoldCore(c.core, u).filled == Slippage.FoldView(c.core.filled, FilledView(u))
    ensures FoldCore(c.core, u).filled.quantity == u.filledQuantity
    ensures NewFill(c.core.filled, u) ==> FoldCore(c.core, u).filled.avg.Some?
  {
  }

  /** The missing-order policy, case by case. */
  lemma NotFoundCases(c: Cell, evidence: bool, now: int)
    ensures var r, missing := NotFoundStages(c, evidence, now), Moved(c, CANCELLED, now);
      && r[0] == Stage(c, Keep, 0, 0)
      && (evidence || (c.core.status == SUBMITTING && now - c.updatedAt <= SUBMITTING_TIMEOUT_MS) ==> |r| == 1)
      && (!evidence && c.core.status == SUBMITTING && now - c.updatedAt > SUBMITTING_TIMEOUT_MS ==>
            |r| == 4 && r[1] == Stage(Moved(c, UNKNOWN, now), Keep, 0, 0)
            && r[2] == Stage(missing, Keep, 0, 0) && r[3] == Stage(missing, ReleaseHold, 0, 1))
      && (!evidence && c.core.status != SUBMITTING && !CanTransition(c.core.status, CANCELLED) ==> |r| == 1)
      && (!evidence && c.core.status != SUBMITTING && CanTransition(c.core.status, CANCELLED) ==>
            |r| == 3 && r[1] == Stage(missing, Keep, 0, 0) && r[2] == Stage(missing, ReleaseHold, 0, 1))
      && Moved(Moved(c, UNKNOWN, now), CANCELLED, now) == missing
      && Moved(c, UNKNOWN, now).core.status == UNKNOWN
  {
  }

  lemma UnknownCancels()
    ensures CanTransition(UNKNOWN, CANCELLED) && CanTransition(SUBMITTING, UNKNOWN)
      && !CanTransition(CANCELLED, CANCELLED)
  {
  }
}
