/** What a reconciliation pass may do, and what repeating it does. */
module ReconcilerTheorems {
  import opened Prelude
  import opened OrderState
  import opened ExecutionEngine
  import opened RiskReservations
  import opened Reconciler
  import Slippage
  import Lifecycle

  function UnknownAtStart(passes: seq<Pass>): nat {
    if passes == [] then 0
    else UnknownAtStart(passes[..|passes| - 1]) + if passes[|passes| - 1].start.core.status == UNKNOWN then 1 else 0
  }

  function Sum(ns: seq<nat>): nat {
    if ns == [] then 0 else Sum(ns[..|ns| - 1]) + ns[|ns| - 1]
  }

  /** Every counter of the report is the sum of what the passes reached. */
  lemma {:induction false} ReportAddsUp(passes: seq<Pass>, now: int)
    requires AllFollow(passes, now)
    ensures ReportOf(passes, now).resolved
      == Sum(seq(|passes|, i requires 0 <= i < |passes| => End(passes[i], now).resolved))
    ensures ReportOf(passes, now).repaired
      == Sum(seq(|passes|, i requires 0 <= i < |passes| => End(passes[i], now).repaired))
  {
    if passes == [] {
    } else {
      var init := passes[..|passes| - 1];
      ReportAddsUp(init, now);
      hide End, Follows;
      var resolved := seq(|passes|, i requires 0 <= i < |passes| => End(passes[i], now).resolved);
      var repaired := seq(|passes|, i requires 0 <= i < |passes| => End(passes[i], now).repaired);
      assert resolved[..|init|] == seq(|init|, i requires 0 <= i < |init| => End(init[i], now).resolved);
      assert repaired[..|init|] == seq(|init|, i requires 0 <= i < |init| => End(init[i], now).repaired);
    }
  }

  /**
    An outage of the venue's lookup, whatever the orders, holds and positions: the cycle leaves every
    order and hold as it found them, tells the observer nothing and only counts; nothing is resolved or
    repaired, so not even the cycle's own record is due.
   */
  lemma {:induction false} OutageChangesNothing(holds: seq<Hold>, passes: seq<Pass>, now: int)
    requires AllFollow(passes, now)
    requires forall i :: 0 <= i < |passes| ==> passes[i].answer.LookupFailed?
    ensures forall i :: 0 <= i < |passes| ==> End(passes[i], now).cell == passes[i].start
    ensures HoldsOver(holds, passes, now) == holds && HooksOver(passes) == []
    ensures ReportOf(passes, now) == Counters(0, 0, UnknownAtStart(passes), |passes|)
  {
    if passes == [] {
    } else {
      var init, p := passes[..|passes| - 1], passes[|passes| - 1];
      OutageChangesNothing(holds, init, now);
      assert Follows(p, now) && End(p, now) == Stage(p.start, Keep, 0, 0) && p.outcome.hooks == [];
      forall i | 0 <= i < |passes|
        ensures End(passes[i], now).cell == passes[i].start
      {
        if i < |init| {
          assert passes[i] == init[i];
        }
      }
    }
  }

  /** Cancelled by absence exactly when the venue answered that it has no order and no position speaks against it. */
  lemma CancelledByAbsence(p: Pass, now: int)
    requires Follows(p, now) && !CutShort(p.outcome.verdict) && p.start.core.status !in TERMINAL
    requires !(p.answer.Found? && p.answer.order.status == CANCELLED)
    ensures End(p, now).cell.core.status == CANCELLED <==>
      && p.answer.NotFound? && !p.evidence
      && (CanTransition(p.start.core.status, CANCELLED)
        || (p.start.core.status == SUBMITTING && TimedOut(p.start, now)))
    ensures End(p, now).op == ReleaseHold <==> End(p, now).cell.core.status == CANCELLED
  {
  }

  /** The same, whatever stopped the pass: no other answer cancels an order or frees its budget. */
  lemma NeverCancelledOtherwise(p: Pass, now: int)
    requires Follows(p, now) && p.start.core.status !in TERMINAL
    requires !p.answer.NotFound? || p.evidence
    requires !(p.answer.Found? && p.answer.order.status == CANCELLED)
    ensures End(p, now).cell.core.status != CANCELLED && End(p, now).op != ReleaseHold
  {
  }

  /** A hold is released only once its order is cancelled, and committed only on a venue fill or an open position. */
  lemma HoldsSettleForAReason(p: Pass, now: int)
    requires Follows(p, now)
    ensures End(p, now).op == ReleaseHold ==> p.answer.NotFound? && End(p, now).cell.core.status == CANCELLED
    ensures End(p, now).op == CommitHold ==>
      p.answer.Found? && (p.answer.order.status == FILLED || End(p, now).cell.core.status == POSITION_OPEN)
  {
  }

  lemma OneHoldAfter(holds: seq<Hold>, reservationId: Option<string>, op: HoldOp, k: nat)
    requires k < |holds|
    ensures |HoldsAfter(holds, reservationId, op)| == |holds|
    ensures HoldsAfter(holds, reservationId, op)[k].id == holds[k].id
    ensures reservationId != Some(holds[k].id) ==> HoldsAfter(holds, reservationId, op)[k] == holds[k]
  {
  }

  lemma SameHoldAfter(a: seq<Hold>, b: seq<Hold>, reservationId: Option<string>, op: HoldOp, k: nat)
    requires k < |a| == |b| && a[k] == b[k]
    ensures |HoldsAfter(a, reservationId, op)| == |HoldsAfter(b, reservationId, op)| == |a|
    ensures HoldsAfter(a, reservationId, op)[k] == HoldsAfter(b, reservationId, op)[k]
  {
  }

  /** A hold no pass names keeps its state through the whole cycle. */
  lemma {:induction false} UnnamedHoldKept(holds: seq<Hold>, passes: seq<Pass>, now: int, k: nat)
    requires AllFollow(passes, now) && k < |holds|
    requires forall i :: 0 <= i < |passes| ==> passes[i].reservationId != Some(holds[k].id)
    ensures |HoldsOver(holds, passes, now)| == |holds| && HoldsOver(holds, passes, now)[k] == holds[k]
  {
    hide HoldsAfter, Follows, End;
    if passes == [] {
    } else {
      var init, p := passes[..|passes| - 1], passes[|passes| - 1];
      UnnamedHoldKept(holds, init, now, k);
      OneHoldAfter(HoldsOver(holds, init, now), p.reservationId, End(p, now).op, k);
    }
  }

  /** The hold of an order ends the cycle as that order's own pass leaves it, whatever the other passes did. */
  lemma {:induction false} HoldFollowsOwnPass(holds: seq<Hold>, passes: seq<Pass>, now: int, i: nat, k: nat)
    requires AllFollow(passes, now) && i < |passes| && k < |holds|
    requires passes[i].reservationId == Some(holds[k].id)
    requires forall j :: 0 <= j < |passes| && j != i ==> passes[j].reservationId != passes[i].reservationId
    ensures |HoldsOver(holds, passes, now)| == |HoldsAfter(holds, passes[i].reservationId, End(passes[i], now).op)|
      == |holds|
    ensures HoldsOver(holds, passes, now)[k] == HoldsAfter(holds, passes[i].reservationId, End(passes[i], now).op)[k]
  {
    hide HoldsAfter, Follows, End;
    var init, p := passes[..|passes| - 1], passes[|passes| - 1];
    OneHoldAfter(holds, passes[i].reservationId, End(passes[i], now).op, k);
    if i == |passes| - 1 {
      UnnamedHoldKept(holds, init, now, k);
      SameHoldAfter(HoldsOver(holds, init, now), holds, p.reservationId, End(p, now).op, k);
    } else {
      assert init[i] == passes[i];
      HoldFollowsOwnPass(holds, init, now, i, k);
      OneHoldAfter(HoldsOver(holds, init, now), p.reservationId, End(p, now).op, k);
    }
  }

  /** `q` is the pass of the same order in a later cycle with the same venue answer, positions and clock. */
  ghost predicate Repeats(p: Pass, q: Pass, now: int)
    requires Follows(p, now)
  {
    && q.id == p.id && q.reservationId == p.reservationId && q.start == End(p, now).cell
    && q.answer == p.answer && q.evidence == p.evidence
  }

  /** What a pass that ran to its end leaves for the next one to find. */
  lemma SettledEnd(p: Pass, now: int)
    requires Follows(p, now) && !CutShort(p.outcome.verdict) && End(p, now).cell.core.status !in TERMINAL
    ensures p.answer.NotFound? ==> p.evidence || End(p, now).cell == p.start
    ensures p.answer.Found? ==>
        var u, c := p.answer.order, End(p, now).cell;
        && c.core.filled.quantity == u.filledQuantity
        && (c.core.status == u.status || !CanTransition(c.core.status, u.status))
        && (u.status == FILLED && p.evidence ==>
          !CanTransition(c.core.status, POSITION_OPEN) || FoldThrows(c.core.status, u))
  {
    NoSelfLift();
    if p.answer.Found? {
      FoundCases(p.start, p.answer.order, p.evidence, now);
      FoldedFill(p.start, p.answer.order);
    }
  }

  /**
    Repeating a cycle is quiet: a second pass on the same answer changes neither status nor
    quantity, tells the observer nothing and leaves the hold where the first pass put it, even
    when it throws. It needs a first pass that was not cut short by a lost audit write or by the observer.
   */
  lemma SecondCycleIsQuiet(p: Pass, q: Pass, now: int, holds: seq<Hold>)
    requires Follows(p, now) && !CutShort(p.outcome.verdict) && Repeats(p, q, now) && Follows(q, now)
    requires q.start.core.status !in TERMINAL
    ensures End(q, now).cell.core.status == q.start.core.status
    ensures End(q, now).cell.core.filled.quantity == q.start.core.filled.quantity
    ensures q.outcome.hooks == []
    ensures HoldsAfter(HoldsAfter(holds, p.reservationId, End(p, now).op), q.reservationId, End(q, now).op)
      == HoldsAfter(holds, p.reservationId, End(p, now).op)
  {
    SettledEnd(p, now);
  }

  /** Passes of one order in consecutive cycles, all on the same answer, positions and clock, however they ended. */
  ghost predicate Cycles(passes: seq<Pass>, now: int) {
    && AllFollow(passes, now)
    && (forall i :: 0 <= i < |passes| - 1 ==> Repeats(passes[i], passes[i + 1], now))
  }

  /** A pass that folded leaves nothing new for a repeat to report, whatever cut either of them short. */
  lemma RepeatHearsNothing(p: Pass, q: Pass, now: int)
    requires Follows(p, now) && p.answer.Found? && Repeats(p, q, now) && Follows(q, now)
    ensures q.outcome.hooks == []
  {
    FoundCases(p.start, p.answer.order, p.evidence, now);
    FoldedFill(p.start, p.answer.order);
    assert End(p, now).cell.core.filled.quantity == p.answer.order.filledQuantity;
    assert !NewFill(q.start.core.filled, q.answer.order);
  }

  lemma {:induction false} LaterCyclesAreQuiet(passes: seq<Pass>, now: int)
    requires Cycles(passes, now) && passes != [] && passes[0].answer.Found?
    ensures HooksOver(passes) == passes[0].outcome.hooks
    ensures passes[|passes| - 1].answer.Found?
  {
    var init := passes[..|passes| - 1];
    if init == [] {
    } else {
      var n := |passes|;
      assert Repeats(passes[n - 2], passes[n - 1], now);
      assert Cycles(init, now) by {
        forall i | 0 <= i < |init| - 1
          ensures Repeats(init[i], init[i + 1], now)
        {
          assert Repeats(passes[i], passes[i + 1], now);
        }
      }
      LaterCyclesAreQuiet(init, now);
      RepeatHearsNothing(passes[n - 2], passes[n - 1], now);
    }
  }

  /**
    New quantity reported by the venue reaches the fills observer once over any number of cycles,
    or never. Never is exactly when the reported status is refused, since the refused fold has
    already overwritten the quantity, or when an audit record of the fold itself is lost.
   */
  lemma {:induction false} FillHeardOnceOrNever(passes: seq<Pass>, now: int)
    requires Cycles(passes, now) && passes != [] && passes[0].answer.Found?
    requires NewFill(passes[0].start.core.filled, passes[0].answer.order)
    ensures var first, u := passes[0], passes[0].answer.order;
      |HooksOver(passes)| ==
        if FoldThrows(first.start.core.status, u)
          || (first.outcome.verdict == Thrown(NotPersisted) && first.outcome.at == 1)
        then 0 else 1
    ensures HooksOver(passes) != [] ==>
      && HooksOver(passes)[0].intentId == passes[0].id
      && HooksOver(passes)[0].filledQuantity == passes[0].answer.order.filledQuantity
  {
    LaterCyclesAreQuiet(passes, now);
    assert Follows(passes[0], now);
  }

  /** A pass cut short by a lost audit write can lose a fill for good: the observer never hears of it. */
  lemma LostWriteLosesFill()
    ensures exists p: Pass, q: Pass :: (
      && Follows(p, 0) && CutShort(p.outcome.verdict) && Repeats(p, q, 0) && Follows(q, 0)
      && p.answer.Found? && NewFill(p.start.core.filled, p.answer.order)
      && !FoldThrows(p.start.core.status, p.answer.order)
      && p.outcome.hooks == [] && !CutShort(q.outcome.verdict) && q.outcome.hooks == [])
  {
    var u := BrokerOrder("o", FILLED, 1, Some(1.0));
    var start := Cell(Core(UNKNOWN, Slippage.Filled(0, None)), 0);
    var p := Pass("i", None, start, Found(u), false, Outcome(1, Thrown(NotPersisted), []));
    assert Folded(start, u, 0) == Cell(Core(FILLED, Slippage.Filled(1, Some(1.0))), 0);
    var q := Pass("i", None, Folded(start, u, 0), Found(u), false, Outcome(2, Done, []));
    assert Follows(p, 0) && Follows(q, 0);
    assert Repeats(p, q, 0);
  }

  // ---- two whole cycles ----

  /** No active hold is called `id`. */
  ghost predicate NoneActive(holds: seq<Hold>, id: string) {
    forall k :: 0 <= k < |holds| && holds[k].id == id ==> !holds[k].state.ACTIVE?
  }

  lemma SettlingNothing(holds: seq<Hold>, id: string, op: HoldOp)
    requires NoneActive(holds, id)
    ensures HoldsAfter(holds, Some(id), op) == holds
  {
  }

  lemma HoldsAfterEnds(holds: seq<Hold>, reservationId: Option<string>, op: HoldOp, id: string)
    ensures NoneActive(holds, id) ==> NoneActive(HoldsAfter(holds, reservationId, op), id)
    ensures reservationId == Some(id) && !op.Keep? ==> NoneActive(HoldsAfter(holds, reservationId, op), id)
  {
  }

  /** Once a pass has settled a hold, it stays settled through the rest of the cycle. */
  lemma {:induction false} SettledForTheCycle(holds: seq<Hold>, passes: seq<Pass>, now: int, i: nat, id: string)
    requires AllFollow(passes, now) && i < |passes|
    requires passes[i].reservationId == Some(id) && !End(passes[i], now).op.Keep?
    ensures NoneActive(HoldsOver(holds, passes, now), id)
  {
    hide HoldsAfter, NoneActive, Follows, End;
    var init, p := passes[..|passes| - 1], passes[|passes| - 1];
    if i >= |init| {
    } else {
      assert init[i] == passes[i];
      SettledForTheCycle(holds, init, now, i, id);
    }
    HoldsAfterEnds(HoldsOver(holds, init, now), p.reservationId, End(p, now).op, id);
  }

  /** A repeat settles its hold only if the first pass did. */
  lemma RepeatSettlesNothingNew(p: Pass, q: Pass, now: int)
    requires Follows(p, now) && !CutShort(p.outcome.verdict) && Repeats(p, q, now) && Follows(q, now)
    requires q.start.core.status !in TERMINAL
    ensures !End(q, now).op.Keep? ==> !End(p, now).op.Keep?
  {
    SettledEnd(p, now);
  }

  lemma {:induction false} NothingSettled(holds: seq<Hold>, passes: seq<Pass>, now: int)
    requires AllFollow(passes, now)
    requires forall j :: 0 <= j < |passes| ==>
      HoldsAfter(holds, passes[j].reservationId, End(passes[j], now).op) == holds
    ensures HoldsOver(holds, passes, now) == holds
  {
    hide HoldsAfter, Follows, End;
    if passes == [] {
    } else {
      NothingSettled(holds, passes[..|passes| - 1], now);
    }
  }

  lemma {:induction false} NothingHeard(passes: seq<Pass>)
    requires forall j :: 0 <= j < |passes| ==> passes[j].outcome.hooks == []
    ensures HooksOver(passes) == []
  {
    if passes == [] {
    } else {
      NothingHeard(passes[..|passes| - 1]);
    }
  }

  ghost predicate RepeatedIn(first: seq<Pass>, q: Pass, now: int)
    requires AllFollow(first, now)
  {
    exists i :: 0 <= i < |first| && Repeats(first[i], q, now)
  }

  /** Every pass of the second cycle repeats a pass of the first that ran to its end. */
  ghost predicate SecondOf(first: seq<Pass>, second: seq<Pass>, now: int) {
    && AllFollow(first, now) && AllFollow(second, now)
    && (forall i :: 0 <= i < |first| ==> !CutShort(first[i].outcome.verdict))
    && (forall j :: 0 <= j < |second| ==> second[j].start.core.status !in TERMINAL)
    && (forall j :: 0 <= j < |second| ==> RepeatedIn(first, second[j], now))
  }

  /** So the second cycle changes no status, tells the observer nothing and settles no hold. */
  lemma {:induction false} SecondOfIsQuiet(holds: seq<Hold>, first: seq<Pass>, second: seq<Pass>, now: int)
    requires SecondOf(first, second, now)
    ensures forall j :: 0 <= j < |second| ==>
      && End(second[j], now).cell.core.status == second[j].start.core.status
      && End(second[j], now).cell.core.filled.quantity == second[j].start.core.filled.quantity
    ensures HooksOver(second) == []
    ensures HoldsOver(HoldsOver(holds, first, now), second, now) == HoldsOver(holds, first, now)
  {
    var after := HoldsOver(holds, first, now);
    hide HoldsOver, HooksOver, HoldsAfter, Fits, Stages, End, Repeats;
    forall j | 0 <= j < |second|
      ensures End(second[j], now).cell.core.status == second[j].start.core.status
      ensures End(second[j], now).cell.core.filled.quantity == second[j].start.core.filled.quantity
      ensures second[j].outcome.hooks == []
      ensures HoldsAfter(after, second[j].reservationId, End(second[j], now).op) == after
    {
      assert RepeatedIn(first, second[j], now);
      var i :| 0 <= i < |first| && Repeats(first[i], second[j], now);
      SecondCycleIsQuiet(first[i], second[j], now, after);
      SecondSettlesNothing(holds, first, i, second[j], now);
    }
    NothingHeard(second);
    NothingSettled(after, second, now);
  }

  lemma {:induction false} SecondSettlesNothing(holds: seq<Hold>, first: seq<Pass>, i: nat, q: Pass, now: int)
    requires AllFollow(first, now) && i < |first| && !CutShort(first[i].outcome.verdict)
    requires Follows(q, now) && Repeats(first[i], q, now) && q.start.core.status !in TERMINAL
    ensures var after := HoldsOver(holds, first, now);
      HoldsAfter(after, q.reservationId, End(q, now).op) == after
  {
    hide HoldsOver, Fits, Stages, End, NoneActive;
    RepeatSettlesNothingNew(first[i], q, now);
    if q.reservationId.Some? && !End(q, now).op.Keep? {
      SettledForTheCycle(holds, first, now, i, q.reservationId.value);
      SettlingNothing(HoldsOver(holds, first, now), q.reservationId.value, End(q, now).op);
    }
  }

  /**
    Two cycles on the same answers, positions and clock: when nothing cut the first one short, the
    second leaves every status, every hold and the observer's history as the first one left them.
   */
  method ReconcileTwice(r: Reconciler, answers: map<string, Answer>, positions: Option<set<string>>, now: int)
    returns (ghost open: seq<TrackedOrder>, ghost first: seq<Pass>)
    requires r.Valid()
    modifies r.execution`cancelRequested, r.execution`remainderCancels, r.execution`hookCalls, r.execution`hookThrew
    modifies r.execution.orders.Values, r.execution.store, r.execution.journal, r.reservations.reservations.Values
    ensures r.Valid()
    ensures |open| == |first| && AllFollow(first, now)
    ensures forall i :: 0 <= i < |open| ==> open[i] in old(r.execution.orders.Values)
    ensures forall i :: 0 <= i < |open| ==> r.PassOf(first[i], open[i], old(CellOf(open[i])), answers, positions)
    ensures forall id :: id in r.execution.orders ==>
      (r.execution.orders[id] in open <==> old(r.execution.orders[id].status) !in TERMINAL)
    ensures (forall i :: 0 <= i < |first| ==> !CutShort(first[i].outcome.verdict)) ==>
      && (forall i :: 0 <= i < |open| ==> open[i].status == End(first[i], now).cell.core.status)
      && (forall id :: id in r.execution.orders && r.execution.orders[id] !in open ==>
            r.execution.orders[id].status == old(r.execution.orders[id].status))
      && r.execution.hookCalls == old(r.execution.hookCalls) + HooksOver(first)
      && r.reservations.View() == HoldsOver(old(r.reservations.View()), first, now)
  {
    hide Follows, End, Stages, HooksOver, HoldsOver, Lifecycle.IsRun, ExecutionEngine.View, RiskReservationManager.View,
      ReportOf, ExecutionEngine.Valid, RiskReservationManager.Valid;
    ghost var holds, hooks := r.reservations.View(), r.execution.hookCalls;
    ghost var steps;
    var checked, report, thrown;
    checked, report, thrown, open, first, steps := r.Reconcile(answers, positions, now);
    label Between:
    ghost var again, second;
    checked, report, thrown, again, second, steps := r.Reconcile(answers, positions, now);
    if forall i :: 0 <= i < |first| ==> !CutShort(first[i].outcome.verdict) {
      forall j | 0 <= j < |second|
        ensures second[j].start.core.status !in TERMINAL
        ensures RepeatedIn(first, second[j], now)
      {
        var t := again[j];
        assert r.Tracks(t);
        assert second[j].start == old@Between(CellOf(t)) && old@Between(t.status) !in TERMINAL;
        assert t !in open ==> old@Between(CellOf(t)) == old(CellOf(t));
        assert t in open;
        var i :| 0 <= i < |open| && open[i] == t;
        assert Repeats(first[i], second[j], now);
      }
      SecondOfIsQuiet(holds, first, second, now);
      forall id | id in r.execution.orders
        ensures r.execution.orders[id].status == old@Between(r.execution.orders[id].status)
      {
        var t := r.execution.orders[id];
        if t in again {
          var j :| 0 <= j < |again| && again[j] == t;
          assert CellOf(t) == End(second[j], now).cell && second[j].start == old@Between(CellOf(t));
        }
      }
      forall i | 0 <= i < |open|
        ensures open[i].status == End(first[i], now).cell.core.status
      {
        assert open[i] == r.execution.orders[open[i].intentId];
        assert old@Between(CellOf(open[i])) == End(first[i], now).cell;
      }
    }
  }
}
