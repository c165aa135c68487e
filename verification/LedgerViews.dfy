/**
  The ledger seen from the venue: what the views handed to `record` alone, side by side with no
  ledger in between, say about the net position, the money and the recorded notional.
 */
module LedgerViews {
  import opened Prelude
  import opened LedgerModel
  import opened LedgerTheorems
  import opened FillsLedger
  import opened LedgerHistory

  // ---- what the views say ----

  /** The cumulative quantity of a decision that the run has seen so far, counting priced views only. */
  function SeenFor(inputs: seq<Input>, d: string): int {
    if inputs == [] then 0
    else
      var before := SeenFor(inputs[..|inputs| - 1], d);
      match inputs[|inputs| - 1]
      case RecordCall(v, _, _) =>
        if v.intentId == d && v.avgFillPrice.Some? && v.filledQuantity > before then v.filledQuantity else before
      case _ => before
  }

  /** How much of a view is new after the run. */
  function NewUnits(inputs: seq<Input>, v: FilledView): int {
    if v.avgFillPrice.Some? && v.filledQuantity > SeenFor(inputs, v.intentId)
    then v.filledQuantity - SeenFor(inputs, v.intentId)
    else 0
  }

  /** How `q` new units move a signed net: entries in full, everything else only towards zero. */
  function Moves(net: int, side: Side, intentType: IntentType, q: int): int {
    match intentType
    case ENTRY => (match side case Buy => q case Sell => -q)
    case _ => if net > 0 then (if q < net then -q else -net) else if q < -net then q else -net
  }

  /** The signed net of a symbol. */
  function ViewNet(inputs: seq<Input>, symbol: string): int {
    if inputs == [] then 0
    else
      var before := inputs[..|inputs| - 1];
      var net := ViewNet(before, symbol);
      match inputs[|inputs| - 1]
      case RecordCall(v, _, _) =>
        if v.symbol == symbol then net + Moves(net, v.side, v.intentType, NewUnits(before, v)) else net
      case _ => net
  }

  function Money(units: int, each: real): real {
    units as real * each
  }

  /** The money: every move of a net, paid at its view's average and worth its symbol's mark. */
  ghost function ViewFlow(inputs: seq<Input>, mark: string -> real): real {
    if inputs == [] then 0.0
    else
      var before := inputs[..|inputs| - 1];
      match inputs[|inputs| - 1]
      case RecordCall(v, _, _) =>
        if NewUnits(before, v) == 0 then ViewFlow(before, mark)
        else
          ViewFlow(before, mark) + Money(Moves(ViewNet(before, v.symbol), v.side, v.intentType, NewUnits(before, v)),
                                         mark(v.symbol) - v.avgFillPrice.value)
      case _ => ViewFlow(before, mark)
  }

  /** What the ledger shows: the open quantity of a symbol, negative for a sold one. */
  function ShownNet(s: Ledger, symbol: string): int {
    match OpenOf(s, symbol)
    case None => 0
    case Some(p) => (match p.side case Buy => Total(p.lots) case Sell => -Total(p.lots))
  }

  // ---- the ledger counts what the views say ----

  /** No fill of the run arrived after a full close had dropped its decision's counter. */
  ghost predicate NoLateFill(inputs: seq<Input>, venue: Venue) {
    forall d: string :: !FilledAfterForgetting(AcceptedFills(inputs, venue), d)
  }

  ghost predicate Orderly(inputs: seq<Input>, venue: Venue) {
    Unharmed(inputs, venue) && Named(inputs) && NoLateFill(inputs, venue)
  }

  lemma {:induction false} OrderlyPrefix(inputs: seq<Input>, venue: Venue)
    requires inputs != [] && Orderly(inputs, venue)
    ensures Orderly(inputs[..|inputs| - 1], venue)
  {
    var before := inputs[..|inputs| - 1];
    NamedPrefix(inputs, venue);
    hide Unharmed, Named, Recorded, Forgets;
    forall d: string
      ensures !FilledAfterForgetting(AcceptedFills(before, venue), d)
    {
      assert !FilledAfterForgetting(AcceptedFills(inputs, venue), d);
      AcceptedPrefix(inputs, venue);
    }
  }

  lemma {:induction false} AcceptedPrefix(inputs: seq<Input>, venue: Venue)
    requires inputs != []
    ensures var before, fills := AcceptedFills(inputs[..|inputs| - 1], venue), AcceptedFills(inputs, venue);
      fills == before || (fills != [] && fills[..|fills| - 1] == before)
  {
    hide DeltaFill, Accepts, Run;
  }

  /** The counter of a decision is its last view, or nothing once it was dropped. */
  lemma {:induction false} CounterIsLastView(fills: seq<Fill>, d: string)
    requires Recorded(fills) && !FilledAfterForgetting(fills, d)
    ensures Counter(FoldAll(Empty(), fills), d) <= LastView(fills, d)
    ensures !Forgotten(fills, d) ==> Counter(FoldAll(Empty(), fills), d) == LastView(fills, d)
  {
    TallyHolds(fills, d);
    RecordedIsPositive(fills);
    DeliveredGrows(fills, d);
  }

  lemma {:induction false} AcceptedSnoc(inputs: seq<Input>, venue: Venue, v: FilledView, at: int, w: Writes)
    requires inputs != [] && inputs[|inputs| - 1] == RecordCall(v, at, w)
    requires Accepts(Run(inputs[..|inputs| - 1], venue).ledger, v)
    ensures v.avgFillPrice.Some?
    ensures var before := inputs[..|inputs| - 1];
      AcceptedFills(inputs, venue) == AcceptedFills(before, venue) + [DeltaFill(Run(before, venue).ledger, v, at)]
  {
    hide Run, DeltaFill;
  }

  lemma {:induction false} LateIfForgotten(fills: seq<Fill>, f: Fill)
    ensures Forgotten(fills, f.decisionId) ==> FilledAfterForgetting(fills + [f], f.decisionId)
  {
    hide Forgotten;
    assert (fills + [f])[..|fills|] == fills;
  }

  lemma DeltaIsItsView(s: Ledger, v: FilledView, at: int)
    requires v.avgFillPrice.Some?
    ensures FillOf(DeltaFill(s, v, at), v, at, v.filledQuantity - Counter(s, v.intentId))
    ensures DeltaFill(s, v, at).decisionId == v.intentId
  {
  }

  /** One accepted call of an orderly run: its fill is its view, and its decision's counter was not dropped before. */
  lemma {:induction false} AcceptedCall(inputs: seq<Input>, venue: Venue, v: FilledView, at: int, w: Writes)
    requires inputs != [] && Orderly(inputs, venue) && inputs[|inputs| - 1] == RecordCall(v, at, w)
    requires Accepts(Run(inputs[..|inputs| - 1], venue).ledger, v)
    ensures v.avgFillPrice.Some?
    ensures var before := inputs[..|inputs| - 1];
      var fills, f := AcceptedFills(before, venue), DeltaFill(Run(before, venue).ledger, v, at);
      && AcceptedFills(inputs, venue) == fills + [f] && !Forgotten(fills, v.intentId)
      && FillOf(f, v, at, v.filledQuantity - Counter(Run(before, venue).ledger, v.intentId))
  {
    hide *;
    AcceptedSnoc(inputs, venue, v, at, w);
    var before := inputs[..|inputs| - 1];
    var s := Run(before, venue).ledger;
    DeltaIsItsView(s, v, at);
    LateIfForgotten(AcceptedFills(before, venue), DeltaFill(s, v, at));
    NotLate(inputs, venue, v.intentId);
  }

  lemma {:induction false} NotLate(inputs: seq<Input>, venue: Venue, d: string)
    requires Orderly(inputs, venue)
    ensures !FilledAfterForgetting(AcceptedFills(inputs, venue), d)
  {
    hide Unharmed, Named, AcceptedFills, FilledAfterForgetting;
  }

  lemma {:induction false} RefusedCall(inputs: seq<Input>, venue: Venue, v: FilledView, at: int, w: Writes)
    requires inputs != [] && inputs[|inputs| - 1] == RecordCall(v, at, w)
    requires !Accepts(Run(inputs[..|inputs| - 1], venue).ledger, v)
    ensures AcceptedFills(inputs, venue) == AcceptedFills(inputs[..|inputs| - 1], venue)
  {
    hide Run, Accepts;
  }

  lemma {:induction false} QuietInput(inputs: seq<Input>, venue: Venue)
    requires inputs != [] && !inputs[|inputs| - 1].RecordCall?
    ensures AcceptedFills(inputs, venue) == AcceptedFills(inputs[..|inputs| - 1], venue)
  {
    hide Run;
  }

  /** While no fill comes late, a decision's last recorded view is the last one seen. */
  lemma {:induction false} CountsAsSeen(inputs: seq<Input>, venue: Venue, d: string)
    requires Orderly(inputs, venue)
    ensures LastView(AcceptedFills(inputs, venue), d) == SeenFor(inputs, d)
    decreases |inputs|, 1
  {
    if inputs == [] {
    } else {
      var before := inputs[..|inputs| - 1];
      var fills := AcceptedFills(before, venue);
      OrderlyPrefix(inputs, venue);
      CountsAsSeen(before, venue, d);
      match inputs[|inputs| - 1]
      case RecordCall(v, at, w) =>
        CallCountsAsSeen(inputs, venue, v, at, w);
        hide Run, Unharmed, Named, NoLateFill, DeltaFill;
        if Accepts(Run(before, venue).ledger, v) {
          AcceptedCall(inputs, venue, v, at, w);
          var f := DeltaFill(Run(before, venue).ledger, v, at);
          assert (fills + [f])[..|fills|] == fills;
        } else {
          RefusedCall(inputs, venue, v, at, w);
        }
      case _ =>
        QuietInput(inputs, venue);
    }
  }

  /** A call is accepted exactly when its view shows something new, and counted from what was seen. */
  lemma {:induction false} CallCountsAsSeen(inputs: seq<Input>, venue: Venue, v: FilledView, at: int, w: Writes)
    requires inputs != [] && Orderly(inputs, venue) && inputs[|inputs| - 1] == RecordCall(v, at, w)
    ensures var before := inputs[..|inputs| - 1];
      && (Accepts(Run(before, venue).ledger, v) <==> NewUnits(before, v) > 0)
      && (NewUnits(before, v) > 0 ==>
            NewUnits(before, v) == v.filledQuantity - Counter(Run(before, venue).ledger, v.intentId))
    decreases |inputs|, 0
  {
    var before := inputs[..|inputs| - 1];
    OrderlyPrefix(inputs, venue);
    CountsAsSeen(before, venue, v.intentId);
    RunIsRecorded(before, venue);
    assert !FilledAfterForgetting(AcceptedFills(before, venue), v.intentId);
    CounterIsLastView(AcceptedFills(before, venue), v.intentId);
    hide Unharmed, Named, Run, Recorded, NoLateFill, Forgotten;
    if Accepts(Run(before, venue).ledger, v) {
      AcceptedCall(inputs, venue, v, at, w);
    }
  }

  /** The ledger's net of a symbol is what the views alone add up to. */
  lemma {:induction false} NetIsViewNet(inputs: seq<Input>, venue: Venue, symbol: string)
    requires Orderly(inputs, venue)
    ensures NetRun(AcceptedFills(inputs, venue), symbol) == ViewNet(inputs, symbol)
  {
    if inputs == [] {
    } else {
      var before := inputs[..|inputs| - 1];
      OrderlyPrefix(inputs, venue);
      NetIsViewNet(before, venue, symbol);
      match inputs[|inputs| - 1]
      case RecordCall(v, at, w) =>
        CallCountsAsSeen(inputs, venue, v, at, w);
        if Accepts(Run(before, venue).ledger, v) {
          AcceptedCall(inputs, venue, v, at, w);
          var f := DeltaFill(Run(before, venue).ledger, v, at);
          MovesIsEffective(ViewNet(before, symbol), f, v, at, NewUnits(before, v));
          hide Orderly, Run, DeltaFill, Accepts, AcceptedFills, Moves, Effective, FillOf, NewUnits;
          NetSnoc(AcceptedFills(before, venue), f, symbol);
        } else {
          RefusedCall(inputs, venue, v, at, w);
        }
      case _ =>
        QuietInput(inputs, venue);
    }
  }

  lemma MovesIsEffective(net: int, f: Fill, v: FilledView, at: int, units: int)
    requires FillOf(f, v, at, units)
    ensures Effective(net, f) == Moves(net, v.side, v.intentType, units)
    ensures f.symbol == v.symbol
  {
  }

  lemma {:induction false} NetSnoc(fills: seq<Fill>, f: Fill, symbol: string)
    ensures NetRun(fills + [f], symbol)
      == NetRun(fills, symbol) + if f.symbol == symbol then Effective(NetRun(fills, symbol), f) else 0
  {
    assert (fills + [f])[..|fills|] == fills;
  }

  /** The signed net of a book is the quantity its position shows. */
  lemma ShownIsNet(s: Ledger, symbol: string)
    requires Inv(s)
    ensures ShownNet(s, symbol) == NetOf(BookOf(s, symbol))
  {
    if OpenOf(s, symbol).Some? {
      UnitsLength(OpenOf(s, symbol).value.lots);
    }
  }

  /**
    From the venue's views to the open position: after any orderly run, restarts included, a symbol
    shows the quantity its views bought less the one they sold, exits counted only towards zero.
   */
  lemma {:induction false} PositionFollowsViews(inputs: seq<Input>, venue: Venue, symbol: string)
    requires Orderly(inputs, venue)
    ensures ShownNet(Run(inputs, venue).ledger, symbol) == ViewNet(inputs, symbol)
  {
    var fills := AcceptedFills(inputs, venue);
    RunIsRecorded(inputs, venue);
    RecordedIsPositive(fills);
    RunRefines(fills, symbol);
    ShownIsNet(Run(inputs, venue).ledger, symbol);
    NetIsViewNet(inputs, venue, symbol);
  }

  lemma {:induction false} FlowIsViewFlow(inputs: seq<Input>, venue: Venue, mark: string -> real)
    requires Orderly(inputs, venue)
    ensures MarkedFlow(AcceptedFills(inputs, venue), mark) == ViewFlow(inputs, mark)
  {
    if inputs == [] {
    } else {
      hide *;
      var before := inputs[..|inputs| - 1];
      OrderlyPrefix(inputs, venue);
      FlowIsViewFlow(before, venue, mark);
      match inputs[|inputs| - 1]
      case RecordCall(v, at, w) =>
        CallCountsAsSeen(inputs, venue, v, at, w);
        ViewFlowCall(inputs, v, at, w, mark);
        if Accepts(Run(before, venue).ledger, v) {
          AcceptedCall(inputs, venue, v, at, w);
          var f := DeltaFill(Run(before, venue).ledger, v, at);
          NetIsViewNet(before, venue, v.symbol);
          MovesIsEffective(ViewNet(before, v.symbol), f, v, at, NewUnits(before, v));
          FlowSnoc(AcceptedFills(before, venue), f, mark);
          assert Some(f.price) == v.avgFillPrice by { FillOfParts(f, v, at, NewUnits(before, v)); }
        } else {
          RefusedCall(inputs, venue, v, at, w);
        }
      case _ =>
        QuietInput(inputs, venue);
        QuietViews(inputs, mark);
    }
  }

  lemma FillOfParts(f: Fill, v: FilledView, at: int, units: int)
    requires FillOf(f, v, at, units)
    ensures Some(f.price) == v.avgFillPrice && f.quantity == units && f.decisionId == v.intentId
  {
  }

  lemma {:induction false} ViewFlowCall(inputs: seq<Input>, v: FilledView, at: int, w: Writes, mark: string -> real)
    requires inputs != [] && inputs[|inputs| - 1] == RecordCall(v, at, w)
    ensures var before := inputs[..|inputs| - 1];
      && NewUnits(before, v) >= 0 && (NewUnits(before, v) > 0 ==> v.avgFillPrice.Some?)
      && ViewFlow(inputs, mark) == ViewFlow(before, mark) +
           if NewUnits(before, v) == 0 then 0.0
           else Money(Moves(ViewNet(before, v.symbol), v.side, v.intentType, NewUnits(before, v)),
                      mark(v.symbol) - v.avgFillPrice.value)
  {
    hide Moves, ViewNet, SeenFor, Money;
  }

  lemma {:induction false} QuietViews(inputs: seq<Input>, mark: string -> real)
    requires inputs != [] && !inputs[|inputs| - 1].RecordCall?
    ensures ViewFlow(inputs, mark) == ViewFlow(inputs[..|inputs| - 1], mark)
  {
  }

  lemma {:induction false} FlowSnoc(fills: seq<Fill>, f: Fill, mark: string -> real)
    ensures MarkedFlow(fills + [f], mark)
      == MarkedFlow(fills, mark) + Money(Effective(NetRun(fills, f.symbol), f), mark(f.symbol) - f.price)
  {
    hide Effective, NetRun;
    assert (fills + [f])[..|fills|] == fills;
  }

  /** From the venue's views to the money: realized profit plus open worth is the marked flow of the views. */
  lemma {:induction false} MoneyFollowsViews(inputs: seq<Input>, venue: Venue, mark: string -> real)
    requires Orderly(inputs, venue)
    ensures Wealth(Run(inputs, venue).ledger, mark) == ViewFlow(inputs, mark)
  {
    var fills := AcceptedFills(inputs, venue);
    RunIsRecorded(inputs, venue);
    RecordedIsPositive(fills);
    Conservation(fills, mark);
    FlowIsViewFlow(inputs, venue, mark);
  }

  // ---- what the ledger pays for a decision, and what the venue charged ----

  /** Quantity times recorded price, over the fills of a decision. */
  function Paid(fills: seq<Fill>, d: string): real {
    if fills == [] then 0.0
    else
      var f := fills[|fills| - 1];
      Paid(fills[..|fills| - 1], d) + if f.decisionId == d then Money(f.quantity, f.price) else 0.0
  }

  /** The average of the last view that showed something new. */
  function SeenAverage(inputs: seq<Input>, d: string): real {
    if inputs == [] then 0.0
    else
      var before := inputs[..|inputs| - 1];
      match inputs[|inputs| - 1]
      case RecordCall(v, _, _) =>
        if v.intentId == d && NewUnits(before, v) > 0 then v.avgFillPrice.value else SeenAverage(before, d)
      case _ => SeenAverage(before, d)
  }

  /** The venue's bill: final average times final quantity. */
  function Billed(inputs: seq<Input>, d: string): real {
    Money(SeenFor(inputs, d), SeenAverage(inputs, d))
  }

  /** Every change of the average, times the quantity it was changed for. */
  function Drift(inputs: seq<Input>, d: string): real {
    if inputs == [] then 0.0
    else
      var before := inputs[..|inputs| - 1];
      match inputs[|inputs| - 1]
      case RecordCall(v, _, _) =>
        Drift(before, d) +
        if v.intentId == d && NewUnits(before, v) > 0
        then Money(SeenFor(before, d), v.avgFillPrice.value - SeenAverage(before, d))
        else 0.0
      case _ => Drift(before, d)
  }

  /**
    Each new quantity is recorded at the running average, not at what it cost. What the ledger has
    paid for a decision therefore misses the venue's bill, final average times final quantity, by
    exactly the drift of the average: the two agree if and only if the changes of the average,
    weighted by what was filled before, cancel out.
   */
  lemma {:induction false} PaidIsBilledLessDrift(inputs: seq<Input>, venue: Venue, d: string)
    requires Orderly(inputs, venue)
    ensures Paid(AcceptedFills(inputs, venue), d) == Billed(inputs, d) - Drift(inputs, d)
  {
    if inputs == [] {
    } else {
      hide *;
      var before := inputs[..|inputs| - 1];
      OrderlyPrefix(inputs, venue);
      PaidIsBilledLessDrift(before, venue, d);
      match inputs[|inputs| - 1]
      case RecordCall(v, at, w) =>
        CallCountsAsSeen(inputs, venue, v, at, w);
        BillOfCall(inputs, v, at, w, d);
        if Accepts(Run(before, venue).ledger, v) {
          AcceptedCall(inputs, venue, v, at, w);
          var f := DeltaFill(Run(before, venue).ledger, v, at);
          PaidSnoc(AcceptedFills(before, venue), f, d);
          FillOfParts(f, v, at, NewUnits(before, v));
        } else {
          RefusedCall(inputs, venue, v, at, w);
        }
      case _ =>
        QuietInput(inputs, venue);
        QuietBill(inputs, d);
    }
  }

  /** What one call adds to the bill, less what it adds to the drift, is its new units at its average. */
  lemma {:induction false} BillOfCall(inputs: seq<Input>, v: FilledView, at: int, w: Writes, d: string)
    requires inputs != [] && inputs[|inputs| - 1] == RecordCall(v, at, w)
    ensures var before := inputs[..|inputs| - 1];
      && NewUnits(before, v) >= 0 && (NewUnits(before, v) > 0 ==> v.avgFillPrice.Some?)
      && Billed(inputs, d) - Drift(inputs, d) == Billed(before, d) - Drift(before, d) +
           if v.intentId == d && NewUnits(before, v) > 0
           then Money(NewUnits(before, v), v.avgFillPrice.value)
           else 0.0
  {
    hide Money;
    var before := inputs[..|inputs| - 1];
    if v.intentId == d && NewUnits(before, v) > 0 {
      BillStep(SeenFor(before, d), v.filledQuantity, SeenAverage(before, d), v.avgFillPrice.value);
      assert SeenFor(inputs, d) == v.filledQuantity;
    }
  }

  lemma {:induction false} QuietBill(inputs: seq<Input>, d: string)
    requires inputs != [] && !inputs[|inputs| - 1].RecordCall?
    ensures Billed(inputs, d) == Billed(inputs[..|inputs| - 1], d)
    ensures Drift(inputs, d) == Drift(inputs[..|inputs| - 1], d)
  {
  }

  lemma {:induction false} PaidSnoc(fills: seq<Fill>, f: Fill, d: string)
    ensures Paid(fills + [f], d) == Paid(fills, d) + if f.decisionId == d then Money(f.quantity, f.price) else 0.0
  {
    hide Money;
    assert (fills + [f])[..|fills|] == fills;
  }

  lemma BillStep(q: int, r: int, a: real, b: real)
    ensures Money(r, b) - Money(q, b - a) == Money(q, a) + Money(r - q, b)
  {
    assert (r - q) as real == r as real - q as real;
  }

  /** Two partial fills, one at 100 and one that brings the average to 110: the ledger pays 210 of a bill of 220. */
  lemma PartialFillsMissTheBill(first: Input, second: Input)
    requires first.RecordCall? && first.view == FilledView("e", "S", Buy, ENTRY, 1, Some(100.0))
    requires second.RecordCall? && second.view == FilledView("e", "S", Buy, ENTRY, 2, Some(110.0))
    ensures Billed([first, second], "e") == 220.0 && Drift([first, second], "e") == 10.0
  {
    assert [first][..0] == [] && [first, second][..1] == [first];
    assert SeenFor([first], "e") == 1 && SeenAverage([first], "e") == 100.0 && Drift([first], "e") == 0.0;
    assert NewUnits([first], second.view) == 1 && SeenFor([first, second], "e") == 2;
  }

  /**
    A restart forgets that an order was an exit. Recorded as an entry, its fill moves the net as the
    exit would have if and only if it is against the position and not larger than it.
   */
  lemma EntryForExitExactly(net: int, side: Side, q: int)
    requires q > 0
    ensures Moves(net, side, ENTRY, q) == Moves(net, side, EXIT, q) <==>
      match side case Buy => q <= -net case Sell => q <= net
  {
  }
}
