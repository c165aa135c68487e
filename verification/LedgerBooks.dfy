/** The profit each position books for itself, and what the close records say about it. */
module LedgerBooks {
  import opened Prelude
  import opened LedgerModel
  import opened LedgerTheorems
  import opened FillsLedger
  import opened LedgerHistory

  /** What the open positions have realized so far. */
  ghost function OpenRealized(positions: map<PosId, Pos>): real {
    if positions == map[] then 0.0
    else
      var id :| id in positions;
      positions[id].realized + OpenRealized(positions - {id})
  }

  /** What the closed positions of a log had realized. */
  function ClosedRealized(events: seq<Event>): real {
    if events == [] then 0.0
    else
      ClosedRealized(events[..|events| - 1]) +
        match events[|events| - 1]
        case PositionClosed(_, realized, _, _, _) => realized
        case _ => 0.0
  }

  lemma {:induction false} OpenRealizedWithout(positions: map<PosId, Pos>, id: PosId)
    requires id in positions
    ensures OpenRealized(positions) == positions[id].realized + OpenRealized(positions - {id})
    decreases |positions|
  {
    var first :| first in positions &&
      OpenRealized(positions) == positions[first].realized + OpenRealized(positions - {first});
    if first == id {
    } else {
      OpenRealizedWithout(positions - {first}, id);
      OpenRealizedWithout(positions - {id}, first);
      assert (positions - {first}) - {id} == (positions - {id}) - {first};
    }
  }

  lemma OpenRealizedSet(positions: map<PosId, Pos>, p: Pos)
    ensures OpenRealized(positions[p.id := p]) == p.realized + OpenRealized(positions - {p.id})
  {
    OpenRealizedWithout(positions[p.id := p], p.id);
    assert positions[p.id := p] - {p.id} == positions - {p.id};
  }

  lemma {:induction false} ClosedConcat(a: seq<Event>, b: seq<Event>)
    ensures ClosedRealized(a + b) == ClosedRealized(a) + ClosedRealized(b)
  {
    if b == [] {
      assert a + b == a;
    } else {
      assert (a + b)[..|a + b| - 1] == a + b[..|b| - 1];
      ClosedConcat(a, b[..|b| - 1]);
    }
  }

  lemma ClosedOfOne(e: Event)
    ensures ClosedRealized([]) == 0.0
    ensures ClosedRealized([e]) == match e case PositionClosed(_, realized, _, _, _) => realized case _ => 0.0
  {
    assert [e][..0] == [];
  }

  // ---- one fold ----

  /** The profit of positions no longer open: what was realized in all, less what the open ones account for. */
  ghost function ClosedProfit(s: Ledger): real {
    s.realized.total - OpenRealized(s.positions)
  }

  lemma CloseSettles(s: Ledger, p: Pos, f: Fill)
    requires p.id in s.positions && s.positions[p.id] == p
    ensures ClosedProfit(LedgerModel.CloseFifo(s, p, f)) == ClosedProfit(s) + ClosedRealized(CloseEvents(p, f))
  {
    hide Closing, PnlSum;
    OpenRealizedWithout(s.positions, p.id);
    OpenRealizedSet(s.positions, Reduced(p, f));
    OpenRealizedWithout(Booked(s, p, f).positions, p.id);
    if ClosesFully(p, f) {
      ClosedOfOne(CloseEvents(p, f)[0]);
    }
  }

  lemma OpenSettles(s: Ledger, f: Fill)
    requires OpenedBy(f).id !in s.positions
    ensures ClosedProfit(OpenPosition(s, f)) == ClosedProfit(s)
  {
    OpenRealizedSet(s.positions, OpenedBy(f));
    assert s.positions - {OpenedBy(f).id} == s.positions;
  }

  lemma ScaleInSettles(s: Ledger, p: Pos, f: Fill)
    requires p.id in s.positions && s.positions[p.id] == p
    ensures ClosedProfit(ScaleIn(s, p, f)) == ClosedProfit(s)
  {
    OpenRealizedWithout(s.positions, p.id);
    OpenRealizedSet(s.positions, p.(lots := p.lots + [LotOf(f)]));
  }

  lemma FlipSettles(s: Ledger, p: Pos, f: Fill)
    requires Inv(s) && f.quantity > Total(p.lots) > 0 && OpenOf(s, f.symbol) == Some(p)
    ensures ClosedProfit(OpenPosition(LedgerModel.CloseFifo(s, p, f), Remainder(p, f)))
      == ClosedProfit(s) + ClosedRealized(CloseEvents(p, f))
  {
    hide Inv, LedgerModel.CloseFifo, OpenPosition, CloseEvents, ClosedProfit, OpenOf, BookOf, Total;
    OpenIsStored(s, f.symbol, p);
    CloseSettles(s, p, f);
    CloseKeepsInv(s, p, f);
    CloseBook(s, p, f);
    NoneAfterFullClose(s, p, f);
    OpenKeepsInv(LedgerModel.CloseFifo(s, p, f), Remainder(p, f));
    OpenSettles(LedgerModel.CloseFifo(s, p, f), Remainder(p, f));
  }

  lemma NoneAfterFullClose(s: Ledger, p: Pos, f: Fill)
    requires Inv(s) && f.quantity > Total(p.lots) > 0 && OpenOf(s, f.symbol) == Some(p)
    ensures f.symbol !in LedgerModel.CloseFifo(s, p, f).openBySymbol
    ensures Remainder(p, f).symbol == f.symbol && Remainder(p, f).quantity > 0
  {
    CloseShape(s, p, f);
    OpenIsStored(s, f.symbol, p);
    hide Inv, Closing, Reduced;
  }

  lemma ClosedInNet(p: Pos, f: Fill)
    ensures ClosedRealized(NetEvents(p, f)) == ClosedRealized(CloseEvents(p, f))
  {
    hide CloseEvents;
    ClosedOfOne(OpenedEvent(Remainder(p, f)));
    ClosedConcat(CloseEvents(p, f), [OpenedEvent(Remainder(p, f))]);
  }

  /** One fill: what is realized and no longer on an open position is what its close record says. */
  lemma AttributeSettles(s: Ledger, f: Fill)
    requires Inv(s) && f.quantity > 0
    ensures ClosedProfit(Attribute(s, f)) == ClosedProfit(s) + ClosedRealized(Lifecycle(s, f))
  {
    hide Inv, LedgerModel.CloseFifo, OpenPosition, ScaleIn, CloseEvents, NetEvents, ClosedProfit, Total;
    ClosedOfOne(OpenedEvent(f));
    match OpenOf(s, f.symbol)
    case None =>
      if f.intentType.ENTRY? {
        NoneIsAbsent(s, f.symbol);
        OpenKeepsInv(s, f);
        OpenSettles(s, f);
      }
    case Some(p) =>
      OpenIsStored(s, f.symbol, p);
      CloseSettles(s, p, f);
      ScaleInSettles(s, p, f);
      ClosedInNet(p, f);
      CloseShape(s, p, f);
      if Remainder(p, f).quantity > 0 {
        FlipSettles(s, p, f);
      }
  }

  /** Every allocation counts once. */
  lemma FoldCounts(s: Ledger, f: Fill)
    ensures Fold(s, f).realized.count == s.realized.count + |AllocationsOf(s, f)|
  {
    hide Closing, Reduced, Total;
    assert OpenOf(Noted(s, f), f.symbol) == OpenOf(s, f.symbol);
  }

  // ---- over a run ----

  ghost predicate ClosesLogged(inputs: seq<Input>) {
    forall i :: 0 <= i < |inputs| && inputs[i].RecordCall? ==> inputs[i].writes.closing.Kept?
  }

  lemma {:induction false} WrittenCloses(events: seq<Event>, w: Writes)
    requires w.closing.Kept?
    ensures ClosedRealized(Written(events, w)) == ClosedRealized(events)
  {
    if events == [] {
    } else {
      var init, last := events[..|events| - 1], events[|events| - 1];
      WrittenCloses(init, w);
      ClosedOfOne(last);
      ClosedConcat(Written(init, w), if Reaches(last, w) then [last] else []);
    }
  }

  lemma {:induction false} CallSettles(s: Ledger, v: FilledView, at: int, w: Writes)
    requires Inv(s) && Accepts(s, v) && w.closing.Kept?
    ensures var p := AsPayload(DeltaFill(s, v, at));
      && Inv(LiveLedger(s, p, w))
      && ClosedProfit(LiveLedger(s, p, w))
         == ClosedProfit(s) + ClosedRealized(Written([FillRecorded(p)], w) + LiveEvents(s, p, w))
  {
    var f := DeltaFill(s, v, at);
    var p := AsPayload(f);
    hide Inv, Noted, Attribute, Lifecycle, Written, OpenOf, OpenRealized;
    WrittenCloses([FillRecorded(p)], w);
    ClosedOfOne(FillRecorded(p));
    ClosedConcat(Written([FillRecorded(p)], w), LiveEvents(s, p, w));
    if Usable(p) {
      assert Complete(p) == f;
      NotedKeepsInv(s, f);
      AttributeKeepsInv(Noted(s, f), f);
      AttributeSettles(Noted(s, f), f);
      WrittenCloses(Lifecycle(Noted(s, f), f), w);
      NotedSettles(s, f);
    }
  }

  lemma NotedSettles(s: Ledger, f: Fill)
    ensures ClosedProfit(Noted(s, f)) == ClosedProfit(s)
  {
  }

  /** One step: the close records move with the profit of the closed positions. */
  lemma StepSettles(w: World, input: Input, venue: Venue)
    requires Inv(w.ledger) && !input.Restart?
    requires input.RecordCall? ==> input.writes.closing.Kept?
    ensures var t := Step(w, input, venue);
      && Inv(t.ledger)
      && ClosedProfit(t.ledger) - ClosedRealized(t.log) == ClosedProfit(w.ledger) - ClosedRealized(w.log)
  {
    hide Inv, LiveLedger, LiveEvents, LiveCalls, Written, DeltaFill, ClosedProfit, ClosedRealized;
    match input
    case OtherEvent(kind) =>
      ClosedOfOne(Foreign(kind));
      ClosedConcat(w.log, [Foreign(kind)]);
    case RecordCall(v, at, writes) =>
      if Accepts(w.ledger, v) {
        CallSettles(w.ledger, v, at, writes);
        var p := AsPayload(DeltaFill(w.ledger, v, at));
        var events := Written([FillRecorded(p)], writes) + LiveEvents(w.ledger, p, writes);
        assert Step(w, input, venue).log == w.log + events;
        ClosedConcat(w.log, events);
      }
  }

  lemma {:induction false} UnharmedPrefix(inputs: seq<Input>, venue: Venue)
    requires inputs != [] && Unharmed(inputs, venue)
    ensures Unharmed(inputs[..|inputs| - 1], venue)
    ensures inputs[|inputs| - 1].Restart? ==> UsableFills(Unread(Run(inputs[..|inputs| - 1], venue).log)) == 0
  {
  }

  lemma {:induction false} RunStep(inputs: seq<Input>, venue: Venue)
    requires inputs != []
    ensures Run(inputs, venue) == Step(Run(inputs[..|inputs| - 1], venue), inputs[|inputs| - 1], venue)
  {
    hide Step;
  }

  lemma {:induction false} NothingYet(venue: Venue)
    ensures Inv(Run([], venue).ledger)
    ensures ClosedProfit(Run([], venue).ledger) == ClosedRealized(Run([], venue).log)
  {
    hide Inv, Step, OpenRealized;
    EmptyInv();
    NothingOpen();
  }

  lemma NothingOpen()
    ensures OpenRealized(map[]) == 0.0
  {
  }

  lemma {:induction false} ClosesLoggedPrefix(inputs: seq<Input>)
    requires inputs != [] && ClosesLogged(inputs)
    ensures ClosesLogged(inputs[..|inputs| - 1])
    ensures inputs[|inputs| - 1].RecordCall? ==> inputs[|inputs| - 1].writes.closing.Kept?
  {
  }

  lemma {:induction false} ClosedProfitIsLogged(inputs: seq<Input>, venue: Venue)
    requires Unharmed(inputs, venue) && ClosesLogged(inputs)
    ensures Inv(Run(inputs, venue).ledger)
    ensures ClosedProfit(Run(inputs, venue).ledger) == ClosedRealized(Run(inputs, venue).log)
  {
    hide *;
    if inputs == [] {
      NothingYet(venue);
    } else {
      var before, last := inputs[..|inputs| - 1], inputs[|inputs| - 1];
      UnharmedPrefix(inputs, venue);
      ClosesLoggedPrefix(inputs);
      ClosedProfitIsLogged(before, venue);
      RunStep(inputs, venue);
      if last.Restart? {
        RestartEqualsLive(before, venue);
      } else {
        StepSettles(Run(before, venue), last, venue);
      }
    }
  }

  /**
    Over any unharmed run, restarts included, whose close records all reached the log: everything
    ever realized is on the positions still open or in the close records, to the last cent.
   */
  lemma {:induction false} CloseRecordsAddUp(inputs: seq<Input>, venue: Venue)
    requires Unharmed(inputs, venue) && ClosesLogged(inputs)
    ensures Run(inputs, venue).ledger.realized.total
      == OpenRealized(Run(inputs, venue).ledger.positions) + ClosedRealized(Run(inputs, venue).log)
  {
    ClosedProfitIsLogged(inputs, venue);
  }
}
