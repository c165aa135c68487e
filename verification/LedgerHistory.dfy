/**
  The ledger over whole runs of `record`, restarts and lost writes included: what a rebuild from
  the log gives back, who hears of a close, and when every filled unit is counted exactly once.
 */
module LedgerHistory {
  import opened Prelude
  import opened LedgerModel
  import opened LedgerTheorems
  import opened FillsLedger

  // ---- rebuild from the log ----

  lemma {:induction false} ReplayConcat(s: Ledger, front: seq<Event>, back: seq<Event>)
    ensures Replay(s, front + back) == Replay(Replay(s, front), back)
  {
    if back == [] {
      assert front + back == front;
    } else {
      var all := front + back;
      assert all[..|all| - 1] == front + back[..|back| - 1];
      ReplayConcat(s, front, back[..|back| - 1]);
    }
  }

  lemma {:induction false} ReplayWithoutFills(s: Ledger, events: seq<Event>)
    requires NoFills(events)
    ensures Replay(s, events) == s
  {
    if events == [] {
    } else {
      ReplayWithoutFills(s, events[..|events| - 1]);
    }
  }

  // ---- what a restart can lose ----

  function UsableFills(events: seq<Event>): nat {
    if events == [] then 0
    else
      var e := events[|events| - 1];
      UsableFills(events[..|events| - 1]) + if e.FillRecorded? && Usable(e.payload) then 1 else 0
  }

  lemma FoldAddsFill(s: Ledger, f: Fill)
    ensures |Fold(s, f).fills| == Min(|s.fills| + 1, FILLS_CAP)
  {
  }

  lemma {:induction false} ReplayRemembers(events: seq<Event>)
    requires UsableFills(events) <= FILLS_CAP
    ensures |Replay(Empty(), events).fills| == UsableFills(events)
  {
    if events == [] {
    } else {
      var e := events[|events| - 1];
      ReplayRemembers(events[..|events| - 1]);
      if e.FillRecorded? && Usable(e.payload) {
        FoldAddsFill(Replay(Empty(), events[..|events| - 1]), Complete(e.payload));
      }
    }
  }

  lemma {:induction false} UsableFillsConcat(front: seq<Event>, back: seq<Event>)
    ensures UsableFills(front + back) == UsableFills(front) + UsableFills(back)
  {
    if back == [] {
      assert front + back == front;
    } else {
      var all := front + back;
      assert all[..|all| - 1] == front + back[..|back| - 1];
      UsableFillsConcat(front, back[..|back| - 1]);
    }
  }

  lemma {:induction false} ReplayOfUnusable(s: Ledger, events: seq<Event>)
    requires UsableFills(events) == 0
    ensures Replay(s, events) == s
  {
    if events == [] {
    } else {
      ReplayOfUnusable(s, events[..|events| - 1]);
    }
  }

  /**
    Outside the window: while the fill memory is not full, a truncated log rebuilds the same
    ledger exactly when no usable fill was cut off.
   */
  lemma {:induction false} TruncationIsExact(cut: seq<Event>, kept: seq<Event>)
    requires UsableFills(cut + kept) <= FILLS_CAP
    ensures Replay(Empty(), kept) == Replay(Empty(), cut + kept) <==> UsableFills(cut) == 0
  {
    UsableFillsConcat(cut, kept);
    ReplayRemembers(kept);
    ReplayRemembers(cut + kept);
    if UsableFills(cut) == 0 {
      ReplayOfUnusable(Empty(), cut);
      ReplayConcat(Empty(), cut, kept);
    }
  }

  /** The events a restart leaves unread. */
  function Unread(log: seq<Event>): seq<Event> {
    if |log| <= READ_WINDOW then [] else log[..|log| - READ_WINDOW]
  }

  lemma UnreadThenRead(log: seq<Event>)
    ensures Unread(log) + LastN(log, READ_WINDOW) == log
  {
  }

  /** An interrupted close of a flip: what was left of the fill is never opened. */
  predicate LosesFlip(s: Ledger, f: Fill, w: Writes) {
    Interrupted(s, f, w) && f.intentType.ENTRY? && Remainder(OpenOf(s, f.symbol).value, f).quantity > 0
  }

  /** The fill record of the call arrives, and no flip is interrupted. A lost position record harms nothing else. */
  predicate Sound(s: Ledger, v: FilledView, at: int, w: Writes) {
    Accepts(s, v) && v.symbol != "" ==>
      w.fill && !LosesFlip(Noted(s, DeltaFill(s, v, at)), DeltaFill(s, v, at), w)
  }

  /** Every call of the run is sound, and no restart leaves a usable fill unread. */
  ghost predicate Unharmed(inputs: seq<Input>, venue: Venue) {
    inputs == [] ||
    var before := inputs[..|inputs| - 1];
    && Unharmed(before, venue)
    && match inputs[|inputs| - 1]
       case OtherEvent(_) => true
       case Restart => UsableFills(Unread(Run(before, venue).log)) == 0
       case RecordCall(v, at, w) => Sound(Run(before, venue).ledger, v, at, w)
  }

  /** So it is when no fill record is lost, no close record throws, and the log fits the window at every restart. */
  lemma {:induction false} FittingIsUnharmed(inputs: seq<Input>, venue: Venue)
    requires forall i :: 0 <= i < |inputs| && inputs[i].Restart? ==> |Run(inputs[..i], venue).log| <= READ_WINDOW
    requires forall i :: 0 <= i < |inputs| && inputs[i].RecordCall? ==>
      inputs[i].writes.fill && !inputs[i].writes.closing.Threw?
    ensures Unharmed(inputs, venue)
  {
    if inputs == [] {
    } else {
      var before := inputs[..|inputs| - 1];
      forall i | 0 <= i < |before| && before[i].Restart?
        ensures |Run(before[..i], venue).log| <= READ_WINDOW
      {
        assert before[..i] == inputs[..i];
      }
      FittingIsUnharmed(before, venue);
      hide Run, DeltaFill, Noted, Remainder, OpenOf, ClosesOut;
    }
  }

  /** A sound call leaves the ledger its fold leaves: cutting a close short skips nothing the ledger keeps. */
  lemma SoundFolds(s: Ledger, v: FilledView, at: int, w: Writes)
    requires Accepts(s, v) && Sound(s, v, at, w)
    ensures LiveLedger(s, AsPayload(DeltaFill(s, v, at)), w) == FoldPayload(s, AsPayload(DeltaFill(s, v, at)))
  {
    hide Noted, CloseFifo, OpenPosition, Closing, Reduced;
    var p := AsPayload(DeltaFill(s, v, at));
    if v.symbol != "" {
      assert Usable(p) && Complete(p) == DeltaFill(s, v, at);
    }
  }

  /** What replaying the records of one call gives. */
  lemma {:induction false} ReplayOfCall(s: Ledger, log: seq<Event>, p: PartialFill, w: Writes)
    ensures Replay(s, log + Written([FillRecorded(p)], w) + LiveEvents(Replay(s, log), p, w))
      == if w.fill then FoldPayload(Replay(s, log), p) else Replay(s, log)
  {
    hide FoldPayload, LiveEvents, Written, Replay;
    var live := Replay(s, log);
    WrittenOne(FillRecorded(p), w);
    FillRecordIsSeparate(live, p, CoinDcx, w, w.fill);
    ReplaySnoc(s, log, FillRecorded(p));
    assert log + [] == log;
    ReplayConcat(s, log + Written([FillRecorded(p)], w), LiveEvents(live, p, w));
    ReplayWithoutFills(Replay(s, log + Written([FillRecorded(p)], w)), LiveEvents(live, p, w));
  }

  /** Replaying a log that rebuilds the ledger still does so after one more call, if the call is sound. */
  lemma {:induction false} SoundCallReplays(log: seq<Event>, v: FilledView, at: int, w: Writes)
    requires var s := Replay(Empty(), log); Accepts(s, v) && Sound(s, v, at, w)
    ensures var s, p := Replay(Empty(), log), AsPayload(DeltaFill(Replay(Empty(), log), v, at));
      Replay(Empty(), log + Written([FillRecorded(p)], w) + LiveEvents(s, p, w)) == LiveLedger(s, p, w)
  {
    var s := Replay(Empty(), log);
    var p := AsPayload(DeltaFill(s, v, at));
    hide LiveLedger, LiveEvents, Replay, DeltaFill, Accepts, LosesFlip, Empty, Written;
    ReplayOfCall(Empty(), log, p, w);
    SoundFolds(s, v, at, w);
  }

  /** And only then: while the fill memory is not full, the log of a call that is not sound rebuilds another ledger. */
  lemma UnsoundCallDiverges(s: Ledger, v: FilledView, at: int, w: Writes)
    requires Accepts(s, v) && !Sound(s, v, at, w) && |s.fills| < FILLS_CAP
    ensures var p := AsPayload(DeltaFill(s, v, at));
      LiveLedger(s, p, w) != if w.fill then FoldPayload(s, p) else s
  {
    var f := DeltaFill(s, v, at);
    hide DeltaFill, Closing, Reduced, Total, OpenOf;
    assert Complete(AsPayload(f)) == f && Usable(AsPayload(f));
    if w.fill {
      assert Attribute(Noted(s, f), f).openedCount == Attributed(Noted(s, f), f, w).openedCount + 1;
    } else {
      assert |Attributed(Noted(s, f), f, w).fills| == |s.fills| + 1;
    }
  }

  /** A restart that leaves no usable fill unread replays what the whole log replays. */
  lemma {:induction false} RestartReplaysAll(log: seq<Event>)
    requires UsableFills(Unread(log)) == 0
    ensures Replay(Empty(), LastN(log, READ_WINDOW)) == Replay(Empty(), log)
  {
    hide Empty, FoldEvent;
    UnreadThenRead(log);
    ReplayOfUnusable(Empty(), Unread(log));
    ReplayConcat(Empty(), Unread(log), LastN(log, READ_WINDOW));
  }

  /** Replaying the log of a run, restarts included, rebuilds its ledger. */
  lemma {:induction false} ReplayIsLive(inputs: seq<Input>, venue: Venue)
    requires Unharmed(inputs, venue)
    ensures Replay(Empty(), Run(inputs, venue).log) == Run(inputs, venue).ledger
  {
    if inputs == [] {
    } else {
      var w := Run(inputs[..|inputs| - 1], venue);
      ReplayIsLive(inputs[..|inputs| - 1], venue);
      hide LiveLedger, LiveEvents, LiveCalls, Replay, Accepts, Sound, DeltaFill, Written, Empty;
      match inputs[|inputs| - 1]
      case OtherEvent(kind) =>
        ReplaySnoc(Empty(), w.log, Foreign(kind));
      case Restart =>
        RestartReplaysAll(w.log);
      case RecordCall(v, at, writes) =>
        if Accepts(w.ledger, v) {
          SoundCallReplays(w.log, v, at, writes);
        }
    }
  }

  /**
    What a lost write costs: after an unharmed run, while the fill memory is not full, the log still
    rebuilds the ledger after one more accepted call exactly when that call is sound.
   */
  lemma {:induction false} LostWriteExactly(inputs: seq<Input>, venue: Venue, v: FilledView, at: int, w: Writes)
    requires Unharmed(inputs, venue) && |Run(inputs, venue).ledger.fills| < FILLS_CAP
    requires Accepts(Run(inputs, venue).ledger, v)
    ensures var next := Step(Run(inputs, venue), RecordCall(v, at, w), venue);
      Replay(Empty(), next.log) == next.ledger <==> Sound(Run(inputs, venue).ledger, v, at, w)
  {
    ReplayIsLive(inputs, venue);
    var s := Run(inputs, venue).ledger;
    hide LiveLedger, LiveEvents, LiveCalls, Replay, Accepts, Sound, DeltaFill, Written, Empty, Run;
    ReplayOfCall(Empty(), Run(inputs, venue).log, AsPayload(DeltaFill(s, v, at)), w);
    if Sound(s, v, at, w) {
      SoundCallReplays(Run(inputs, venue).log, v, at, w);
    } else {
      UnsoundCallDiverges(s, v, at, w);
    }
  }

  /** The next restart gives back the live ledger when it leaves no usable fill unread. */
  lemma {:induction false} RestartEqualsLive(inputs: seq<Input>, venue: Venue)
    requires Unharmed(inputs, venue) && UsableFills(Unread(Run(inputs, venue).log)) == 0
    ensures Step(Run(inputs, venue), Restart, venue) == Run(inputs, venue)
  {
    ReplayIsLive(inputs, venue);
    RestartReplaysAll(Run(inputs, venue).log);
  }

  /** While the fill memory is not full, exactly then. */
  lemma {:induction false} RestartEqualsLiveExactly(inputs: seq<Input>, venue: Venue)
    requires Unharmed(inputs, venue) && UsableFills(Run(inputs, venue).log) <= FILLS_CAP
    ensures Step(Run(inputs, venue), Restart, venue) == Run(inputs, venue)
      <==> UsableFills(Unread(Run(inputs, venue).log)) == 0
  {
    var log := Run(inputs, venue).log;
    ReplayIsLive(inputs, venue);
    UnreadThenRead(log);
    TruncationIsExact(Unread(log), LastN(log, READ_WINDOW));
  }

  /** The run without its restarts. */
  function Unbroken(inputs: seq<Input>): seq<Input> {
    if inputs == [] then []
    else
      var before, last := inputs[..|inputs| - 1], inputs[|inputs| - 1];
      if last.Restart? then Unbroken(before) else Unbroken(before) + [last]
  }

  /** Restarts are invisible: ledger, log and callbacks are those of one uninterrupted process. */
  lemma {:induction false} RestartsAreInvisible(inputs: seq<Input>, venue: Venue)
    requires Unharmed(inputs, venue)
    ensures Run(inputs, venue) == Run(Unbroken(inputs), venue)
  {
    if inputs == [] {
    } else {
      var before, last := inputs[..|inputs| - 1], inputs[|inputs| - 1];
      RestartsAreInvisible(before, venue);
      if last.Restart? {
        RestartEqualsLive(before, venue);
      } else {
        assert (Unbroken(before) + [last])[..|Unbroken(before)|] == Unbroken(before);
      }
    }
  }

  // ---- who hears of a close ----

  /**
    On the live venue a close calls back whether it was partial or full, unless it was full and its
    record threw; the position is still open afterwards exactly when the close was partial.
   */
  lemma EveryCloseCallsBack(s: Ledger, p: Pos, f: Fill, w: Writes)
    requires Inv(s) && f.quantity > 0 && f.symbol != "" && OpenOf(s, f.symbol) == Some(p)
    requires f.intentType == EXIT || f.intentType == REDUCE
    ensures LiveCalls(s, AsPayload(f), CoinDcx, w) != [] <==> !(w.closing.Threw? && f.quantity >= Total(p.lots))
    ensures OpenOf(LiveLedger(s, AsPayload(f), w), f.symbol).Some? <==> f.quantity < Total(p.lots)
  {
    hide Inv, Takes, Drop, Total, Units, Positive, Noted, Closing, LiveCalls, LiveLedger, CloseFifo, OpenOf;
    var t := Noted(s, f);
    NotedKeepsInv(s, f);
    NotedKeepsOpen(s, f);
    CloseShape(t, p, f);
    ClosesSomething(p, f);
    ExitCloses(s, p, f, w);
    OpenAfterClose(t, p, f);
  }

  lemma NotedKeepsOpen(s: Ledger, f: Fill)
    ensures OpenOf(Noted(s, f), f.symbol) == OpenOf(s, f.symbol)
  {
  }

  lemma ExitCloses(s: Ledger, p: Pos, f: Fill, w: Writes)
    requires f.symbol != "" && OpenOf(s, f.symbol) == Some(p) && (f.intentType == EXIT || f.intentType == REDUCE)
    ensures LiveCalls(s, AsPayload(f), CoinDcx, w)
      == if w.closing.Threw? && ClosesFully(p, f) then [] else Closing(p, f)
    ensures LiveLedger(s, AsPayload(f), w) == CloseFifo(Noted(s, f), p, f)
  {
    hide CloseFifo, Closing;
    NotedKeepsOpen(s, f);
    assert Usable(AsPayload(f)) && Complete(AsPayload(f)) == f;
  }

  lemma OpenAfterClose(s: Ledger, p: Pos, f: Fill)
    requires Inv(s) && f.quantity > 0 && OpenOf(s, f.symbol) == Some(p)
    ensures OpenOf(CloseFifo(s, p, f), f.symbol).Some? <==> f.quantity < Total(p.lots)
  {
    CloseShape(s, p, f);
    assert p.symbol == f.symbol && s.openBySymbol[f.symbol] == p.id;
    hide Inv, Takes, Drop, Total, Units, Positive, Reduced, ClosesFully, Closing;
  }

  lemma ClosesSomething(p: Pos, f: Fill)
    requires Positive(p.lots) && Total(p.lots) > 0 && f.quantity > 0
    ensures Closing(p, f) != []
  {
    TakesAddUp(p, f, p.lots, Taken(p, f));
  }

  /** Every allocation the run made, in order: what the close callback should hear. */
  function Due(inputs: seq<Input>, venue: Venue): seq<Allocation> {
    if inputs == [] then []
    else
      var w := Run(inputs[..|inputs| - 1], venue);
      Due(inputs[..|inputs| - 1], venue) +
        match inputs[|inputs| - 1]
        case OtherEvent(_) => []
        case Restart => []
        case RecordCall(v, at, _) =>
          if Accepts(w.ledger, v) then DueCalls(w.ledger, AsPayload(DeltaFill(w.ledger, v, at))) else []
  }

  /** Did some call of the run throw because its close record was lost? */
  ghost predicate SomeCallThrew(inputs: seq<Input>, venue: Venue) {
    inputs != [] &&
    var w := Run(inputs[..|inputs| - 1], venue);
    (SomeCallThrew(inputs[..|inputs| - 1], venue) ||
     match inputs[|inputs| - 1]
     case OtherEvent(_) => false
     case Restart => false
     case RecordCall(v, at, writes) =>
       Accepts(w.ledger, v) && Throws(w.ledger, AsPayload(DeltaFill(w.ledger, v, at)), writes))
  }

  /** A call that throws had something to call back. */
  lemma ThrownCallWasDue(s: Ledger, p: PartialFill, w: Writes)
    ensures Throws(s, p, w) ==> DueCalls(s, p) != []
  {
    hide Noted, Closing, Reduced;
  }

  lemma {:induction false} HeardSoFar(inputs: seq<Input>, venue: Venue)
    requires venue.CoinDcx?
    ensures |Run(inputs, venue).calls| <= |Due(inputs, venue)|
    ensures SomeCallThrew(inputs, venue) ==> |Run(inputs, venue).calls| < |Due(inputs, venue)|
    ensures !SomeCallThrew(inputs, venue) ==> Run(inputs, venue).calls == Due(inputs, venue)
  {
    if inputs == [] {
    } else {
      var w := Run(inputs[..|inputs| - 1], venue);
      HeardSoFar(inputs[..|inputs| - 1], venue);
      hide LiveLedger, LiveEvents, Throws, DueCalls, Accepts, DeltaFill, Written, Empty;
      match inputs[|inputs| - 1]
      case OtherEvent(_) =>
      case Restart =>
      case RecordCall(v, at, writes) =>
        if Accepts(w.ledger, v) {
          ThrownCallWasDue(w.ledger, AsPayload(DeltaFill(w.ledger, v, at)), writes);
        }
    }
  }

  /**
    Over any run, restarts and lost writes included, the live venue's callback hears every
    allocation exactly once, in order, exactly when no call threw over a lost close record.
    A restart repeats no callback, and makes up for none.
   */
  lemma {:induction false} HeardExactlyOnce(inputs: seq<Input>)
    ensures Run(inputs, CoinDcx).calls == Due(inputs, CoinDcx) <==> !SomeCallThrew(inputs, CoinDcx)
  {
    HeardSoFar(inputs, CoinDcx);
  }

  // ---- exactly-once counting ----

  /** Units of a decision recorded over a run. */
  function Delivered(fills: seq<Fill>, d: string): int {
    if fills == [] then 0
    else
      var f := fills[|fills| - 1];
      Delivered(fills[..|fills| - 1], d) + if f.decisionId == d then f.quantity else 0
  }

  /** The cumulative quantity of the decision's last recorded fill. */
  function LastView(fills: seq<Fill>, d: string): int {
    if fills == [] then 0
    else
      var f := fills[|fills| - 1];
      if f.decisionId == d && f.cumulative.Some? then f.cumulative.value else LastView(fills[..|fills| - 1], d)
  }

  /** The runs `record` can produce: every fill is its view's quantity less what was counted. */
  ghost predicate Recorded(fills: seq<Fill>) {
    fills == [] ||
    var before, f := fills[..|fills| - 1], fills[|fills| - 1];
    && Recorded(before)
    && f.decisionId != "" && f.cumulative.Some?
    && f.quantity == f.cumulative.value - Counter(FoldAll(Empty(), before), f.decisionId) > 0
  }

  /** The decisions whose counters folding `f` drops. */
  function Forgets(s: Ledger, f: Fill): set<string> {
    match OpenOf(s, f.symbol)
    case None => {}
    case Some(p) =>
      if !(f.intentType.ENTRY? && p.side == f.side) && ClosesFully(p, f) then DecisionsOf(Closing(p, f)) else {}
  }

  /** Has the counter of `d` been dropped at some point of the run? */
  ghost predicate Forgotten(fills: seq<Fill>, d: string) {
    fills != [] &&
    var before, f := fills[..|fills| - 1], fills[|fills| - 1];
    Forgotten(before, d) || d in Forgets(FoldAll(Empty(), before), f)
  }

  /** Was a fill of `d` recorded after its counter had been dropped? */
  ghost predicate FilledAfterForgetting(fills: seq<Fill>, d: string) {
    fills != [] &&
    var before, f := fills[..|fills| - 1], fills[|fills| - 1];
    FilledAfterForgetting(before, d) || (f.decisionId == d && Forgotten(before, d))
  }

  lemma FoldCounters(s: Ledger, f: Fill)
    ensures Fold(s, f).lastCumulative == Noted(s, f).lastCumulative - Forgets(s, f)
  {
    assert OpenOf(Noted(s, f), f.symbol) == OpenOf(s, f.symbol);
  }

  /** Every open lot belongs to a decision with recorded units. */
  ghost predicate Backed(s: Ledger, fills: seq<Fill>) {
    forall id, i :: id in s.positions && 0 <= i < |s.positions[id].lots| ==>
      Delivered(fills, s.positions[id].lots[i].decisionId) > 0
  }

  ghost predicate LotsBacked(lots: seq<Lot>, fills: seq<Fill>) {
    forall i :: 0 <= i < |lots| ==> Delivered(fills, lots[i].decisionId) > 0
  }

  lemma {:induction false} DropBacked(lots: seq<Lot>, q: int, fills: seq<Fill>)
    requires LotsBacked(lots, fills)
    ensures LotsBacked(Drop(lots, q), fills)
  {
    if q <= 0 || lots == [] || lots[0].quantity > q {
    } else {
      DropBacked(lots[1..], q - lots[0].quantity, fills);
    }
  }

  lemma {:induction false} TakesBacked(p: Pos, f: Fill, lots: seq<Lot>, q: int, fills: seq<Fill>)
    requires LotsBacked(lots, fills)
    ensures forall i :: 0 <= i < |Takes(p, f, lots, q)| ==> Delivered(fills, Takes(p, f, lots, q)[i].decisionId) > 0
  {
    if q <= 0 || lots == [] || lots[0].quantity > q {
    } else {
      TakesBacked(p, f, lots[1..], q - lots[0].quantity, fills);
    }
  }

  /** Counters are only ever dropped for decisions that have recorded units. */
  lemma {:induction false} ForgetsBacked(s: Ledger, f: Fill, fills: seq<Fill>, d: string)
    requires Backed(s, fills)
    requires d in Forgets(s, f)
    ensures Delivered(fills, d) > 0
  {
    var p := OpenOf(s, f.symbol).value;
    TakesBacked(p, f, p.lots, Min(f.quantity, Total(p.lots)), fills);
  }

  lemma CloseBacked(s: Ledger, p: Pos, f: Fill, fills: seq<Fill>)
    requires Backed(s, fills) && OpenOf(s, f.symbol) == Some(p)
    ensures Backed(CloseFifo(s, p, f), fills)
  {
    DropBacked(p.lots, Min(f.quantity, Total(p.lots)), fills);
  }

  lemma {:induction false} FoldBacked(s: Ledger, f: Fill, fills: seq<Fill>)
    requires Backed(s, fills) && Delivered(fills, f.decisionId) > 0
    ensures Backed(Fold(s, f), fills)
  {
    hide CloseFifo, Total;
    assert Backed(Noted(s, f), fills);
    match OpenOf(Noted(s, f), f.symbol)
    case None =>
    case Some(p) =>
      CloseBacked(Noted(s, f), p, f, fills);
  }

  lemma {:induction false} DeliveredGrows(fills: seq<Fill>, d: string)
    requires AllPositive(fills)
    ensures Delivered(fills, d) >= 0
    ensures fills != [] ==> Delivered(fills, d) >= Delivered(fills[..|fills| - 1], d)
    ensures fills != [] ==> Delivered(fills, fills[|fills| - 1].decisionId) > 0
  {
    if fills == [] {
    } else {
      DeliveredGrows(fills[..|fills| - 1], d);
      DeliveredGrows(fills[..|fills| - 1], fills[|fills| - 1].decisionId);
    }
  }

  lemma {:induction false} RecordedIsPositive(fills: seq<Fill>)
    requires Recorded(fills)
    ensures AllPositive(fills)
  {
    if fills == [] {
    } else {
      RecordedIsPositive(fills[..|fills| - 1]);
    }
  }

  lemma {:induction false} RunBacked(fills: seq<Fill>)
    requires Recorded(fills)
    ensures Backed(FoldAll(Empty(), fills), fills)
  {
    if fills == [] {
    } else {
      var before, f := fills[..|fills| - 1], fills[|fills| - 1];
      RunBacked(before);
      RecordedIsPositive(fills);
      forall d {
        DeliveredGrows(fills, d);
      }
      FoldBacked(FoldAll(Empty(), before), f, fills);
    }
  }

  /** How counter, total and last view of one decision are related at every moment of a run. */
  ghost predicate Tally(fills: seq<Fill>, d: string) {
    var s := FoldAll(Empty(), fills);
    && (d in s.lastCumulative ==> s.lastCumulative[d] == LastView(fills, d) > 0)
    && (d !in s.lastCumulative && Delivered(fills, d) > 0 ==> Forgotten(fills, d))
    && (d in s.lastCumulative && Forgotten(fills, d) ==> FilledAfterForgetting(fills, d))
    && (Forgotten(fills, d) ==> Delivered(fills, d) > 0)
    && (FilledAfterForgetting(fills, d) ==> Delivered(fills, d) > LastView(fills, d))
    && (!FilledAfterForgetting(fills, d) ==> Delivered(fills, d) == LastView(fills, d))
    && LastView(fills, d) >= 0
    && (FilledAfterForgetting(fills, d) ==> Forgotten(fills, d))
  }

  lemma {:induction false} TallyStep(before: seq<Fill>, f: Fill, d: string)
    requires Recorded(before + [f]) && Tally(before, d)
    ensures Tally(before + [f], d)
  {
    var fills := before + [f];
    assert fills[..|fills| - 1] == before;
    var s := FoldAll(Empty(), before);
    FoldCounters(s, f);
    RunBacked(before);
    RecordedIsPositive(before);
    DeliveredGrows(before, d);
    if d in Forgets(s, f) {
      ForgetsBacked(s, f, before, d);
    }
    assert d != f.decisionId && d !in Forgets(s, f) ==>
      (d in Fold(s, f).lastCumulative <==> d in s.lastCumulative) && Counter(Fold(s, f), d) == Counter(s, d);
  }

  lemma {:induction false} TallyHolds(fills: seq<Fill>, d: string)
    requires Recorded(fills)
    ensures Tally(fills, d)
  {
    if fills == [] {
    } else {
      TallyHolds(fills[..|fills| - 1], d);
      assert fills == fills[..|fills| - 1] + [fills[|fills| - 1]];
      TallyStep(fills[..|fills| - 1], fills[|fills| - 1], d);
    }
  }

  /**
    A decision's recorded units add up to its last cumulative quantity exactly when none of its
    fills arrived after a full close had dropped its counter.
   */
  lemma {:induction false} CountedExactlyOnce(fills: seq<Fill>, d: string)
    requires Recorded(fills)
    ensures Delivered(fills, d) == LastView(fills, d) <==> !FilledAfterForgetting(fills, d)
  {
    TallyHolds(fills, d);
  }

  /** A venue view repeated after it was recorded is refused exactly while the counter is still there. */
  lemma {:induction false} RepeatRefusedWhileCounted(fills: seq<Fill>, v: FilledView)
    requires Recorded(fills)
    requires Delivered(fills, v.intentId) > 0 && v.avgFillPrice.Some?
    requires v.filledQuantity == LastView(fills, v.intentId)
    ensures Accepts(FoldAll(Empty(), fills), v) <==> v.intentId !in FoldAll(Empty(), fills).lastCumulative
  {
    TallyHolds(fills, v.intentId);
    RecordedIsPositive(fills);
    DeliveredGrows(fills, v.intentId);
    LastViewPositive(fills, v.intentId);
  }

  lemma {:induction false} LastViewPositive(fills: seq<Fill>, d: string)
    requires Recorded(fills) && Delivered(fills, d) > 0
    ensures LastView(fills, d) > 0
  {
    var before, f := fills[..|fills| - 1], fills[|fills| - 1];
    if f.decisionId == d {
      TallyHolds(before, d);
    } else {
      LastViewPositive(before, d);
    }
  }

  /** The fills a run of `record` calls accepts. */
  function AcceptedFills(inputs: seq<Input>, venue: Venue): seq<Fill> {
    if inputs == [] then []
    else
      var w := Run(inputs[..|inputs| - 1], venue);
      AcceptedFills(inputs[..|inputs| - 1], venue) +
        match inputs[|inputs| - 1]
        case OtherEvent(_) => []
        case Restart => []
        case RecordCall(v, at, _) => if Accepts(w.ledger, v) then [DeltaFill(w.ledger, v, at)] else []
  }

  /**
    Every unharmed run of `record` calls and restarts with named decisions and symbols is a recorded
    run, so the theorems above apply to it.
   */
  lemma {:induction false} RunIsRecorded(inputs: seq<Input>, venue: Venue)
    requires Unharmed(inputs, venue) && Named(inputs)
    ensures Recorded(AcceptedFills(inputs, venue))
    ensures FoldAll(Empty(), AcceptedFills(inputs, venue)) == Run(inputs, venue).ledger
  {
    if inputs == [] {
    } else {
      var before, input := inputs[..|inputs| - 1], inputs[|inputs| - 1];
      NamedPrefix(inputs, venue);
      hide *;
      RunIsRecorded(before, venue);
      if input.Restart? {
        RestartUnfolds(inputs, venue);
      } else {
        RunUnfolds(inputs, venue);
        if input.RecordCall? && Accepts(Run(before, venue).ledger, input.view) {
          RecordedSnoc(AcceptedFills(before, venue), input.view, input.at);
        }
      }
    }
  }

  lemma {:induction false} NamedPrefix(inputs: seq<Input>, venue: Venue)
    requires inputs != [] && Unharmed(inputs, venue) && Named(inputs)
    ensures Unharmed(inputs[..|inputs| - 1], venue) && Named(inputs[..|inputs| - 1])
    ensures inputs[|inputs| - 1].RecordCall? ==>
      inputs[|inputs| - 1].view.intentId != "" && inputs[|inputs| - 1].view.symbol != ""
  {
  }

  lemma {:induction false} RestartUnfolds(inputs: seq<Input>, venue: Venue)
    requires inputs != [] && Unharmed(inputs, venue) && inputs[|inputs| - 1].Restart?
    ensures AcceptedFills(inputs, venue) == AcceptedFills(inputs[..|inputs| - 1], venue)
    ensures Run(inputs, venue).ledger == Run(inputs[..|inputs| - 1], venue).ledger
  {
    RestartEqualsLive(inputs[..|inputs| - 1], venue);
  }

  ghost predicate Named(inputs: seq<Input>) {
    forall i :: 0 <= i < |inputs| && inputs[i].RecordCall? ==>
      inputs[i].view.intentId != "" && inputs[i].view.symbol != ""
  }

  lemma {:induction false} RunUnfolds(inputs: seq<Input>, venue: Venue)
    requires inputs != [] && Unharmed(inputs, venue) && !inputs[|inputs| - 1].Restart?
    ensures var before, input := Run(inputs[..|inputs| - 1], venue).ledger, inputs[|inputs| - 1];
      var fills := AcceptedFills(inputs[..|inputs| - 1], venue);
      if input.RecordCall? && Accepts(before, input.view)
        then
          && AcceptedFills(inputs, venue) == fills + [DeltaFill(before, input.view, input.at)]
          && Run(inputs, venue).ledger == FoldPayload(before, AsPayload(DeltaFill(before, input.view, input.at)))
        else AcceptedFills(inputs, venue) == fills && Run(inputs, venue).ledger == before
  {
    var before, input := Run(inputs[..|inputs| - 1], venue).ledger, inputs[|inputs| - 1];
    if input.RecordCall? && Accepts(before, input.view) {
      SoundFolds(before, input.view, input.at, input.writes);
    }
    hide Accepts, FoldPayload, DeltaFill, AsPayload, LiveLedger, LiveEvents, LiveCalls, Empty, Written, Sound;
  }

  /**
    Over any unharmed run, restarts included: what was recorded for a decision is its last cumulative
    quantity exactly when none of its fills arrived after a full close had dropped its counter.
   */
  lemma {:induction false} CountedOnceAcrossRestarts(inputs: seq<Input>, venue: Venue, d: string)
    requires Unharmed(inputs, venue) && Named(inputs)
    ensures var fills := AcceptedFills(inputs, venue);
      Delivered(fills, d) == LastView(fills, d) <==> !FilledAfterForgetting(fills, d)
  {
    RunIsRecorded(inputs, venue);
    CountedExactlyOnce(AcceptedFills(inputs, venue), d);
  }

  /** And a view repeated after any such run, say by a revived order, is refused exactly while its counter is there. */
  lemma {:induction false} RepeatRefusedAcrossRestarts(inputs: seq<Input>, venue: Venue, v: FilledView)
    requires Unharmed(inputs, venue) && Named(inputs)
    requires Delivered(AcceptedFills(inputs, venue), v.intentId) > 0 && v.avgFillPrice.Some?
    requires v.filledQuantity == LastView(AcceptedFills(inputs, venue), v.intentId)
    ensures Accepts(Run(inputs, venue).ledger, v) <==> v.intentId !in Run(inputs, venue).ledger.lastCumulative
  {
    RunIsRecorded(inputs, venue);
    RepeatRefusedWhileCounted(AcceptedFills(inputs, venue), v);
  }

  lemma {:induction false} RecordedSnoc(fills: seq<Fill>, v: FilledView, at: int)
    requires Recorded(fills) && v.intentId != "" && v.symbol != ""
    requires Accepts(FoldAll(Empty(), fills), v)
    ensures var f := DeltaFill(FoldAll(Empty(), fills), v, at);
      && Recorded(fills + [f])
      && FoldAll(Empty(), fills + [f]) == FoldPayload(FoldAll(Empty(), fills), AsPayload(f))
  {
    hide Fold;
    var f := DeltaFill(FoldAll(Empty(), fills), v, at);
    FoldAllSnoc(Empty(), fills, f);
    assert (fills + [f])[..|fills|] == fills;
    assert Complete(AsPayload(f)) == f;
  }

  lemma {:induction false} FoldAllSnoc(s: Ledger, fills: seq<Fill>, f: Fill)
    ensures FoldAll(s, fills + [f]) == Fold(FoldAll(s, fills), f)
  {
    hide Fold;
    assert (fills + [f])[..|fills|] == fills;
  }

  /**
    The counter really can be lost: buy one, sell it, and the entry's view, delivered again,
    is recorded a second time.
   */
  lemma ForgottenCounterCountsTwice(price: real)
    ensures var buy := Fill(1, "e", "S", Buy, price, 1, Some(1), ENTRY);
      var sell := Fill(2, "x", "S", Sell, price, 1, Some(1), EXIT);
      && Recorded([buy, sell, buy])
      && Delivered([buy, sell, buy], "e") == 2
      && LastView([buy, sell, buy], "e") == 1
  {
    var buy := Fill(1, "e", "S", Buy, price, 1, Some(1), ENTRY);
    var sell := Fill(2, "x", "S", Sell, price, 1, Some(1), EXIT);
    assert [buy][..0] == [] && [buy, sell][..1] == [buy] && [buy, sell, buy][..2] == [buy, sell];
    assert Delivered([buy], "e") == 1 && Delivered([buy, sell], "e") == 1;
    BuyThenSellForgets(buy, sell);
    hide Fold;
    assert Recorded([buy]) && Recorded([buy, sell]);
  }

  lemma BuyThenSellForgets(buy: Fill, sell: Fill)
    requires buy == Fill(1, "e", "S", Buy, buy.price, 1, Some(1), ENTRY)
    requires sell == Fill(2, "x", "S", Sell, sell.price, 1, Some(1), EXIT)
    ensures Counter(FoldAll(Empty(), [buy]), "x") == 0
    ensures Counter(FoldAll(Empty(), [buy, sell]), "e") == 0
  {
    var one, p := Fold(Empty(), buy), OpenedBy(buy);
    FoldAllSnoc(Empty(), [], buy);
    FoldAllSnoc(Empty(), [buy], sell);
    assert [] + [buy] == [buy] && [buy] + [sell] == [buy, sell];
    assert one.lastCumulative == map["e" := 1] && OpenOf(one, "S") == Some(p);
    assert p.lots[1..] == [] && Total(p.lots) == 1;
    assert Takes(p, sell, p.lots[1..], 0) == [] && Drop(p.lots[1..], 0) == [];
    assert Closing(p, sell) == [Allocate(p, sell, p.lots[0], 1)];
    assert Closing(p, sell)[0].decisionId == "e";
    FoldCounters(one, sell);
  }
}
