/**
  The fills ledger on values: fills, FIFO lots, netting positions and the fold that turns
  one fill into the next ledger. The class in FillsLedger.dfy computes exactly this fold in
  place; the theorems about it are in LedgerTheorems.dfy.

  Quantities are whole lot units, so the source's `EPS` comparisons are comparisons with zero.
 */
module LedgerModel {
  import opened Prelude

  datatype Side = Buy | Sell

  datatype IntentType = ENTRY | EXIT | REDUCE

  function Dir(side: Side): int {
    if side.Buy? then 1 else -1
  }

  datatype Fill = Fill(
    at: int,
    decisionId: string,
    symbol: string,
    side: Side,
    price: real,
    quantity: int,
    cumulative: Option<int>,
    intentType: IntentType
  )

  /** A position is named by symbol, side and the decision that opened it. */
  datatype PosId = PosId(symbol: string, side: Side, decisionId: string)

  datatype Lot = Lot(decisionId: string, quantity: int, price: real, openedAt: int)

  datatype Pos = Pos(id: PosId, symbol: string, side: Side, lots: seq<Lot>, openedAt: int, realized: real)

  datatype Allocation = Allocation(
    positionId: PosId,
    symbol: string,
    side: Side,
    decisionId: string,
    pnl: real,
    quantity: int,
    at: int
  )

  /** Everything realized so far: the money, and how many allocations made it. */
  datatype Realized = Realized(total: real, count: nat)

  datatype Ledger = Ledger(
    fills: seq<Fill>,
    positions: map<PosId, Pos>,
    openBySymbol: map<string, PosId>,
    lastCumulative: map<string, int>,
    realized: Realized,
    openedCount: nat,
    closedCount: nat
  )

  const FILLS_CAP: nat := 10_000

  function Empty(): Ledger {
    Ledger([], map[], map[], map[], Realized(0.0, 0), 0, 0)
  }

  // ---- lots ----

  function Total(lots: seq<Lot>): int {
    if lots == [] then 0 else lots[0].quantity + Total(lots[1..])
  }

  ghost predicate Positive(lots: seq<Lot>) {
    forall i :: 0 <= i < |lots| ==> lots[i].quantity > 0
  }

  /** What is left of the lots after the oldest `q` units are closed. */
  function Drop(lots: seq<Lot>, q: int): seq<Lot> {
    if q <= 0 || lots == [] then lots
    else if lots[0].quantity <= q then Drop(lots[1..], q - lots[0].quantity)
    else [lots[0].(quantity := lots[0].quantity - q)] + lots[1..]
  }

  /**
    `n` times `x`, by repeated addition. `TimesIsProduct` says it is the product; the recursive
    form keeps products of unknowns out of the proofs that only need distributivity.
   */
  function Times(n: int, x: real): real
    decreases if n < 0 then -n else n
  {
    if n == 0 then 0.0 else if n > 0 then x + Times(n - 1, x) else Times(n + 1, x) - x
  }

  lemma {:induction false} TimesIsProduct(n: int, x: real)
    ensures Times(n, x) == n as real * x
    decreases if n < 0 then -n else n
  {
    if n > 0 {
      TimesIsProduct(n - 1, x);
      assert n as real == (n - 1) as real + 1.0;
    } else if n < 0 {
      TimesIsProduct(n + 1, x);
      assert n as real == (n + 1) as real - 1.0;
    }
  }

  lemma {:induction false} TimesAddsCounts(n: int, k: int, x: real)
    ensures Times(n + k, x) == Times(n, x) + Times(k, x)
    decreases if n < 0 then -n else n
  {
    if n > 0 {
      TimesAddsCounts(n - 1, k, x);
      TimesStep(n + k, x);
    } else if n < 0 {
      TimesAddsCounts(n + 1, k, x);
      TimesStep(n + k + 1, x);
    }
  }

  lemma TimesStep(n: int, x: real)
    ensures Times(n, x) == x + Times(n - 1, x)
  {
  }

  lemma {:induction false} TimesAddsValues(n: int, x: real, y: real)
    ensures Times(n, x + y) == Times(n, x) + Times(n, y)
    decreases if n < 0 then -n else n
  {
    if n > 0 {
      TimesAddsValues(n - 1, x, y);
    } else if n < 0 {
      TimesAddsValues(n + 1, x, y);
    }
  }

  function Allocate(p: Pos, f: Fill, lot: Lot, q: int): Allocation {
    Allocation(p.id, p.symbol, p.side, lot.decisionId,
               Times(Dir(p.side) * q, f.price - lot.price), q, f.at)
  }

  /** One allocation per lot touched when the oldest `q` units are closed by `f`. */
  function Takes(p: Pos, f: Fill, lots: seq<Lot>, q: int): seq<Allocation> {
    if q <= 0 || lots == [] then []
    else if lots[0].quantity <= q then
      [Allocate(p, f, lots[0], lots[0].quantity)] + Takes(p, f, lots[1..], q - lots[0].quantity)
    else [Allocate(p, f, lots[0], q)]
  }

  function PnlSum(allocs: seq<Allocation>): real {
    if allocs == [] then 0.0 else PnlSum(allocs[..|allocs| - 1]) + allocs[|allocs| - 1].pnl
  }

  function QuantitySum(allocs: seq<Allocation>): int {
    if allocs == [] then 0 else QuantitySum(allocs[..|allocs| - 1]) + allocs[|allocs| - 1].quantity
  }

  function DecisionsOf(allocs: seq<Allocation>): set<string> {
    set i | 0 <= i < |allocs| :: allocs[i].decisionId
  }

  // ---- one fill ----

  function LotOf(f: Fill): Lot {
    Lot(f.decisionId, f.quantity, f.price, f.at)
  }

  function OpenedBy(f: Fill): Pos {
    Pos(PosId(f.symbol, f.side, f.decisionId), f.symbol, f.side, [LotOf(f)], f.at, 0.0)
  }

  function OpenPosition(s: Ledger, f: Fill): Ledger {
    var p := OpenedBy(f);
    s.(positions := s.positions[p.id := p],
       openBySymbol := s.openBySymbol[f.symbol := p.id],
       openedCount := s.openedCount + 1)
  }

  /** The allocations of closing up to `f.quantity` of `p`. */
  function Closing(p: Pos, f: Fill): seq<Allocation> {
    Takes(p, f, p.lots, Min(f.quantity, Total(p.lots)))
  }

  function Reduced(p: Pos, f: Fill): Pos {
    p.(lots := Drop(p.lots, Min(f.quantity, Total(p.lots))),
       realized := p.realized + PnlSum(Closing(p, f)))
  }

  predicate ClosesFully(p: Pos, f: Fill) {
    Reduced(p, f).lots == [] && Closing(p, f) != []
  }

  /** The ledger with the close's lots gone and its PnL credited. */
  function Booked(s: Ledger, p: Pos, f: Fill): Ledger {
    s.(positions := s.positions[p.id := Reduced(p, f)],
       realized := Realized(s.realized.total + PnlSum(Closing(p, f)), s.realized.count + |Closing(p, f)|))
  }

  /** A fully closed position leaves both maps, and the decisions its last close credited lose their counters. */
  function Retired(s: Ledger, id: PosId, symbol: string, allocs: seq<Allocation>): Ledger {
    s.(positions := s.positions - {id},
       openBySymbol := s.openBySymbol - {symbol},
       closedCount := s.closedCount + 1,
       lastCumulative := s.lastCumulative - DecisionsOf(allocs))
  }

  function CloseFifo(s: Ledger, p: Pos, f: Fill): Ledger {
    if ClosesFully(p, f) then Retired(Booked(s, p, f), p.id, p.symbol, Closing(p, f)) else Booked(s, p, f)
  }

  /** The open position a symbol's index entry leads to. */
  function OpenOf(s: Ledger, symbol: string): Option<Pos> {
    if symbol in s.openBySymbol && s.openBySymbol[symbol] in s.positions
    then Some(s.positions[s.openBySymbol[symbol]])
    else None
  }

  function ScaleIn(s: Ledger, p: Pos, f: Fill): Ledger {
    s.(positions := s.positions[p.id := p.(lots := p.lots + [LotOf(f)])])
  }

  /** What a flip opens: the part of `f` that the opposite position did not absorb. */
  function Remainder(p: Pos, f: Fill): Fill {
    f.(quantity := f.quantity - Max(0, Min(f.quantity, Total(p.lots))))
  }

  function Attribute(s: Ledger, f: Fill): Ledger {
    match OpenOf(s, f.symbol)
    case None => if f.intentType.ENTRY? then OpenPosition(s, f) else s
    case Some(p) =>
      if !f.intentType.ENTRY? then CloseFifo(s, p, f)
      else if p.side == f.side then ScaleIn(s, p, f)
      else if Remainder(p, f).quantity > 0 then OpenPosition(CloseFifo(s, p, f), Remainder(p, f))
      else CloseFifo(s, p, f)
  }

  function Counter(s: Ledger, decisionId: string): int {
    if decisionId in s.lastCumulative then s.lastCumulative[decisionId] else 0
  }

  /** Fold steps before attribution: remember the fill and raise its decision's counter. */
  function Noted(s: Ledger, f: Fill): Ledger {
    var t := s.(fills := LastN(s.fills + [f], FILLS_CAP));
    if f.decisionId != "" && f.cumulative.Some? then
      t.(lastCumulative := s.lastCumulative[f.decisionId := Max(Counter(s, f.decisionId), f.cumulative.value)])
    else t
  }

  function Fold(s: Ledger, f: Fill): Ledger {
    Attribute(Noted(s, f), f)
  }

  function FoldAll(s: Ledger, fills: seq<Fill>): Ledger {
    if fills == [] then s else Fold(FoldAll(s, fills[..|fills| - 1]), fills[|fills| - 1])
  }

  /** The allocations folding `f` makes, in the order they are made. */
  function AllocationsOf(s: Ledger, f: Fill): seq<Allocation> {
    match OpenOf(s, f.symbol)
    case None => []
    case Some(p) => if f.intentType.ENTRY? && p.side == f.side then [] else Closing(p, f)
  }

  // ---- what every reachable ledger satisfies ----

  ghost predicate GoodPos(p: Pos, id: PosId) {
    p.id == id && p.symbol == id.symbol && p.side == id.side && p.lots != [] && Positive(p.lots)
  }

  /** The two maps agree: every open position is its symbol's, and every symbol's position is open. */
  ghost predicate Paired(positions: map<PosId, Pos>, openBySymbol: map<string, PosId>) {
    && (forall id :: id in positions ==> id.symbol in openBySymbol && openBySymbol[id.symbol] == id)
    && (forall symbol :: symbol in openBySymbol ==>
          openBySymbol[symbol] in positions && openBySymbol[symbol].symbol == symbol)
  }

  ghost predicate Inv(s: Ledger) {
    && (forall id :: id in s.positions ==> GoodPos(s.positions[id], id))
    && Paired(s.positions, s.openBySymbol)
    && s.openedCount - s.closedCount == |s.positions|
  }
}
