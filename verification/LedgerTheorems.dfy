/**
  What the fills ledger guarantees over every run: its maps stay consistent, its lots behave
  as a FIFO queue of single units, its position is one signed net quantity per symbol, and
  no money is made or lost by the bookkeeping.
 */
module LedgerTheorems {
  import opened Prelude
  import opened LedgerModel

  // ---- lots as a queue of units ----

  datatype Unit = Unit(decisionId: string, price: real, openedAt: int)

  function Repeat(u: Unit, n: int): (r: seq<Unit>)
    ensures |r| == Max(0, n)
    ensures forall i :: 0 <= i < |r| ==> r[i] == u
  {
    if n <= 0 then [] else seq(n, _ => u)
  }

  function UnitOf(lot: Lot): Unit {
    Unit(lot.decisionId, lot.price, lot.openedAt)
  }

  /** Every lot spelled out as single units, oldest first. */
  function Units(lots: seq<Lot>): seq<Unit> {
    if lots == [] then [] else Repeat(UnitOf(lots[0]), lots[0].quantity) + Units(lots[1..])
  }

  lemma {:induction false} UnitsLength(lots: seq<Lot>)
    requires Positive(lots)
    ensures |Units(lots)| == Total(lots) >= |lots|
  {
    if lots == [] {
    } else {
      UnitsLength(lots[1..]);
    }
  }

  lemma {:induction false} UnitsAppend(lots: seq<Lot>, lot: Lot)
    ensures Units(lots + [lot]) == Units(lots) + Repeat(UnitOf(lot), lot.quantity)
  {
    if lots == [] {
      assert lots + [lot] == [lot];
    } else {
      UnitsAppend(lots[1..], lot);
      assert (lots + [lot])[1..] == lots[1..] + [lot];
    }
  }

  /** Closing the oldest `q` units removes exactly the first `q` units of the queue. */
  lemma {:induction false} DropIsFifo(lots: seq<Lot>, q: nat)
    requires Positive(lots)
    requires q <= Total(lots)
    ensures Positive(Drop(lots, q))
    ensures |Units(lots)| == Total(lots)
    ensures Units(Drop(lots, q)) == Units(lots)[q..]
    ensures Total(Drop(lots, q)) == Total(lots) - q
    ensures Drop(lots, q) == [] <==> q == Total(lots)
  {
    UnitsLength(lots);
    if q == 0 || lots == [] {
    } else {
      var head, tail := lots[0], lots[1..];
      if head.quantity <= q {
        hide Repeat;
        DropIsFifo(tail, q - head.quantity);
        assert Units(lots)[q..] == Units(tail)[q - head.quantity..];
      } else {
        UnitsLength(tail);
        DropOfHead(head, tail, q);
      }
    }
  }

  /** A close within the oldest lot shortens that lot. */
  lemma {:induction false} DropOfHead(head: Lot, tail: seq<Lot>, q: nat)
    requires 0 < q < head.quantity && Positive(tail)
    ensures var lots, rest := [head] + tail, [head.(quantity := head.quantity - q)] + tail;
      && Drop(lots, q) == rest && Positive(rest)
      && Units(rest) == Units(lots)[q..] && Total(rest) == Total(lots) - q
  {
    var lots, rest := [head] + tail, [head.(quantity := head.quantity - q)] + tail;
    assert lots[1..] == tail && rest[1..] == tail;
    assert Repeat(UnitOf(head), head.quantity)[q..] == Repeat(UnitOf(rest[0]), rest[0].quantity);
  }

  /** What one closed unit earns, and for which entry decision. */
  datatype Credit = Credit(decisionId: string, pnl: real)

  function Credits(units: seq<Unit>, side: Side, price: real): seq<Credit> {
    seq(|units|, i requires 0 <= i < |units| =>
      Credit(units[i].decisionId, Times(Dir(side), price - units[i].price)))
  }

  /** Allocations spelled out unit by unit, each unit carrying an equal share of the PnL. */
  function Shares(allocs: seq<Allocation>): seq<Credit>
    requires forall i :: 0 <= i < |allocs| ==> allocs[i].quantity > 0
  {
    if allocs == [] then []
    else
      var a := allocs[0];
      seq(a.quantity, _ => Credit(a.decisionId, a.pnl / a.quantity as real)) + Shares(allocs[1..])
  }

  lemma {:induction false} ShareOfOne(dir: int, q: int, x: real)
    requires q > 0
    ensures Times(dir * q, x) / q as real == Times(dir, x)
  {
    TimesIsProduct(dir * q, x);
    TimesIsProduct(dir, x);
    assert (dir * q) as real == dir as real * q as real;
    assert (dir as real * q as real) * x == (dir as real * x) * q as real;
  }

  lemma {:induction false} CreditsOfConcat(u: Unit, n: nat, rest: seq<Unit>, side: Side, price: real)
    ensures Credits(Repeat(u, n) + rest, side, price)
         == seq(n, _ => Credit(u.decisionId, Times(Dir(side), price - u.price))) + Credits(rest, side, price)
  {
  }

  lemma {:induction false} SharesOfHead(p: Pos, f: Fill, lot: Lot, n: nat, rest: seq<Allocation>, units: seq<Unit>)
    requires n > 0
    requires forall i :: 0 <= i < |rest| ==> rest[i].quantity > 0
    requires Shares(rest) == Credits(units, p.side, f.price)
    ensures Shares([Allocate(p, f, lot, n)] + rest) == Credits(Repeat(UnitOf(lot), n) + units, p.side, f.price)
  {
    var a := Allocate(p, f, lot, n);
    ShareOfOne(Dir(p.side), n, f.price - lot.price);
    CreditsOfConcat(UnitOf(lot), n, units, p.side, f.price);
    assert ([a] + rest)[1..] == rest;
  }

  /** Whatever the lots hold, a close of up to their total closes exactly what it was asked to. */
  lemma {:induction false} TakesSum(p: Pos, f: Fill, lots: seq<Lot>, q: nat)
    requires q <= Total(lots)
    ensures QuantitySum(Takes(p, f, lots, q)) == q
  {
    if q == 0 || lots == [] {
    } else if lots[0].quantity <= q {
      TakesSum(p, f, lots[1..], q - lots[0].quantity);
      QuantitySumCons(Allocate(p, f, lots[0], lots[0].quantity), Takes(p, f, lots[1..], q - lots[0].quantity));
    } else {
      QuantitySumCons(Allocate(p, f, lots[0], q), []);
      assert [Allocate(p, f, lots[0], q)] + [] == [Allocate(p, f, lots[0], q)];
    }
  }

  /** The closed quantity the program adds up from its allocations. */
  lemma ClosedQuantity(p: Pos, f: Fill)
    ensures QuantitySum(Closing(p, f)) == Max(0, Min(f.quantity, Total(p.lots)))
  {
    var q := Min(f.quantity, Total(p.lots));
    if q > 0 {
      TakesSum(p, f, p.lots, q);
    }
  }

  /** A close of `q` units makes positive allocations that add up to `q`. */
  lemma {:induction false} TakesAddUp(p: Pos, f: Fill, lots: seq<Lot>, q: nat)
    requires Positive(lots)
    requires q <= Total(lots)
    ensures forall i :: 0 <= i < |Takes(p, f, lots, q)| ==> Takes(p, f, lots, q)[i].quantity > 0
    ensures QuantitySum(Takes(p, f, lots, q)) == q
    ensures Takes(p, f, lots, q) == [] <==> q == 0
  {
    TakesSum(p, f, lots, q);
    if q == 0 || lots == [] {
    } else if lots[0].quantity <= q {
      TakesAddUp(p, f, lots[1..], q - lots[0].quantity);
    }
  }

  lemma SharesOfWhole(p: Pos, f: Fill, lots: seq<Lot>, q: nat)
    requires lots != [] && 0 < lots[0].quantity <= q <= |Units(lots)|
    requires forall i :: 0 <= i < |Takes(p, f, lots, q)| ==> Takes(p, f, lots, q)[i].quantity > 0
    requires var rest := Takes(p, f, lots[1..], q - lots[0].quantity);
      && (forall i :: 0 <= i < |rest| ==> rest[i].quantity > 0)
      && Shares(rest) == Credits(Units(lots[1..])[..q - lots[0].quantity], p.side, f.price)
    ensures Shares(Takes(p, f, lots, q)) == Credits(Units(lots)[..q], p.side, f.price)
  {
    hide Credits, Shares, Repeat, Allocate;
    var n, tail := lots[0].quantity, lots[1..];
    SharesOfHead(p, f, lots[0], n, Takes(p, f, tail, q - n), Units(tail)[..q - n]);
    assert Units(lots)[..q] == Repeat(UnitOf(lots[0]), n) + Units(tail)[..q - n];
  }

  /** The allocations of a close are the first `q` units of the queue, in order. */
  lemma {:induction false} TakesAreFifo(p: Pos, f: Fill, lots: seq<Lot>, q: nat)
    requires Positive(lots)
    requires q <= Total(lots)
    ensures |Units(lots)| == Total(lots)
    ensures forall i :: 0 <= i < |Takes(p, f, lots, q)| ==> Takes(p, f, lots, q)[i].quantity > 0
    ensures Shares(Takes(p, f, lots, q)) == Credits(Units(lots)[..q], p.side, f.price)
  {
    hide Allocate;
    UnitsLength(lots);
    TakesAddUp(p, f, lots, q);
    if q == 0 || lots == [] {
    } else {
      if lots[0].quantity <= q {
        TakesAreFifo(p, f, lots[1..], q - lots[0].quantity);
        SharesOfWhole(p, f, lots, q);
      } else {
        SharesOfHead(p, f, lots[0], q, [], []);
        assert Units(lots)[..q] == Repeat(UnitOf(lots[0]), q) + [];
        assert Takes(p, f, lots, q) == [Allocate(p, f, lots[0], q)] + [];
      }
    }
  }

  lemma {:induction false} QuantitySumCons(a: Allocation, xs: seq<Allocation>)
    ensures QuantitySum([a] + xs) == a.quantity + QuantitySum(xs)
  {
    var all := [a] + xs;
    if xs == [] {
      assert all[..0] == [];
    } else {
      assert all[..|all| - 1] == [a] + xs[..|xs| - 1];
      QuantitySumCons(a, xs[..|xs| - 1]);
    }
  }

  lemma {:induction false} PnlSumCons(a: Allocation, xs: seq<Allocation>)
    ensures PnlSum([a] + xs) == a.pnl + PnlSum(xs)
  {
    var all := [a] + xs;
    if xs == [] {
      assert all[..0] == [];
    } else {
      assert all[..|all| - 1] == [a] + xs[..|xs| - 1];
      PnlSumCons(a, xs[..|xs| - 1]);
    }
  }

  // ---- marking to market ----

  /** What the lots are worth when everything trades at `mark`. */
  function Value(lots: seq<Lot>, side: Side, mark: real): real {
    if lots == [] then 0.0
    else Times(Dir(side) * lots[0].quantity, mark - lots[0].price) + Value(lots[1..], side, mark)
  }

  lemma {:induction false} ValueAppend(lots: seq<Lot>, lot: Lot, side: Side, mark: real)
    ensures Value(lots + [lot], side, mark)
         == Value(lots, side, mark) + Times(Dir(side) * lot.quantity, mark - lot.price)
  {
    if lots == [] {
      assert lots + [lot] == [lot];
    } else {
      ValueAppend(lots[1..], lot, side, mark);
      assert (lots + [lot])[1..] == lots[1..] + [lot];
    }
  }

  /** `k` of `n` units sold at `price`: worth splits into the rest, the gain, and the sold units' own distance. */
  lemma SplitWorth(dir: int, n: int, k: int, mark: real, price: real, cost: real)
    ensures Times(dir * n, mark - cost)
         == Times(dir * (n - k), mark - cost) + Times(dir * k, price - cost) + Times(dir * k, mark - price)
  {
    assert dir * n == dir * (n - k) + dir * k;
    TimesAddsCounts(dir * (n - k), dir * k, mark - cost);
    TimesAddsValues(dir * k, price - cost, mark - price);
    assert (price - cost) + (mark - price) == mark - cost;
  }

  lemma {:induction false} SplitCount(dir: int, k: int, q: int, x: real)
    ensures Times(dir * q, x) == Times(dir * k, x) + Times(dir * (q - k), x)
  {
    assert dir * q == dir * k + dir * (q - k);
    TimesAddsCounts(dir * k, dir * (q - k), x);
  }

  /** The head lot goes completely, the rest of the close comes out of the tail. */
  lemma WholeHeadConserves(p: Pos, f: Fill, lots: seq<Lot>, q: nat, mark: real)
    requires lots != [] && lots[0].quantity <= q && q > 0 && Positive(lots)
    requires var k := lots[0].quantity;
      PnlSum(Takes(p, f, lots[1..], q - k)) + Value(Drop(lots[1..], q - k), p.side, mark)
      == Value(lots[1..], p.side, mark) - Times(Dir(p.side) * (q - k), mark - f.price)
    ensures PnlSum(Takes(p, f, lots, q)) + Value(Drop(lots, q), p.side, mark)
         == Value(lots, p.side, mark) - Times(Dir(p.side) * q, mark - f.price)
  {
    hide Times, PnlSum;
    var head := lots[0];
    SplitWorth(Dir(p.side), head.quantity, head.quantity, mark, f.price, head.price);
    PnlSumCons(Allocate(p, f, head, head.quantity), Takes(p, f, lots[1..], q - head.quantity));
    SplitCount(Dir(p.side), head.quantity, q, mark - f.price);
    TimesZero(mark - head.price);
  }

  /** The close stops inside the head lot. */
  lemma {:induction false} PartOfHeadConserves(p: Pos, f: Fill, lots: seq<Lot>, q: nat, mark: real)
    requires lots != [] && 0 < q < lots[0].quantity
    ensures PnlSum(Takes(p, f, lots, q)) + Value(Drop(lots, q), p.side, mark)
         == Value(lots, p.side, mark) - Times(Dir(p.side) * q, mark - f.price)
  {
    hide Times;
    var head, tail := lots[0], lots[1..];
    SplitWorth(Dir(p.side), head.quantity, q, mark, f.price, head.price);
    PnlSumCons(Allocate(p, f, head, q), []);
    assert [Allocate(p, f, head, q)] + [] == [Allocate(p, f, head, q)];
    var rest := head.(quantity := head.quantity - q);
    assert Drop(lots, q) == [rest] + tail && ([rest] + tail)[1..] == tail;
  }

  /** Closing moves worth from open to realized; only the closed units' distance to the mark leaves. */
  lemma {:induction false} CloseConserves(p: Pos, f: Fill, lots: seq<Lot>, q: nat, mark: real)
    requires Positive(lots)
    requires q <= Total(lots)
    ensures PnlSum(Takes(p, f, lots, q)) + Value(Drop(lots, q), p.side, mark)
         == Value(lots, p.side, mark) - Times(Dir(p.side) * q, mark - f.price)
  {
    if q == 0 || lots == [] {
    } else {
      hide Value, Times, PnlSum, Takes, Drop;
      if lots[0].quantity <= q {
        CloseConserves(p, f, lots[1..], q - lots[0].quantity, mark);
        WholeHeadConserves(p, f, lots, q, mark);
      } else {
        PartOfHeadConserves(p, f, lots, q, mark);
      }
    }
  }

  // ---- the whole ledger ----

  /** A symbol's position as a queue of units on one side. */
  datatype Book = Flat | Held(side: Side, units: seq<Unit>)

  function BookOf(s: Ledger, symbol: string): Book {
    match OpenOf(s, symbol)
    case None => Flat
    case Some(p) => Held(p.side, Units(p.lots))
  }

  function Normal(side: Side, units: seq<Unit>): Book {
    if units == [] then Flat else Held(side, units)
  }

  /** The reference model of one fill: entries queue units, everything else takes them off the front. */
  function BookStep(b: Book, f: Fill): Book {
    var incoming := Repeat(UnitOf(LotOf(f)), f.quantity);
    match b
    case Flat => if f.intentType.ENTRY? then Normal(f.side, incoming) else Flat
    case Held(side, units) =>
      if f.intentType.ENTRY? && side == f.side then Held(side, units + incoming)
      else if f.quantity < |units| then Normal(side, units[Max(0, f.quantity)..])
      else if f.intentType.ENTRY? then Normal(f.side, incoming[|units|..])
      else Flat
  }

  function BookRun(fills: seq<Fill>, symbol: string): Book {
    if fills == [] then Flat
    else
      var b := BookRun(fills[..|fills| - 1], symbol);
      var f := fills[|fills| - 1];
      if f.symbol == symbol then BookStep(b, f) else b
  }

  /** The worth of all open lots, each symbol valued at its mark. */
  ghost function OpenValue(ps: map<PosId, Pos>, mark: string -> real): real {
    if ps == map[] then 0.0
    else
      var id :| id in ps;
      Value(ps[id].lots, ps[id].side, mark(ps[id].symbol)) + OpenValue(ps - {id}, mark)
  }

  lemma {:induction false} OpenValueWithout(ps: map<PosId, Pos>, mark: string -> real, id: PosId)
    requires id in ps
    ensures OpenValue(ps, mark)
         == Value(ps[id].lots, ps[id].side, mark(ps[id].symbol)) + OpenValue(ps - {id}, mark)
    decreases |ps|
  {
    var first :| first in ps && OpenValue(ps, mark)
      == Value(ps[first].lots, ps[first].side, mark(ps[first].symbol)) + OpenValue(ps - {first}, mark);
    if first != id {
      OpenValueWithout(ps - {first}, mark, id);
      OpenValueWithout(ps - {id}, mark, first);
      assert (ps - {first}) - {id} == (ps - {id}) - {first};
    }
  }

  lemma OpenValueSet(ps: map<PosId, Pos>, mark: string -> real, p: Pos)
    ensures OpenValue(ps[p.id := p], mark) == Value(p.lots, p.side, mark(p.symbol)) + OpenValue(ps - {p.id}, mark)
  {
    OpenValueWithout(ps[p.id := p], mark, p.id);
    assert ps[p.id := p] - {p.id} == ps - {p.id};
  }

  ghost function Wealth(s: Ledger, mark: string -> real): real {
    s.realized.total + OpenValue(s.positions, mark)
  }

  lemma OpenKeepsInv(s: Ledger, f: Fill)
    requires Inv(s) && f.quantity > 0 && f.symbol !in s.openBySymbol
    ensures Inv(OpenPosition(s, f))
    ensures OpenedBy(f).id !in s.positions
  {
    hide GoodPos, Paired;
    OpenedIsGood(f);
    AddedStayPaired(s.positions, s.openBySymbol, OpenedBy(f));
  }

  lemma AddedStayPaired(positions: map<PosId, Pos>, openBySymbol: map<string, PosId>, p: Pos)
    requires Paired(positions, openBySymbol) && p.id.symbol !in openBySymbol
    ensures p.id !in positions
    ensures Paired(positions[p.id := p], openBySymbol[p.id.symbol := p.id])
  {
  }

  lemma OpenedIsGood(f: Fill)
    requires f.quantity > 0
    ensures GoodPos(OpenedBy(f), OpenedBy(f).id)
  {
  }

  lemma OpenBook(s: Ledger, f: Fill)
    requires Inv(s) && f.quantity > 0 && f.symbol !in s.openBySymbol
    ensures BookOf(OpenPosition(s, f), f.symbol) == Held(f.side, Repeat(UnitOf(LotOf(f)), f.quantity))
    ensures forall symbol :: symbol != f.symbol ==> BookOf(OpenPosition(s, f), symbol) == BookOf(s, symbol)
  {
    hide Inv, OpenPosition, OpenOf;
    OpenLeads(s, f);
    var p := OpenedBy(f);
    assert p.lots[1..] == [];
    assert Units(p.lots) == Repeat(UnitOf(LotOf(f)), f.quantity);
  }

  /** Opening a position changes where its own symbol leads, and no other. */
  lemma OpenLeads(s: Ledger, f: Fill)
    requires Inv(s) && f.symbol !in s.openBySymbol
    ensures OpenOf(OpenPosition(s, f), f.symbol) == Some(OpenedBy(f))
    ensures forall symbol :: symbol != f.symbol ==> OpenOf(OpenPosition(s, f), symbol) == OpenOf(s, symbol)
  {
    hide GoodPos;
    assert OpenedBy(f).id !in s.positions;
  }

  lemma {:induction false} ValueOfOne(lot: Lot, side: Side, mark: real)
    ensures Value([lot], side, mark) == Times(Dir(side) * lot.quantity, mark - lot.price)
  {
    ValueAppend([], lot, side, mark);
    assert [] + [lot] == [lot];
  }

  lemma OpenWealth(s: Ledger, f: Fill, mark: string -> real)
    requires OpenedBy(f).id !in s.positions
    ensures Wealth(OpenPosition(s, f), mark)
         == Wealth(s, mark) + Times(Dir(f.side) * f.quantity, mark(f.symbol) - f.price)
  {
    ValueOfOne(LotOf(f), f.side, mark(f.symbol));
    OpenValueSet(s.positions, mark, OpenedBy(f));
    assert s.positions - {OpenedBy(f).id} == s.positions;
  }

  lemma ReplacedStaysPaired(positions: map<PosId, Pos>, openBySymbol: map<string, PosId>, p: Pos)
    requires Paired(positions, openBySymbol) && p.id in positions
    ensures Paired(positions[p.id := p], openBySymbol) && |positions[p.id := p]| == |positions|
  {
    assert positions[p.id := p].Keys == positions.Keys;
    assert |positions| == |positions.Keys| && |positions[p.id := p]| == |positions[p.id := p].Keys|;
  }

  lemma ScaleInKeepsInv(s: Ledger, p: Pos, f: Fill)
    requires Inv(s) && f.quantity > 0 && OpenOf(s, f.symbol) == Some(p)
    ensures Inv(ScaleIn(s, p, f))
  {
    hide Paired;
    OpenIsStored(s, f.symbol, p);
    ReplacedStaysPaired(s.positions, s.openBySymbol, p.(lots := p.lots + [LotOf(f)]));
  }

  lemma ScaleInBook(s: Ledger, p: Pos, f: Fill)
    requires Inv(s) && f.quantity > 0 && OpenOf(s, f.symbol) == Some(p)
    ensures BookOf(ScaleIn(s, p, f), f.symbol) == Held(p.side, Units(p.lots) + Repeat(UnitOf(LotOf(f)), f.quantity))
    ensures forall symbol :: symbol != f.symbol ==> BookOf(ScaleIn(s, p, f), symbol) == BookOf(s, symbol)
  {
    UnitsAppend(p.lots, LotOf(f));
    forall symbol | symbol != f.symbol
      ensures OpenOf(ScaleIn(s, p, f), symbol) == OpenOf(s, symbol)
    {
    }
  }

  lemma OpenIsStored(s: Ledger, symbol: string, p: Pos)
    requires Inv(s) && OpenOf(s, symbol) == Some(p)
    ensures p.symbol == symbol && p.id in s.positions && s.positions[p.id] == p
  {
  }

  lemma ScaleInWealth(s: Ledger, p: Pos, f: Fill, mark: string -> real)
    requires Inv(s) && f.quantity > 0 && OpenOf(s, f.symbol) == Some(p) && p.side == f.side
    ensures Wealth(ScaleIn(s, p, f), mark)
         == Wealth(s, mark) + Times(Dir(f.side) * f.quantity, mark(f.symbol) - f.price)
  {
    hide Times, Total, Inv, OpenOf;
    OpenIsStored(s, f.symbol, p);
    ValueAppend(p.lots, LotOf(f), p.side, mark(p.symbol));
    OpenValueSet(s.positions, mark, p.(lots := p.lots + [LotOf(f)]));
    OpenValueWithout(s.positions, mark, p.id);
  }

  /** How many units `f` takes off `p`. */
  function Taken(p: Pos, f: Fill): int {
    Min(f.quantity, Total(p.lots))
  }

  lemma CloseShape(s: Ledger, p: Pos, f: Fill)
    requires Inv(s) && f.quantity > 0 && OpenOf(s, f.symbol) == Some(p)
    ensures Positive(p.lots) && |Units(p.lots)| == Total(p.lots) > 0
    ensures Units(Reduced(p, f).lots) == Units(p.lots)[Taken(p, f)..]
    ensures Positive(Reduced(p, f).lots)
    ensures ClosesFully(p, f) <==> f.quantity >= Total(p.lots)
    ensures ClosesFully(p, f) <==> Reduced(p, f).lots == []
  {
    UnitsLength(p.lots);
    DropIsFifo(p.lots, Taken(p, f));
    TakesAddUp(p, f, p.lots, Taken(p, f));
  }

  /** Replacing a position by a good one under the same id keeps the maps in order. */
  lemma ReplacedKeepsInv(s: Ledger, t: Ledger, id: PosId, q: Pos)
    requires Inv(s) && id in s.positions && GoodPos(q, id)
    requires t.positions == s.positions[id := q] && t.openBySymbol == s.openBySymbol
    requires t.openedCount == s.openedCount && t.closedCount == s.closedCount
    ensures Inv(t)
  {
    hide GoodPos;
    assert t.positions.Keys == s.positions.Keys;
  }

  /** So does taking a position out of both maps and counting it closed. */
  lemma RemovedKeepsInv(s: Ledger, t: Ledger, id: PosId)
    requires Inv(s) && id in s.positions
    requires t.positions == s.positions - {id} && t.openBySymbol == s.openBySymbol - {id.symbol}
    requires t.openedCount == s.openedCount && t.closedCount == s.closedCount + 1
    ensures Inv(t)
  {
    hide GoodPos, Paired;
    RemovedStayPaired(s.positions, s.openBySymbol, id);
    OneLess(s.positions, t.positions, id);
  }

  lemma RemovedStayPaired(positions: map<PosId, Pos>, openBySymbol: map<string, PosId>, id: PosId)
    requires Paired(positions, openBySymbol) && id in positions
    ensures Paired(positions - {id}, openBySymbol - {id.symbol})
  {
    forall x | x in positions && x != id
      ensures x.symbol != id.symbol
    {
      assert openBySymbol[x.symbol] == x && openBySymbol[id.symbol] == id;
    }
  }

  lemma OneLess(before: map<PosId, Pos>, after: map<PosId, Pos>, id: PosId)
    requires id in before && after == before - {id}
    ensures |after| == |before| - 1
  {
    assert after.Keys == before.Keys - {id};
  }

  lemma CloseKeepsInv(s: Ledger, p: Pos, f: Fill)
    requires Inv(s) && f.quantity > 0 && OpenOf(s, f.symbol) == Some(p)
    ensures Inv(CloseFifo(s, p, f))
    ensures f.quantity >= Total(p.lots) ==> f.symbol !in CloseFifo(s, p, f).openBySymbol
  {
    CloseShape(s, p, f);
    assert p.id in s.positions && GoodPos(p, p.id) && p.symbol == f.symbol;
    hide Inv, Positive, Total, Units, Takes, Drop, ClosesFully, Closing, DecisionsOf;
    var t := CloseFifo(s, p, f);
    if ClosesFully(p, f) {
      assert t.positions == s.positions - {p.id};
      RemovedKeepsInv(s, t, p.id);
    } else {
      ReplacedKeepsInv(s, t, p.id, Reduced(p, f));
    }
  }

  lemma CloseBook(s: Ledger, p: Pos, f: Fill)
    requires Inv(s) && f.quantity > 0 && OpenOf(s, f.symbol) == Some(p)
    ensures |Units(p.lots)| == Total(p.lots) > 0
    ensures BookOf(CloseFifo(s, p, f), f.symbol) == Normal(p.side, Units(p.lots)[Taken(p, f)..])
    ensures forall symbol :: symbol != f.symbol ==> BookOf(CloseFifo(s, p, f), symbol) == BookOf(s, symbol)
  {
    CloseShape(s, p, f);
    CloseKeepsInv(s, p, f);
    hide Inv, Units;
    forall symbol | symbol != f.symbol
      ensures OpenOf(CloseFifo(s, p, f), symbol) == OpenOf(s, symbol)
    {
      CloseLeavesOthers(s, p, f, symbol);
    }
  }

  /** Closing on one symbol leaves the open position of every other symbol as it was. */
  lemma CloseLeavesOthers(s: Ledger, p: Pos, f: Fill, symbol: string)
    requires Inv(s) && OpenOf(s, f.symbol) == Some(p) && symbol != f.symbol
    ensures OpenOf(CloseFifo(s, p, f), symbol) == OpenOf(s, symbol)
  {
  }


  lemma BookedWealth(s: Ledger, p: Pos, f: Fill, mark: string -> real)
    requires p.id in s.positions && s.positions[p.id] == p
    requires Positive(p.lots) && 0 <= Taken(p, f) <= Total(p.lots)
    ensures Wealth(Booked(s, p, f), mark)
         == Wealth(s, mark) - Times(Dir(p.side) * Taken(p, f), mark(p.symbol) - f.price)
  {
    hide Drop, Takes, Total, Times, Value, Positive, PnlSum;
    CloseConserves(p, f, p.lots, Taken(p, f), mark(p.symbol));
    OpenValueWithout(s.positions, mark, p.id);
    OpenValueSet(s.positions, mark, Reduced(p, f));
  }

  /** Retiring an empty position takes nothing away. */
  lemma RetiredWealth(s: Ledger, p: Pos, allocs: seq<Allocation>, mark: string -> real)
    requires p.id in s.positions && s.positions[p.id] == p && p.lots == []
    ensures Wealth(Retired(s, p.id, p.symbol, allocs), mark) == Wealth(s, mark)
  {
    hide DecisionsOf;
    OpenValueWithout(s.positions, mark, p.id);
  }

  lemma CloseWealth(s: Ledger, p: Pos, f: Fill, mark: string -> real)
    requires Inv(s) && f.quantity > 0 && OpenOf(s, f.symbol) == Some(p)
    ensures Wealth(CloseFifo(s, p, f), mark)
         == Wealth(s, mark) - Times(Dir(p.side) * Taken(p, f), mark(f.symbol) - f.price)
  {
    assert p.symbol == f.symbol && s.positions[p.id] == p;
    CloseShape(s, p, f);
    hide Inv, Wealth, Retired, Times, Units, Total, ClosesFully, PnlSum;
    BookedWealth(s, p, f, mark);
    if ClosesFully(p, f) {
      RetiredWealth(Booked(s, p, f), Reduced(p, f), Closing(p, f), mark);
    }
  }

  // ---- one fold, and every run of folds ----

  lemma AttributeKeepsInv(s: Ledger, f: Fill)
    requires Inv(s) && f.quantity > 0
    ensures Inv(Attribute(s, f))
  {
    hide Inv, CloseFifo, OpenPosition, ScaleIn;
    match OpenOf(s, f.symbol)
    case None =>
      if f.intentType.ENTRY? {
        NoneIsAbsent(s, f.symbol);
        OpenKeepsInv(s, f);
      }
    case Some(p) =>
      CloseKeepsInv(s, p, f);
      if !f.intentType.ENTRY? {
      } else if p.side == f.side {
        ScaleInKeepsInv(s, p, f);
      } else if Remainder(p, f).quantity > 0 {
        OpenKeepsInv(CloseFifo(s, p, f), Remainder(p, f));
      }
  }

  lemma NotedKeepsInv(s: Ledger, f: Fill)
    requires Inv(s)
    ensures Inv(Noted(s, f))
  {
  }

  /** The fold keeps the two maps in step, lots positive, and opened - closed = open. */
  lemma FoldKeepsInv(s: Ledger, f: Fill)
    requires Inv(s) && f.quantity > 0
    ensures Inv(Fold(s, f))
  {
    NotedKeepsInv(s, f);
    hide Inv, Noted;
    AttributeKeepsInv(Noted(s, f), f);
  }

  lemma NoneIsAbsent(s: Ledger, symbol: string)
    requires Inv(s) && OpenOf(s, symbol) == None
    ensures symbol !in s.openBySymbol
  {
  }

  lemma NotedBook(s: Ledger, f: Fill)
    ensures forall symbol :: BookOf(Noted(s, f), symbol) == BookOf(s, symbol)
  {
  }

  lemma RemainderUnits(p: Pos, f: Fill)
    requires f.quantity > Total(p.lots) >= 0
    ensures Repeat(UnitOf(LotOf(Remainder(p, f))), Remainder(p, f).quantity)
         == Repeat(UnitOf(LotOf(f)), f.quantity)[Total(p.lots)..]
  {
  }

  lemma FlipBook(s: Ledger, p: Pos, f: Fill)
    requires Inv(s) && f.quantity > Total(p.lots) && OpenOf(s, f.symbol) == Some(p)
    ensures var t := OpenPosition(CloseFifo(s, p, f), Remainder(p, f));
      && |Units(p.lots)| == Total(p.lots) > 0
      && BookOf(t, f.symbol) == Held(f.side, Repeat(UnitOf(LotOf(f)), f.quantity)[Total(p.lots)..])
      && (forall symbol :: symbol != f.symbol ==> BookOf(t, symbol) == BookOf(s, symbol))
  {
    UnitsLength(p.lots);
    hide Inv, CloseFifo, OpenPosition, OpenOf, BookOf, Total, Units, Repeat, Normal;
    CloseBook(s, p, f);
    CloseKeepsInv(s, p, f);
    OpenBook(CloseFifo(s, p, f), Remainder(p, f));
    RemainderUnits(p, f);
  }

  lemma AttributeRefinesQueue(s: Ledger, f: Fill)
    requires Inv(s) && f.quantity > 0
    ensures BookOf(Attribute(s, f), f.symbol) == BookStep(BookOf(s, f.symbol), f)
    ensures forall symbol :: symbol != f.symbol ==> BookOf(Attribute(s, f), symbol) == BookOf(s, symbol)
  {
    hide Inv, CloseFifo, OpenPosition, ScaleIn, Units, Total;
    match OpenOf(s, f.symbol)
    case None =>
      if f.intentType.ENTRY? {
        NoneIsAbsent(s, f.symbol);
        OpenBook(s, f);
      }
    case Some(p) =>
      if f.intentType.ENTRY? && p.side == f.side {
        ScaleInBook(s, p, f);
      } else {
        CloseBook(s, p, f);
        if f.intentType.ENTRY? && Remainder(p, f).quantity > 0 {
          FlipBook(s, p, f);
        }
      }
  }

  /** The fold refines the unit queue of the fill's symbol and touches no other symbol. */
  lemma FoldRefinesQueue(s: Ledger, f: Fill)
    requires Inv(s) && f.quantity > 0
    ensures BookOf(Fold(s, f), f.symbol) == BookStep(BookOf(s, f.symbol), f)
    ensures forall symbol :: symbol != f.symbol ==> BookOf(Fold(s, f), symbol) == BookOf(s, symbol)
  {
    hide Inv, Noted, Attribute, BookOf, BookStep;
    NotedKeepsInv(s, f);
    NotedBook(s, f);
    AttributeRefinesQueue(Noted(s, f), f);
  }

  function NetOf(b: Book): int {
    match b
    case Flat => 0
    case Held(side, units) => Dir(side) * |units|
  }

  /** The signed quantity a fill really moves: entries in full, exits only towards zero. */
  function Effective(net: int, f: Fill): int {
    if f.intentType.ENTRY? then Dir(f.side) * f.quantity
    else if net > 0 then -Min(f.quantity, net)
    else Min(f.quantity, -net)
  }

  /** The reference model that keeps nothing but one signed number per symbol. */
  function NetRun(fills: seq<Fill>, symbol: string): int {
    if fills == [] then 0
    else
      var n := NetRun(fills[..|fills| - 1], symbol);
      var f := fills[|fills| - 1];
      if f.symbol == symbol then n + Effective(n, f) else n
  }

  lemma QueueRefinesNet(b: Book, f: Fill)
    requires f.quantity > 0
    requires b.Held? ==> b.units != []
    ensures NetOf(BookStep(b, f)) == NetOf(b) + Effective(NetOf(b), f)
    ensures BookStep(b, f).Held? ==> BookStep(b, f).units != []
  {
  }

  lemma TimesNegative(n: int, x: real)
    ensures Times(-n, x) == -Times(n, x)
  {
    TimesAddsCounts(n, -n, x);
  }

  lemma FlipTimes(dir: int, k: int, q: int, x: real)
    ensures Times(dir * (q - k), x) - Times(-dir * k, x) == Times(dir * q, x)
  {
    assert -dir * k == -(dir * k);
    TimesNegative(dir * k, x);
    assert dir * q == dir * k + dir * (q - k);
    TimesAddsCounts(dir * k, dir * (q - k), x);
  }

  lemma FlipWealth(s: Ledger, p: Pos, f: Fill, mark: string -> real)
    requires Inv(s) && f.quantity > Total(p.lots) > 0 && OpenOf(s, f.symbol) == Some(p) && p.side != f.side
    ensures Wealth(OpenPosition(CloseFifo(s, p, f), Remainder(p, f)), mark)
         == Wealth(s, mark) + Times(Dir(f.side) * f.quantity, mark(f.symbol) - f.price)
  {
    hide Inv, CloseFifo, OpenPosition, Wealth, Times;
    CloseWealth(s, p, f, mark);
    CloseKeepsInv(s, p, f);
    OpenKeepsInv(CloseFifo(s, p, f), Remainder(p, f));
    OpenWealth(CloseFifo(s, p, f), Remainder(p, f), mark);
    FlipTimes(Dir(f.side), Total(p.lots), f.quantity, mark(f.symbol) - f.price);
  }

  /** Closing is an effective quantity against the position's side. */
  lemma ReduceWealth(s: Ledger, p: Pos, f: Fill, mark: string -> real)
    requires Inv(s) && f.quantity > 0 && OpenOf(s, f.symbol) == Some(p)
    ensures Wealth(CloseFifo(s, p, f), mark)
         == Wealth(s, mark) + Times(-Dir(p.side) * Taken(p, f), mark(f.symbol) - f.price)
  {
    hide Inv, CloseFifo, Wealth, Times;
    CloseWealth(s, p, f, mark);
    assert -Dir(p.side) * Taken(p, f) == -(Dir(p.side) * Taken(p, f));
    TimesNegative(Dir(p.side) * Taken(p, f), mark(f.symbol) - f.price);
  }

  lemma AttributeWealth(s: Ledger, f: Fill, mark: string -> real)
    requires Inv(s) && f.quantity > 0
    ensures Wealth(Attribute(s, f), mark)
         == Wealth(s, mark) + Times(Effective(NetOf(BookOf(s, f.symbol)), f), mark(f.symbol) - f.price)
  {
    hide Inv, CloseFifo, OpenPosition, ScaleIn, Wealth, Times, Units, Total, Reduced, ClosesFully;
    match OpenOf(s, f.symbol)
    case None =>
      if f.intentType.ENTRY? {
        NoneIsAbsent(s, f.symbol);
        OpenKeepsInv(s, f);
        OpenWealth(s, f, mark);
      } else {
        TimesZero(mark(f.symbol) - f.price);
      }
    case Some(p) =>
      CloseShape(s, p, f);
      if f.intentType.ENTRY? && p.side == f.side {
        ScaleInWealth(s, p, f, mark);
      } else if f.intentType.ENTRY? && f.quantity > Total(p.lots) {
        FlipWealth(s, p, f, mark);
      } else {
        ReduceWealth(s, p, f, mark);
      }
  }

  lemma {:induction false} TimesZero(x: real)
    ensures Times(0, x) == 0.0
  {
  }

  /** One fold changes wealth by exactly the effective quantity's distance to the mark. */
  lemma FoldWealth(s: Ledger, f: Fill, mark: string -> real)
    requires Inv(s) && f.quantity > 0
    ensures Wealth(Fold(s, f), mark)
         == Wealth(s, mark) + Times(Effective(NetOf(BookOf(s, f.symbol)), f), mark(f.symbol) - f.price)
  {
    assert Wealth(Noted(s, f), mark) == Wealth(s, mark);
    hide Inv, Noted, Wealth, Attribute, BookOf, Effective, NetOf;
    NotedKeepsInv(s, f);
    NotedBook(s, f);
    AttributeWealth(Noted(s, f), f, mark);
  }

  ghost predicate AllPositive(fills: seq<Fill>) {
    forall i :: 0 <= i < |fills| ==> fills[i].quantity > 0
  }

  /** Every run: consistent maps, and both reference models agree with the ledger on every symbol. */
  lemma {:induction false} RunRefines(fills: seq<Fill>, symbol: string)
    requires AllPositive(fills)
    ensures Inv(FoldAll(Empty(), fills))
    ensures BookOf(FoldAll(Empty(), fills), symbol) == BookRun(fills, symbol)
    ensures NetOf(BookRun(fills, symbol)) == NetRun(fills, symbol)
    ensures BookRun(fills, symbol).Held? ==> BookRun(fills, symbol).units != []
  {
    if fills == [] {
    } else {
      var before, f := fills[..|fills| - 1], fills[|fills| - 1];
      RunRefines(before, symbol);
      FoldKeepsInv(FoldAll(Empty(), before), f);
      FoldRefinesQueue(FoldAll(Empty(), before), f);
      QueueRefinesNet(BookRun(before, symbol), f);
    }
  }

  /** Sum over the fills of effective quantity times the distance from the recorded price to the mark. */
  ghost function MarkedFlow(fills: seq<Fill>, mark: string -> real): real {
    if fills == [] then 0.0
    else
      var before, f := fills[..|fills| - 1], fills[|fills| - 1];
      MarkedFlow(before, mark) + Effective(NetRun(before, f.symbol), f) as real * (mark(f.symbol) - f.price)
  }

  lemma {:induction false} MarkedFlowStep(before: seq<Fill>, f: Fill, mark: string -> real)
    ensures MarkedFlow(before + [f], mark)
         == MarkedFlow(before, mark) + Times(Effective(NetRun(before, f.symbol), f), mark(f.symbol) - f.price)
  {
    hide Times, Effective, NetRun;
    assert (before + [f])[..|before|] == before;
    TimesIsProduct(Effective(NetRun(before, f.symbol), f), mark(f.symbol) - f.price);
  }

  /** Mark-to-market conservation: for any marks, realized plus open worth is the marked flow of the fills. */
  lemma {:induction false} Conservation(fills: seq<Fill>, mark: string -> real)
    requires AllPositive(fills)
    ensures Wealth(FoldAll(Empty(), fills), mark) == MarkedFlow(fills, mark)
  {
    if fills == [] {
    } else {
      var before, f := fills[..|fills| - 1], fills[|fills| - 1];
      assert fills == before + [f];
      Conservation(before, mark);
      RunRefines(before, f.symbol);
      hide Inv, Fold, Wealth, MarkedFlow, Times, Effective, NetOf, BookOf, BookRun;
      FoldWealth(FoldAll(Empty(), before), f, mark);
      MarkedFlowStep(before, f, mark);
    }
  }

  /** The allocations a fold makes are the units it removes from the queue, oldest first. */
  lemma FoldAllocationsAreFifo(s: Ledger, f: Fill)
    requires Inv(s) && f.quantity > 0
    ensures forall i :: 0 <= i < |AllocationsOf(s, f)| ==> AllocationsOf(s, f)[i].quantity > 0
    ensures Shares(AllocationsOf(s, f)) == match BookOf(s, f.symbol)
      case Flat => []
      case Held(side, units) =>
        if f.intentType.ENTRY? && side == f.side then []
        else Credits(units[..Min(f.quantity, |units|)], side, f.price)
  {
    match OpenOf(s, f.symbol)
    case None =>
    case Some(p) =>
      CloseShape(s, p, f);
      hide Inv;
      TakesAreFifo(p, f, p.lots, Taken(p, f));
  }
}
