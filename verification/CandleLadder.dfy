/** The bounded candle ladder of one timeframe: a map by open time that keeps its newest `cap` entries. */
module CandleLadder {
  import opened Market

  type Ladder = map<OpenTime, Candle>

  /** Each candle is filed under its own open time. */
  predicate Filed(m: Ladder) {
    forall t :: t in m ==> m[t].openTime == t
  }

  lemma Member<T>(s: set<T>) returns (x: T)
    requires s != {}
    ensures x in s
  {
    x :| x in s;
  }

  lemma Outside<T>(a: set<T>, b: set<T>) returns (x: T)
    requires !(a <= b)
    ensures x in a && x !in b
  {
    x :| x in a && x !in b;
  }

  lemma {:induction false} LeastExists(s: set<OpenTime>)
    requires s != {}
    ensures exists x :: x in s && forall y :: y in s ==> x.ms <= y.ms
    decreases |s|
  {
    var x := Member(s);
    var rest := s - {x};
    if rest == {} {
      assert forall y :: y in s ==> y in rest || y == x;
    } else {
      LeastExists(rest);
      var z :| z in rest && forall y :: y in rest ==> z.ms <= y.ms;
      var least := if x.ms <= z.ms then x else z;
      assert forall y :: y in s ==> y in rest || y == x;
      assert least in s && forall y :: y in s ==> least.ms <= y.ms;
    }
  }

  ghost function FirstOf(s: set<OpenTime>): (t: OpenTime)
    requires s != {}
    ensures t in s && forall u :: u in s ==> t.ms <= u.ms
  {
    LeastExists(s);
    var t :| t in s && forall u :: u in s ==> t.ms <= u.ms;
    t
  }

  ghost function Oldest(m: Ladder): (t: OpenTime)
    requires m.Keys != {}
    ensures t in m && forall u :: u in m ==> t.ms <= u.ms
  {
    FirstOf(m.Keys)
  }

  /** Drop the oldest entries until `cap` remain. */
  ghost function Newest(m: Ladder, cap: nat): Ladder
    decreases |m|
  {
    if |m| <= cap then m else Newest(m - {Oldest(m)}, cap)
  }

  /** What "newest" means: `kept` agrees with `m`, has all of it up to `cap`, and everything left out is older. */
  ghost predicate IsNewest(kept: Ladder, m: Ladder, cap: nat) {
    && (forall t :: t in kept ==> t in m && kept[t] == m[t])
    && |kept| == (if |m| <= cap then |m| else cap)
    && (forall t, u :: t in kept && u in m && u !in kept ==> u.ms < t.ms)
  }

  lemma {:induction false} NewestIsNewest(m: Ladder, cap: nat)
    ensures IsNewest(Newest(m, cap), m, cap)
    decreases |m|
  {
    if |m| <= cap {
    } else {
      var rest := m - {Oldest(m)};
      assert rest.Keys == m.Keys - {Oldest(m)};
      NewestIsNewest(rest, cap);
    }
  }

  lemma SubsetOfSameSize<T>(a: set<T>, b: set<T>)
    requires a <= b && |a| == |b|
    ensures a == b
  {
    if a != b {
      var x := Outside(b, a);
      Fewer(a, b - {x});
    }
  }

  lemma {:induction false} Fewer<T>(a: set<T>, b: set<T>)
    requires a <= b
    ensures |a| <= |b|
    decreases |a|
  {
    if a == {} {
    } else {
      var x := Member(a);
      Fewer(a - {x}, b - {x});
    }
  }

  /** The newest `cap` entries of a map are unique. */
  lemma OnlyOneNewest(a: Ladder, b: Ladder, m: Ladder, cap: nat)
    requires IsNewest(a, m, cap) && IsNewest(b, m, cap)
    ensures a == b
  {
    assert |a.Keys| == |b.Keys|;
    if a.Keys <= b.Keys {
      SubsetOfSameSize(a.Keys, b.Keys);
    } else if b.Keys <= a.Keys {
      SubsetOfSameSize(b.Keys, a.Keys);
    } else {
      var x := Outside(a.Keys, b.Keys);
      var y := Outside(b.Keys, a.Keys);
      assert false;
    }
  }

  lemma InsertedSize(m: Ladder, t: OpenTime, c: Candle)
    ensures |m[t := c]| == if t in m then |m| else |m| + 1
  {
    assert m[t := c].Keys == m.Keys + {t};
  }

  /** An insertion after dropping old entries leaves the same newest ones as an insertion before. */
  lemma InsertAbsorbed(m: Ladder, t: OpenTime, c: Candle, cap: nat)
    ensures Newest(Newest(m, cap)[t := c], cap) == Newest(m[t := c], cap)
  {
    hide Newest;
    var n := Newest(m, cap);
    var r := Newest(n[t := c], cap);
    NewestIsNewest(m, cap);
    NewestIsNewest(n[t := c], cap);
    NewestIsNewest(m[t := c], cap);
    InsertedSize(m, t, c);
    InsertedSize(n, t, c);
    if |m| <= cap {
      WholeIsNewest(n, m, cap);
    } else {
      forall y, x | y in r && x in m[t := c] && x !in r
        ensures x.ms < y.ms
      {
        if x !in n[t := c] && y !in n {
          DroppedOne(r, n[t := c], t);
        }
      }
      assert IsNewest(r, m[t := c], cap);
      OnlyOneNewest(r, Newest(m[t := c], cap), m[t := c], cap);
    }
  }

  lemma WholeIsNewest(n: Ladder, m: Ladder, cap: nat)
    requires IsNewest(n, m, cap) && |m| <= cap
    ensures n == m
  {
    assert n.Keys <= m.Keys && |n.Keys| == |m.Keys|;
    SubsetOfSameSize(n.Keys, m.Keys);
  }

  /** Fewer kept than there were, and `t` kept: some other entry was left out. */
  lemma DroppedOne(r: Ladder, m: Ladder, t: OpenTime)
    requires |r| < |m| && r.Keys <= m.Keys && t in r
    ensures exists z :: z in m && z !in r && z != t
  {
    if m.Keys <= r.Keys {
      Fewer(m.Keys, r.Keys);
    } else {
      var z := Outside(m.Keys, r.Keys);
      assert z in m && z !in r && z != t;
    }
  }

  // ---- writes ----

  function Filing(m: Ladder, c: Candle): Ladder {
    m[c.openTime := c]
  }

  /** Every candle of a batch, in order; a later one replaces an earlier one of the same open time. */
  function FilingAll(m: Ladder, candles: seq<Candle>): Ladder {
    if candles == [] then m else Filing(FilingAll(m, candles[..|candles| - 1]), candles[|candles| - 1])
  }

  datatype Write = Upsert(candle: Candle) | Backfill(candles: seq<Candle>)

  /** The history nobody trims. */
  function HistoryAfter(writes: seq<Write>): Ladder {
    if writes == [] then map[]
    else
      var h := HistoryAfter(writes[..|writes| - 1]);
      match writes[|writes| - 1]
      case Upsert(c) => Filing(h, c)
      case Backfill(cs) => FilingAll(h, cs)
  }

  ghost function Written(ladder: Ladder, w: Write, cap: nat): Ladder {
    match w
    case Upsert(c) => Newest(Filing(ladder, c), cap)
    case Backfill(cs) => Newest(FilingAll(ladder, cs), cap)
  }

  ghost function LadderAfter(writes: seq<Write>, cap: nat): Ladder {
    if writes == [] then map[] else Written(LadderAfter(writes[..|writes| - 1], cap), writes[|writes| - 1], cap)
  }

  lemma {:induction false} BatchAbsorbed(m: Ladder, candles: seq<Candle>, cap: nat)
    ensures Newest(FilingAll(Newest(m, cap), candles), cap) == Newest(FilingAll(m, candles), cap)
  {
    hide Newest;
    if candles == [] {
      TrimTwice(m, cap);
    } else {
      var init, c := candles[..|candles| - 1], candles[|candles| - 1];
      BatchAbsorbed(m, init, cap);
      InsertAbsorbed(FilingAll(Newest(m, cap), init), c.openTime, c, cap);
      InsertAbsorbed(FilingAll(m, init), c.openTime, c, cap);
    }
  }

  lemma {:induction false} TrimTwice(m: Ladder, cap: nat)
    ensures Newest(Newest(m, cap), cap) == Newest(m, cap)
  {
    NewestIsNewest(m, cap);
  }

  /**
    After any mix of upserts and backfills the ladder is exactly the newest `cap` entries of the
    unbounded history, each with the candle written last.
   */
  lemma {:induction false} LadderIsNewestOfHistory(writes: seq<Write>, cap: nat)
    ensures LadderAfter(writes, cap) == Newest(HistoryAfter(writes), cap)
    ensures IsNewest(LadderAfter(writes, cap), HistoryAfter(writes), cap)
  {
    hide Newest;
    NewestIsNewest(HistoryAfter(writes), cap);
    if writes == [] {
      NothingToTrim(cap);
    } else {
      var h := HistoryAfter(writes[..|writes| - 1]);
      LadderIsNewestOfHistory(writes[..|writes| - 1], cap);
      match writes[|writes| - 1]
      case Upsert(c) => InsertAbsorbed(h, c.openTime, c, cap);
      case Backfill(cs) => BatchAbsorbed(h, cs, cap);
    }
  }

  lemma {:induction false} NothingToTrim(cap: nat)
    ensures Newest(map[], cap) == map[]
  {
  }

  function OneByOne(candles: seq<Candle>): seq<Write> {
    seq(|candles|, i requires 0 <= i < |candles| => Upsert(candles[i]))
  }

  lemma {:induction false} OneByOneHistory(writes: seq<Write>, candles: seq<Candle>)
    ensures HistoryAfter(writes + OneByOne(candles)) == FilingAll(HistoryAfter(writes), candles)
  {
    if candles == [] {
      assert writes + OneByOne(candles) == writes;
    } else {
      var init := candles[..|candles| - 1];
      var all := writes + OneByOne(candles);
      assert all[..|all| - 1] == writes + OneByOne(init);
      assert all[|all| - 1] == Upsert(candles[|candles| - 1]);
      OneByOneHistory(writes, init);
    }
  }

  /** A backfill leaves the ladder that the same candles upserted one by one leave. */
  lemma {:induction false} BackfillIsUpsertsOneByOne(writes: seq<Write>, candles: seq<Candle>, cap: nat)
    ensures LadderAfter(writes + [Backfill(candles)], cap) == LadderAfter(writes + OneByOne(candles), cap)
  {
    LadderIsNewestOfHistory(writes + [Backfill(candles)], cap);
    LadderIsNewestOfHistory(writes + OneByOne(candles), cap);
    OneByOneHistory(writes, candles);
    assert (writes + [Backfill(candles)])[..|writes|] == writes;
  }
}
