/** The market state store: one book per symbol, one bounded candle ladder per timeframe. */
module MarketStateStore {
  import opened Prelude
  import opened Market
  import opened CandleLadder

  datatype Timeframe = M5 | M15 | H1 | H4

  const TIMEFRAMES: seq<Timeframe> := [M5, M15, H1, H4]

  function CandleCap(tf: Timeframe): nat {
    match tf
    case M5 => 300
    case M15 => 300
    case H1 => 300
    case H4 => 220
  }

  /** The times of a set, oldest first. */
  ghost function Listing(times: set<OpenTime>): (r: seq<OpenTime>)
    ensures |r| == |times|
    decreases |times|
  {
    if times == {} then [] else [FirstOf(times)] + Listing(times - {FirstOf(times)})
  }

  lemma {:induction false} ListingIsExact(times: set<OpenTime>, t: OpenTime)
    ensures t in Listing(times) <==> t in times
    decreases |times|
  {
    if times == {} {
    } else {
      ListingIsExact(times - {FirstOf(times)}, t);
    }
  }

  lemma {:induction false} ListingAscends(times: set<OpenTime>, i: nat, j: nat)
    requires i < j < |times|
    ensures Listing(times)[i].ms < Listing(times)[j].ms
    decreases |times|
  {
    var first := FirstOf(times);
    var rest := times - {first};
    if i > 0 {
      ListingAscends(rest, i - 1, j - 1);
    } else {
      ListingIsExact(rest, Listing(rest)[j - 1]);
      assert Listing(rest)[j - 1] in rest;
    }
  }

  method LeastOf(times: set<OpenTime>) returns (least: OpenTime)
    requires times != {}
    ensures least == FirstOf(times)
  {
    least :| least in times;
    var todo := times - {least};
    while todo != {}
      invariant todo <= times && least in times
      invariant forall t :: t in times && t !in todo ==> least.ms <= t.ms
      decreases |todo|
    {
      var t :| t in todo;
      todo := todo - {t};
      if t.ms < least.ms {
        least := t;
      }
    }
  }

  /** The keys in ascending order. */
  method Sorted(times: set<OpenTime>) returns (r: seq<OpenTime>)
    ensures r == Listing(times)
  {
    r := [];
    var todo := times;
    while todo != {}
      invariant r + Listing(todo) == Listing(times)
      decreases |todo|
    {
      var t := LeastOf(todo);
      assert Listing(todo) == [t] + Listing(todo - {t});
      assert r + Listing(todo) == (r + [t]) + Listing(todo - {t});
      todo := todo - {t};
      r := r + [t];
    }
  }

  lemma {:induction false} DropFirst(m: Ladder, cap: nat)
    requires |m| > cap
    ensures m.Keys != {} && |Listing(m.Keys)| > 0
    ensures var t := Listing(m.Keys)[0];
      && (m - {t}).Keys == m.Keys - {t} && |m - {t}| == |m| - 1
      && Listing((m - {t}).Keys) == Listing(m.Keys)[1..]
      && Newest(m - {t}, cap) == Newest(m, cap)
  {
    hide FirstOf;
    var t := Oldest(m);
    assert (m - {t}).Keys == m.Keys - {t};
    assert Listing(m.Keys) == [t] + Listing(m.Keys - {t});
  }

  /** Delete the oldest entries beyond the cap. */
  method TrimOldest(m: Ladder, cap: nat) returns (r: Ladder)
    ensures r == Newest(m, cap)
  {
    r := m;
    if |m| <= cap {
      return;
    }
    var keys := Sorted(m.Keys);
    var drop := |m| - cap;
    hide Listing, Newest;
    assert keys[0..] == keys;
    var i := 0;
    while i < drop
      invariant 0 <= i <= drop && |r| == |m| - i
      invariant keys[i..] == Listing(r.Keys)
      invariant Newest(r, cap) == Newest(m, cap)
    {
      DropFirst(r, cap);
      assert keys[i..][1..] == keys[i + 1..];
      r := r - {keys[i]};
      i := i + 1;
    }
    NothingToDrop(r, cap);
  }

  lemma {:induction false} NothingToDrop(m: Ladder, cap: nat)
    requires |m| <= cap
    ensures Newest(m, cap) == m
  {
  }

  /** The newest `cap` entries are the last `cap` of the ascending listing. */
  lemma {:induction false} TailIsNewest(m: Ladder, cap: nat)
    ensures LastN(Listing(m.Keys), cap) == Listing(Newest(m, cap).Keys)
    decreases |m|
  {
    if |m| <= cap {
      NothingToDrop(m, cap);
    } else {
      DropFirst(m, cap);
      var t := Listing(m.Keys)[0];
      TailIsNewest(m - {t}, cap);
      hide Listing, Newest;
      assert LastN(Listing(m.Keys)[1..], cap) == LastN(Listing(m.Keys), cap);
    }
  }

  /** The candles at these times, in this order. */
  function CandlesAt(m: Ladder, times: seq<OpenTime>): seq<Candle>
    requires forall i :: 0 <= i < |times| ==> times[i] in m
  {
    seq(|times|, i requires 0 <= i < |times| => m[times[i]])
  }

  lemma ListingIsIn(m: Ladder)
    ensures forall i :: 0 <= i < |Listing(m.Keys)| ==> Listing(m.Keys)[i] in m
  {
    forall i | 0 <= i < |Listing(m.Keys)|
      ensures Listing(m.Keys)[i] in m
    {
      ListingIsExact(m.Keys, Listing(m.Keys)[i]);
    }
  }

  /** A ladder's candles, oldest first. */
  ghost function InOrder(m: Ladder): seq<Candle> {
    ListingIsIn(m);
    CandlesAt(m, Listing(m.Keys))
  }

  /** What a snapshot lists: every candle of the ladder, once, in ascending order of open time. */
  lemma InOrderAscends(m: Ladder)
    requires Filed(m)
    ensures forall i, j :: 0 <= i < j < |InOrder(m)| ==> InOrder(m)[i].openTime.ms < InOrder(m)[j].openTime.ms
    ensures forall c :: c in InOrder(m) <==> c.openTime in m && m[c.openTime] == c
  {
    ListingIsIn(m);
    var times := Listing(m.Keys);
    hide Listing;
    forall i, j | 0 <= i < j < |times|
      ensures times[i].ms < times[j].ms
    {
      ListingAscends(m.Keys, i, j);
    }
    forall c
      ensures c in InOrder(m) <==> c.openTime in m && m[c.openTime] == c
    {
      ListingIsExact(m.Keys, c.openTime);
      if c.openTime in m && m[c.openTime] == c {
        var i :| 0 <= i < |times| && times[i] == c.openTime;
        assert InOrder(m)[i] == c;
      }
    }
  }

  lemma TailOfCandles(m: Ladder, kept: Ladder, times: seq<OpenTime>, cap: nat)
    requires forall i :: 0 <= i < |times| ==> times[i] in m
    requires forall i :: 0 <= i < |LastN(times, cap)| ==> LastN(times, cap)[i] in kept
    requires forall t :: t in kept ==> t in m && kept[t] == m[t]
    ensures LastN(CandlesAt(m, times), cap) == CandlesAt(kept, LastN(times, cap))
  {
  }

  method CapCandles(m: Ladder, cap: nat) returns (r: seq<Candle>)
    ensures r == InOrder(Newest(m, cap))
  {
    var times := Sorted(m.Keys);
    ListingIsIn(m);
    var sorted := CandlesAt(m, times);
    r := LastN(sorted, cap);
    TailIsNewest(m, cap);
    NewestIsNewest(m, cap);
    ListingIsIn(Newest(m, cap));
    hide Newest, Listing, CandlesAt, LastN;
    TailOfCandles(m, Newest(m, cap), times, cap);
  }

  /** One ladder per timeframe. */
  datatype Ladders = Ladders(m5: Ladder, m15: Ladder, h1: Ladder, h4: Ladder) {
    function Get(tf: Timeframe): Ladder {
      match tf
      case M5 => m5
      case M15 => m15
      case H1 => h1
      case H4 => h4
    }

    function Set(tf: Timeframe, m: Ladder): Ladders {
      match tf
      case M5 => this.(m5 := m)
      case M15 => this.(m15 := m)
      case H1 => this.(h1 := m)
      case H4 => this.(h4 := m)
    }
  }

  const EMPTY := Ladders(map[], map[], map[], map[])

  lemma SetThenGet(l: Ladders, tf: Timeframe, m: Ladder, other: Timeframe)
    ensures l.Set(tf, m).Get(other) == if other == tf then m else l.Get(other)
  {
  }

  /** Each ladder is the newest part of its history, up to the cap. */
  ghost predicate Trimmed(candles: Ladders, history: Ladders) {
    forall tf: Timeframe :: Filed(candles.Get(tf)) && candles.Get(tf) == Newest(history.Get(tf), CandleCap(tf))
  }

  lemma {:induction false} TrimmedAfter(candles: Ladders, history: Ladders, tf: Timeframe, m: Ladder, h: Ladder)
    requires Trimmed(candles, history) && Filed(m) && m == Newest(h, CandleCap(tf))
    ensures Trimmed(candles.Set(tf, m), history.Set(tf, h))
  {
    hide Filed, Newest;
    forall other: Timeframe
      ensures Filed(candles.Set(tf, m).Get(other))
      ensures candles.Set(tf, m).Get(other) == Newest(history.Set(tf, h).Get(other), CandleCap(other))
    {
      SetThenGet(candles, tf, m, other);
      SetThenGet(history, tf, h, other);
    }
  }

  lemma EmptyIsTrimmed()
    ensures Trimmed(EMPTY, EMPTY)
  {
    forall tf: Timeframe
      ensures EMPTY.Get(tf) == map[]
    {
    }
  }

  class SymbolBook {
    var candles: Ladders
    var lastEventAt: Option<int>
    /** Everything ever written, untrimmed. */
    ghost var history: Ladders

    ghost predicate Valid()
      reads `candles, `history
    {
      Trimmed(candles, history)
    }

    constructor ()
      ensures Valid() && lastEventAt == None && history == EMPTY
    {
      candles, history, lastEventAt := EMPTY, EMPTY, None;
      EmptyIsTrimmed();
    }

    method Touch(at: int)
      modifies `lastEventAt
      ensures lastEventAt == Some(Max(old(lastEventAt).GetOr(0), at))
    {
      lastEventAt := Some(Max(lastEventAt.GetOr(0), at));
    }

    /** Put a written ladder in place, trimmed to its cap. */
    method Put(tf: Timeframe, m: Ladder, ghost h: Ladder)
      requires Valid() && Filed(m) && Newest(m, CandleCap(tf)) == Newest(h, CandleCap(tf))
      modifies `candles, `history
      ensures Valid() && history == old(history).Set(tf, h)
    {
      hide Newest, Trimmed, Filed;
      StaysFiled(m, CandleCap(tf));
      var r := TrimOldest(m, CandleCap(tf));
      TrimmedAfter(candles, history, tf, r, h);
      candles, history := candles.Set(tf, r), history.Set(tf, h);
    }

    /** Replace or insert one candle, then trim. */
    method Upsert(tf: Timeframe, c: Candle)
      requires Valid()
      modifies `candles, `history
      ensures Valid() && history == old(history).Set(tf, Filing(old(history).Get(tf), c))
    {
      hide Newest;
      InsertAbsorbed(history.Get(tf), c.openTime, c, CandleCap(tf));
      Put(tf, candles.Get(tf)[c.openTime := c], Filing(history.Get(tf), c));
    }

    /** File a whole batch, then trim once. */
    method Backfill(tf: Timeframe, cs: seq<Candle>)
      requires Valid()
      modifies `candles, `history
      ensures Valid() && history == old(history).Set(tf, FilingAll(old(history).Get(tf), cs))
    {
      hide Newest;
      var m := candles.Get(tf);
      var i := 0;
      while i < |cs|
        invariant 0 <= i <= |cs|
        invariant m == FilingAll(candles.Get(tf), cs[..i]) && Filed(m)
      {
        assert cs[..i + 1][..i] == cs[..i];
        m := m[cs[i].openTime := cs[i]];
        i := i + 1;
      }
      assert cs[..i] == cs;
      BatchAbsorbed(history.Get(tf), cs, CandleCap(tf));
      Put(tf, m, FilingAll(history.Get(tf), cs));
    }
  }

  lemma {:induction false} StaysFiled(m: Ladder, cap: nat)
    requires Filed(m)
    ensures Filed(Newest(m, cap))
  {
    NewestIsNewest(m, cap);
  }

  /** The untrimmed histories by symbol; a symbol never written has empty ones. */
  type Archive = map<string, Ladders>

  function HistoryIn(archive: Archive, symbol: string): Ladders {
    if symbol in archive then archive[symbol] else EMPTY
  }

  function HeardIn(events: map<string, Option<int>>, symbol: string): Option<int> {
    if symbol in events then events[symbol] else None
  }

  class MarketStateStore {
    var books: map<string, SymbolBook>

    ghost predicate Valid()
      reads this, books.Values
    {
      && (forall s :: s in books ==> books[s].Valid())
      && (forall s, t :: s in books && t in books && s != t ==> books[s] != books[t])
    }

    /** Every candle ever written, untrimmed. */
    ghost function Written(): Archive
      reads `books, books.Values`history
    {
      map s | s in books :: books[s].history
    }

    /** When each symbol was last heard of. */
    ghost function LastEvents(): map<string, Option<int>>
      reads `books, books.Values`lastEventAt
    {
      map s | s in books :: books[s].lastEventAt
    }

    constructor ()
      ensures Valid() && books == map[] && Written() == map[] && LastEvents() == map[]
    {
      books := map[];
    }

    /** The book of a symbol, created empty on first use. */
    method Book(symbol: string) returns (b: SymbolBook)
      requires Valid()
      modifies `books
      ensures Valid() && symbol in books && books[symbol] == b && books == old(books)[symbol := b]
      ensures if symbol in old(books) then b == old(books)[symbol] else fresh(b)
      ensures b.history == HistoryIn(old(Written()), symbol)
      ensures Written() == old(Written())[symbol := b.history]
      ensures b.lastEventAt == HeardIn(old(LastEvents()), symbol)
      ensures LastEvents() == old(LastEvents())[symbol := b.lastEventAt]
    {
      hide SymbolBook.Valid, EMPTY;
      if symbol !in books {
        b := NewBook(symbol);
      }
      b := books[symbol];
      assert Written() == old(Written())[symbol := b.history];
      assert LastEvents() == old(LastEvents())[symbol := b.lastEventAt];
    }

    method NewBook(symbol: string) returns (b: SymbolBook)
      requires Valid() && symbol !in books
      modifies `books
      ensures Valid() && fresh(b) && books == old(books)[symbol := b]
      ensures b.history == EMPTY && b.lastEventAt == None
    {
      hide SymbolBook.Valid, EMPTY;
      b := new SymbolBook();
      books := books[symbol := b];
    }

    /** One candle from the stream: an in-progress update replaces the bar it belongs to. */
    method UpsertKline(symbol: string, tf: Timeframe, c: Candle, at: int)
      requires Valid()
      modifies this, books.Values
      ensures Valid() && fresh(books.Values - old(books.Values))
      ensures Written() == var h := HistoryIn(old(Written()), symbol);
        old(Written())[symbol := h.Set(tf, Filing(h.Get(tf), c))]
      ensures LastEvents() == old(LastEvents())[symbol := Some(Max(HeardIn(old(LastEvents()), symbol).GetOr(0), at))]
    {
      hide *;
      var b := Book(symbol);
      UpsertInto(symbol, b, tf, c, at);
    }

    /** Only this symbol's history changes. */
    method UpsertInto(ghost symbol: string, b: SymbolBook, tf: Timeframe, c: Candle, at: int)
      requires Valid() && symbol in books && books[symbol] == b
      modifies b
      ensures Valid()
      ensures Written() == var h := old(b.history); old(Written())[symbol := h.Set(tf, Filing(h.Get(tf), c))]
      ensures LastEvents() == old(LastEvents())[symbol := Some(Max(old(b.lastEventAt).GetOr(0), at))]
    {
      hide SymbolBook.Valid, EMPTY, Filing, Ladders.Set, Ladders.Get;
      b.Upsert(tf, c);
      b.Touch(at);
    }

    method BackfillCandles(symbol: string, tf: Timeframe, cs: seq<Candle>, at: int)
      requires Valid()
      modifies this, books.Values
      ensures Valid() && fresh(books.Values - old(books.Values))
      ensures Written() == var h := HistoryIn(old(Written()), symbol);
        old(Written())[symbol := h.Set(tf, FilingAll(h.Get(tf), cs))]
      ensures LastEvents() == old(LastEvents())[symbol := Some(Max(HeardIn(old(LastEvents()), symbol).GetOr(0), at))]
    {
      hide *;
      var b := Book(symbol);
      BackfillInto(symbol, b, tf, cs, at);
    }

    method BackfillInto(ghost symbol: string, b: SymbolBook, tf: Timeframe, cs: seq<Candle>, at: int)
      requires Valid() && symbol in books && books[symbol] == b
      modifies b
      ensures Valid()
      ensures Written() == var h := old(b.history); old(Written())[symbol := h.Set(tf, FilingAll(h.Get(tf), cs))]
      ensures LastEvents() == old(LastEvents())[symbol := Some(Max(old(b.lastEventAt).GetOr(0), at))]
    {
      hide SymbolBook.Valid, EMPTY, FilingAll, Ladders.Set, Ladders.Get;
      b.Backfill(tf, cs);
      b.Touch(at);
    }

    /** The candle part of a snapshot: per timeframe, the newest entries of all that was written, oldest first. */
    method Snapshot(symbol: string) returns (r: Option<map<Timeframe, seq<Candle>>>)
      requires Valid()
      ensures r.Some? <==> HeardIn(LastEvents(), symbol).Some?
      ensures r.Some? ==> r.value.Keys == {M5, M15, H1, H4}
      ensures r.Some? ==> forall tf :: tf in r.value ==>
        r.value[tf] == InOrder(Newest(HistoryIn(Written(), symbol).Get(tf), CandleCap(tf)))
    {
      hide Newest, InOrder, Ladders.Get, Ladders.Set;
      if symbol !in books || books[symbol].lastEventAt.None? {
        return None;
      }
      var b := books[symbol];
      ghost var h := HistoryIn(Written(), symbol);
      assert b.Valid() && b.history == h;
      var out: map<Timeframe, seq<Candle>> := map[];
      for i := 0 to 4
        invariant forall tf :: tf in out <==> tf in TIMEFRAMES[..i]
        invariant forall tf :: tf in out ==> out[tf] == InOrder(Newest(h.Get(tf), CandleCap(tf)))
      {
        var tf := TIMEFRAMES[i];
        var listed := CapCandles(b.candles.Get(tf), CandleCap(tf));
        TrimTwice(h.Get(tf), CandleCap(tf));
        assert TIMEFRAMES[..i + 1] == TIMEFRAMES[..i] + [tf];
        out := out[tf := listed];
      }
      assert TIMEFRAMES[..4] == TIMEFRAMES == [M5, M15, H1, H4];
      r := Some(out);
    }
  }

  // ---- from the stream to the snapshot ----

  /** One message for the store: a write to a ladder of a symbol. */
  datatype Update = Update(symbol: string, tf: Timeframe, write: Write, at: int)

  /** The writes a stream of updates makes to one ladder, in order. */
  function WritesTo(updates: seq<Update>, symbol: string, tf: Timeframe): seq<Write> {
    if updates == [] then []
    else
      var u := updates[|updates| - 1];
      var before := WritesTo(updates[..|updates| - 1], symbol, tf);
      if u.symbol == symbol && u.tf == tf then before + [u.write] else before
  }

  function FiledBy(m: Ladder, w: Write): Ladder {
    match w
    case Upsert(c) => Filing(m, c)
    case Backfill(cs) => FilingAll(m, cs)
  }

  function ArchiveAfter(updates: seq<Update>): Archive {
    if updates == [] then map[]
    else
      var u := updates[|updates| - 1];
      var before := ArchiveAfter(updates[..|updates| - 1]);
      var h := HistoryIn(before, u.symbol);
      before[u.symbol := h.Set(u.tf, FiledBy(h.Get(u.tf), u.write))]
  }

  lemma {:induction false} HistorySnoc(writes: seq<Write>, w: Write)
    ensures HistoryAfter(writes + [w]) == FiledBy(HistoryAfter(writes), w)
  {
    assert (writes + [w])[..|writes|] == writes;
  }

  /** The archive of a stream holds, per ladder, the history of the writes made to it. */
  lemma {:induction false} ArchiveIsHistory(updates: seq<Update>, symbol: string, tf: Timeframe)
    ensures HistoryIn(ArchiveAfter(updates), symbol).Get(tf) == HistoryAfter(WritesTo(updates, symbol, tf))
  {
    hide Ladders.Set, Ladders.Get, FiledBy, HistoryAfter;
    if updates == [] {
      EmptyHistory(tf);
    } else {
      var before, u := updates[..|updates| - 1], updates[|updates| - 1];
      ArchiveIsHistory(before, symbol, tf);
      var h := HistoryIn(ArchiveAfter(before), u.symbol);
      SetThenGet(h, u.tf, FiledBy(h.Get(u.tf), u.write), tf);
      HistorySnoc(WritesTo(before, symbol, tf), u.write);
    }
  }

  lemma EmptyHistory(tf: Timeframe)
    ensures EMPTY.Get(tf) == HistoryAfter([]) == map[]
  {
  }

  ghost predicate Mentions(updates: seq<Update>, symbol: string) {
    exists i :: 0 <= i < |updates| && updates[i].symbol == symbol
  }

  lemma MentionsSnoc(updates: seq<Update>, i: nat, symbol: string)
    requires i < |updates|
    ensures Mentions(updates[..i + 1], symbol) <==> Mentions(updates[..i], symbol) || updates[i].symbol == symbol
  {
    assert forall j :: 0 <= j < i ==> updates[..i + 1][j] == updates[..i][j];
    assert updates[..i + 1][i] == updates[i];
  }

  /** Feed one update to a store. */
  method Feed(store: MarketStateStore, u: Update)
    requires store.Valid()
    modifies store, store.books.Values
    ensures store.Valid()
    ensures store.Written() == var h := HistoryIn(old(store.Written()), u.symbol);
      old(store.Written())[u.symbol := h.Set(u.tf, FiledBy(h.Get(u.tf), u.write))]
    ensures forall s ::
      HeardIn(store.LastEvents(), s).Some? <==> s == u.symbol || HeardIn(old(store.LastEvents()), s).Some?
    ensures fresh(store.books.Values - old(store.books.Values))
  {
    hide MarketStateStore.Valid, MarketStateStore.Written, MarketStateStore.LastEvents, Filing, FilingAll,
      Ladders.Set, Ladders.Get;
    match u.write
    case Upsert(c) => store.UpsertKline(u.symbol, u.tf, c, u.at);
    case Backfill(cs) => store.BackfillCandles(u.symbol, u.tf, cs, u.at);
  }

  /**
    End to end: after any mix of updates, a snapshot of a symbol exists exactly when the symbol was
    mentioned, and lists, per timeframe, the newest of everything written to that ladder, oldest first.
   */
  method SnapshotAfter(updates: seq<Update>, symbol: string) returns (r: Option<map<Timeframe, seq<Candle>>>)
    ensures r.Some? <==> Mentions(updates, symbol)
    ensures r.Some? ==> r.value.Keys == {M5, M15, H1, H4}
    ensures r.Some? ==> forall tf :: tf in r.value ==>
      && r.value[tf] == InOrder(LadderAfter(WritesTo(updates, symbol, tf), CandleCap(tf)))
      && |r.value[tf]| == Min(if tf == H4 then 220 else 300, |HistoryAfter(WritesTo(updates, symbol, tf))|)
  {
    hide MarketStateStore.Valid, MarketStateStore.Written, MarketStateStore.LastEvents, InOrder, LadderAfter, Newest,
      WritesTo, Mentions, Ladders.Set, Ladders.Get, HistoryIn, HeardIn, FiledBy, CandleCap,
      HistoryAfter;
    var store := new MarketStateStore();
    assert !Mentions([], symbol) && HeardIn(map[], symbol) == None by { NothingMentioned(symbol); }
    assert updates[..0] == [];
    var i := 0;
    while i < |updates|
      invariant 0 <= i <= |updates|
      invariant store.Valid() && fresh(store) && fresh(store.books.Values)
      invariant store.Written() == ArchiveAfter(updates[..i])
      invariant HeardIn(store.LastEvents(), symbol).Some? <==> Mentions(updates[..i], symbol)
    {
      Feed(store, updates[i]);
      assert updates[..i + 1][..i] == updates[..i];
      MentionsSnoc(updates, i, symbol);
      i := i + 1;
    }
    assert updates[..i] == updates;
    r := store.Snapshot(symbol);
    forall tf: Timeframe
      ensures Newest(HistoryIn(store.Written(), symbol).Get(tf), CandleCap(tf))
        == LadderAfter(WritesTo(updates, symbol, tf), CandleCap(tf))
      ensures |InOrder(LadderAfter(WritesTo(updates, symbol, tf), CandleCap(tf)))|
        == Min(if tf == H4 then 220 else 300, |HistoryAfter(WritesTo(updates, symbol, tf))|)
    {
      SnapshotSize(WritesTo(updates, symbol, tf), tf);
      ArchiveIsHistory(updates, symbol, tf);
      LadderIsNewestOfHistory(WritesTo(updates, symbol, tf), CandleCap(tf));
    }
  }

  /** A listing is as long as there were open times written, up to 220 for the four-hour bars and 300 for the others. */
  lemma {:induction false} SnapshotSize(writes: seq<Write>, tf: Timeframe)
    ensures |InOrder(LadderAfter(writes, CandleCap(tf)))|
      == Min(if tf == H4 then 220 else 300, |HistoryAfter(writes)|)
  {
    LadderIsNewestOfHistory(writes, CandleCap(tf));
    hide Newest, LadderAfter, HistoryAfter;
    ListingIsIn(LadderAfter(writes, CandleCap(tf)));
  }

  lemma NothingMentioned(symbol: string)
    ensures !Mentions([], symbol) && HeardIn(map[], symbol) == None
  {
  }
}
