/** Exactly when a restart rebuilds the live inventories. Loading goes through when no symbol, read in order of
    time, sells more than it has bought; and then, for every symbol, each purchase still held must be no earlier
    than the purchases stored before it. Purchases already sold off may be in any order. */
module ExactRecovery {
  import opened Common
  import opened Fifo
  import opened SliceOrder
  import opened Broker
  import opened BrokerCore
  import opened BrokerRuns
  import opened BrokerRecovery
  import LotNames

  // ---- the purchases of a sorted log -----------------------------------------------------------------

  predicate BuyOf(t: Trade, symbol: string) { t.buy && t.symbol == symbol }

  lemma BuysNext(log: seq<Trade>, t: Trade, symbol: string)
    ensures BuysIn(log + [t], symbol) == BuysIn(log, symbol) + (if BuyOf(t, symbol) then [LedgerTrade(t).slice] else [])
    ensures SoldIn(log + [t], symbol) == SoldIn(log, symbol)
              + (if t.symbol == symbol && !t.buy then t.quantity else 0.0)
  {
    hide BuysIn, SoldIn;
    InConcat(log, [t], symbol);
    InOne(t, symbol);
  }

  ghost predicate BoughtBy(log: seq<Trade>, symbol: string, at: int) {
    forall i :: 0 <= i < |log| && BuyOf(log[i], symbol) ==> log[i].at <= at
  }

  ghost predicate BoughtAfter(log: seq<Trade>, symbol: string, at: int) {
    forall i :: 0 <= i < |log| && BuyOf(log[i], symbol) ==> log[i].at > at
  }

  lemma BoughtNext(log: seq<Trade>, t: Trade, symbol: string, at: int)
    ensures BoughtBy(log + [t], symbol, at) <==> BoughtBy(log, symbol, at) && (BuyOf(t, symbol) ==> t.at <= at)
    ensures BoughtAfter(log + [t], symbol, at) <==> BoughtAfter(log, symbol, at) && (BuyOf(t, symbol) ==> t.at > at)
  {
    hide BuyOf;
    var all := log + [t];
    assert all[|log|] == t && forall i :: 0 <= i < |log| ==> all[i] == log[i];
  }

  lemma AllNext(s: seq<Slice>, x: Slice, at: int)
    ensures AllBy(s + [x], at) <==> AllBy(s, at) && x.at <= at
    ensures AllAfter(s + [x], at) <==> AllAfter(s, at) && x.at > at
  {
    var all := s + [x];
    assert all[|s|] == x && forall i :: 0 <= i < |s| ==> all[i] == s[i];
  }

  /** Purchases and their slices carry the same times. */
  lemma {:induction false} BuyTimes(log: seq<Trade>, symbol: string, at: int)
    ensures AllBy(BuysIn(log, symbol), at) <==> BoughtBy(log, symbol, at)
    ensures AllAfter(BuysIn(log, symbol), at) <==> BoughtAfter(log, symbol, at)
  {
    if log == [] {
      NoBuysIn(log, symbol);
    } else {
      hide BuysIn, AllBy, AllAfter, BoughtBy, BoughtAfter;
      var n := |log| - 1;
      var front, t := log[..n], log[n];
      assert log == front + [t];
      BuyTimes(front, symbol, at);
      BuysNext(front, t, symbol);
      BoughtNext(front, t, symbol, at);
      var b := BuysIn(front, symbol);
      assert b + [] == b;
      if BuyOf(t, symbol) { AllNext(b, LedgerTrade(t).slice, at); }
    }
  }

  /** Sorting the log sorts each symbol's purchases, and changes no total. */
  lemma {:induction false} SortedBuys(log: seq<Trade>, symbol: string)
    ensures BuysIn(Chronological(log), symbol) == ByTime(BuysIn(log, symbol))
    ensures SoldIn(Chronological(log), symbol) == SoldIn(log, symbol)
  {
    hide BuysIn, SoldIn, ByTime;
    if log == [] {
      NoBuysIn(log, symbol);
      SortedNone();
    } else {
      var n := |log| - 1;
      var front, t := log[..n], log[n];
      assert log == front + [t];
      SortedBuys(front, symbol);
      BuysNext(front, t, symbol);
      ChronologicalSorts(front);
      var rest := Chronological(front);
      var p := Place(rest, t.at);
      InsertBuys(rest, p, t, symbol);
      var b := BuysIn(front, symbol);
      assert b + [] == b;
      if BuyOf(t, symbol) { ByTimeAppend(b, LedgerTrade(t).slice); }
    }
  }

  lemma SortedNone()
    ensures ByTime([]) == []
  {}

  lemma ByTimeAppend(s: seq<Slice>, x: Slice)
    ensures ByTime(s + [x]) == Spliced(ByTime(s), Rank(ByTime(s), x.at), x)
  {
    assert (s + [x])[..|s|] == s;
  }

  lemma InsertBuys(rest: seq<Trade>, p: nat, t: Trade, symbol: string)
    requires InOrder(rest) && p == Place(rest, t.at)
    ensures var b := BuysIn(rest, symbol);
            BuysIn(rest[..p] + [t] + rest[p..], symbol) ==
              if BuyOf(t, symbol) then Spliced(b, Rank(b, LedgerTrade(t).slice.at), LedgerTrade(t).slice) else b
    ensures SoldIn(rest[..p] + [t] + rest[p..], symbol) ==
              SoldIn(rest, symbol) + (if t.symbol == symbol && !t.buy then t.quantity else 0.0)
  {
    hide BuysIn, SoldIn;
    var a, z := rest[..p], rest[p..];
    assert rest == a + z;
    InConcat(a, z, symbol);
    InConcat(a + [t], z, symbol);
    BuysNext(a, t, symbol);
    var x, y := BuysIn(a, symbol), BuysIn(z, symbol);
    if BuyOf(t, symbol) {
      PlaceIsBefore(rest, t.at);
      PlaceIsAfter(rest, t.at);
      BuyTimes(a, symbol, t.at);
      BuyTimes(z, symbol, t.at);
      assert LedgerTrade(t).slice.at == t.at;
      RankSplit(x, y, t.at);
      assert (x + y)[..|x|] == x && (x + y)[|x|..] == y;
    }
  }

  // ---- names ------------------------------------------------------------------------------------------

  /** A purchase's slice is named after its lot. */
  lemma {:induction false} BuyNames(log: seq<Trade>, symbol: string, x: Slice) returns (i: nat)
    requires x in BuysIn(log, symbol)
    ensures i < |log| && BuyOf(log[i], symbol) && x == LedgerTrade(log[i]).slice
  {
    hide BuysIn;
    if log == [] { NoBuysIn(log, symbol); }
    var n := |log| - 1;
    assert log == log[..n] + [log[n]];
    BuysNext(log[..n], log[n], symbol);
    if x in BuysIn(log[..n], symbol) {
      i := BuyNames(log[..n], symbol, x);
    } else {
      i := n;
    }
  }

  lemma {:induction false} BuysDistinct(log: seq<Trade>, symbol: string)
    requires Paired(log)
    ensures DistinctIds(BuysIn(log, symbol))
  {
    hide BuysIn;
    if log == [] {
      NoBuysIn(log, symbol);
    } else {
      var n := |log| - 1;
      var front, t := log[..n], log[n];
      PairedPrefix(log, n);
      BuysDistinct(front, symbol);
      assert log == front + [t];
      BuysNext(front, t, symbol);
      if BuyOf(t, symbol) {
        var b := BuysIn(front, symbol);
        forall m | 0 <= m < |b| ensures b[m].id != LedgerTrade(t).slice.id {
          var i := BuyNames(front, symbol, b[m]);
          assert log[i] == front[i] && log[i].lot != t.lot;
          if b[m].id == LedgerTrade(t).slice.id { LotNames.DecimalInjective(log[i].lot, t.lot); }
        }
      }
    }
  }

  // ---- the condition on the log ---------------------------------------------------------------------------

  /** Each purchase of the symbol whose slice is still in the queue is no earlier than the symbol's purchases
      stored before it. */
  ghost predicate HoldingsInOrder(log: seq<Trade>, queue: seq<Slice>, symbol: string) {
    forall i, j ::
      (0 <= i < j < |log| && BuyOf(log[i], symbol) && BuyOf(log[j], symbol)
        && Held(queue, LotNames.Decimal(log[j].lot)))
      ==> log[i].at <= log[j].at
  }

  lemma {:induction false} HoldingsAreSlices(log: seq<Trade>, queue: seq<Slice>, symbol: string)
    ensures HoldingsInOrder(log, queue, symbol) <==> HeldInOrder(BuysIn(log, symbol), queue)
  {
    if log == [] {
      NoBuysIn(log, symbol);
    } else {
      hide BuysIn, Held, HoldingsInOrder, HeldInOrder, AllBy, AllAfter, BoughtBy, BoughtAfter;
      var n := |log| - 1;
      var front, t := log[..n], log[n];
      assert log == front + [t];
      HoldingsAreSlices(front, queue, symbol);
      BuysNext(front, t, symbol);
      BuyTimes(front, symbol, t.at);
      LogNext(front, t, queue, symbol);
      assert BuysIn(front, symbol) + [] == BuysIn(front, symbol);
      if BuyOf(t, symbol) { SlicesNext(BuysIn(front, symbol), LedgerTrade(t).slice, queue); }
    }
  }

  lemma LogNext(front: seq<Trade>, t: Trade, queue: seq<Slice>, symbol: string)
    ensures HoldingsInOrder(front + [t], queue, symbol) <==>
              && HoldingsInOrder(front, queue, symbol)
              && (BuyOf(t, symbol) && Held(queue, LotNames.Decimal(t.lot)) ==> BoughtBy(front, symbol, t.at))
  {
    hide Held, BuyOf;
    var log := front + [t];
    assert forall i :: 0 <= i < |front| ==> log[i] == front[i];
    assert log[|front|] == t;
  }

  lemma SlicesNext(s: seq<Slice>, x: Slice, queue: seq<Slice>)
    ensures HeldInOrder(s + [x], queue) <==> HeldInOrder(s, queue) && (Held(queue, x.id) ==> AllBy(s, x.at))
  {
    hide Held;
    var all := s + [x];
    assert forall i :: 0 <= i < |s| ==> all[i] == s[i];
    assert all[|s|] == x;
  }

  // ---- exactly when recovery is exact ---------------------------------------------------------------------

  lemma {:induction false} ValidIsWhole(log: seq<Trade>, symbol: string)
    requires ValidTrades(log)
    ensures WholeMovements(History(log, symbol))
  {
    if log != [] {
      ValidIsWhole(log[..|log| - 1], symbol);
      assert ValidTrade(log[|log| - 1]);
    }
  }

  /** Once both orders replay, they end alike exactly when the holdings are in order. */
  lemma SortedQueue(log: seq<Trade>, symbol: string)
    requires Paired(log) && ValidTrades(log) && QueueAfter(History(Chronological(log), symbol)).Ok?
    ensures QueueAfter(History(log, symbol)).Ok?
    ensures QueueAfter(History(Chronological(log), symbol)) == QueueAfter(History(log, symbol)) <==>
              HoldingsInOrder(log, QueueAfter(History(log, symbol)).value, symbol)
  {
    hide Legal, HoldingsInOrder, HeldInOrder, DistinctIds, ByTime, Cut, Quantity, Paired, ValidTrades, QueueAfter,
         WholeMovements;
    var sorted := Chronological(log);
    SortedValid(log);
    ValidIsWhole(sorted, symbol);
    PairedLegal(log, symbol);
    NormalForm(History(log, symbol));
    NormalForm(History(sorted, symbol));
    SortedBuys(log, symbol);
    BuysDistinct(log, symbol);
    var buys, sold := BuysIn(log, symbol), SoldIn(log, symbol);
    QueueSurvivesSorting(buys, sold);
    HoldingsAreSlices(log, Cut(buys, sold), symbol);
  }

  // ---- exactly when loading goes through --------------------------------------------------------------------

  lemma {:induction false} ReplayedBefore(h: seq<Movement>, k: seq<Movement>)
    requires QueueAfter(h + k).Ok?
    ensures QueueAfter(h).Ok?
    decreases |k|
  {
    hide Apply;
    if k == [] {
      assert h + k == h;
    } else {
      var n := |k| - 1;
      assert (h + k)[..|h + k| - 1] == h + k[..n];
      ReplayedBefore(h, k[..n]);
    }
  }

  /** A load that goes through has given each symbol the queue of its own history. */
  lemma {:induction false} LoadedIsPerSymbol(log: seq<Trade>)
    requires Load(log).Ok?
    ensures forall symbol: string :: Ok(QueueOf(Load(log).value, symbol)) == QueueAfter(History(log, symbol))
  {
    hide Apply;
    if log == [] {
      assert forall symbol: string :: History(log, symbol) == [];
    } else {
      var n := |log| - 1;
      var t := log[n];
      LoadedIsPerSymbol(log[..n]);
      ReplayAppend(History(log[..n], t.symbol), LedgerTrade(t));
      forall symbol: string ensures Ok(QueueOf(Load(log).value, symbol)) == QueueAfter(History(log, symbol)) {
        if symbol != t.symbol { assert History(log, symbol) == History(log[..n], symbol); }
      }
    }
  }

  /** The log can be replayed in this order: no symbol ever sells more than it has bought. */
  ghost predicate Replayable(log: seq<Trade>) { forall symbol: string :: Legal(History(log, symbol)) }

  /** Loading goes through if and only if no symbol, read in that order, ever sells more than it has bought. */
  lemma LoadExactlyWhen(log: seq<Trade>)
    requires ValidTrades(log)
    ensures Load(log).Ok? <==> Replayable(log)
  {
    hide Legal, QueueAfter, WholeMovements, ValidTrades;
    if Load(log).Ok? {
      LoadedIsPerSymbol(log);
      forall symbol: string ensures Legal(History(log, symbol)) {
        ValidIsWhole(log, symbol);
        NormalForm(History(log, symbol));
        assert Ok(QueueOf(Load(log).value, symbol)) == QueueAfter(History(log, symbol));
      }
    }
    if Replayable(log) {
      forall n, symbol: string | 0 <= n <= |log| ensures QueueAfter(History(log[..n], symbol)).Ok? {
        ValidIsWhole(log, symbol);
        NormalForm(History(log, symbol));
        assert log == log[..n] + log[n..];
        HistoryConcat(log[..n], log[n..], symbol);
        ReplayedBefore(History(log[..n], symbol), History(log[n..], symbol));
      }
      LoadIsPerSymbol(log);
    }
  }

  /** For every sane NSE account: loading the stored log goes through if and only if, read in order of time, no
      symbol sells more than it has bought; and then it rebuilds a symbol's live inventory if and only if the
      symbol's holdings are in order. */
  lemma RecoveryExactlyWhen(d: Desk, terms: Terms, b: Book, symbol: string)
    requires d.market.NSE? && Sane(d, terms, b)
    ensures var loaded := Load(Chronological(b.trades));
            var live := QueueOf(b.inventories, symbol);
            && (loaded.Ok? <==> Replayable(Chronological(b.trades)))
            && (loaded.Ok? ==> (QueueOf(loaded.value, symbol) == live <==> HoldingsInOrder(b.trades, live, symbol)))
  {
    hide Mirrors, Covers, Limited, Configs, Sizes, Paired, ValidTrades, QueueAfter, HoldingsInOrder, Replayable;
    var sorted := Chronological(b.trades);
    SortedValid(b.trades);
    LoadExactlyWhen(sorted);
    if Load(sorted).Ok? {
      LoadedIsPerSymbol(sorted);
      assert Ok(QueueOf(Load(sorted).value, symbol)) == QueueAfter(History(sorted, symbol));
      SortedQueue(b.trades, symbol);
      assert StockedIn(b, symbol);
    }
  }
}
