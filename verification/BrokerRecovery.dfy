/** Restart recovery: replaying the stored trade log in (executed_at, trade_id) order never runs
    short and rebuilds exactly the live NSE inventories, as long as each symbol's purchases carry
    non-decreasing times and no lot is sold before it was bought. Late sales may move freely. */
module BrokerRecovery {
  import opened Common
  import opened Fifo
  import opened SliceOrder
  import opened LotPolicy
  import opened Broker
  import opened BrokerCore
  import opened BrokerRuns

  // ---- the log in chronological order ------------------------------------------------------------

  lemma {:induction false} PlaceIsAfter(sorted: seq<Trade>, at: int)
    ensures forall k :: Place(sorted, at) <= k < |sorted| ==> sorted[k].at > at
  {
    if sorted != [] && sorted[|sorted| - 1].at > at { PlaceIsAfter(sorted[..|sorted| - 1], at); }
  }

  lemma {:induction false} PlaceIsBefore(sorted: seq<Trade>, at: int)
    requires InOrder(sorted)
    ensures forall k :: 0 <= k < Place(sorted, at) ==> sorted[k].at <= at
  {
    if sorted != [] && sorted[|sorted| - 1].at > at { PlaceIsBefore(sorted[..|sorted| - 1], at); }
  }

  lemma ChronologicalNext(log: seq<Trade>, rest: seq<Trade>, p: nat)
    requires log != [] && rest == Chronological(log[..|log| - 1]) && p == Place(rest, log[|log| - 1].at)
    ensures p <= |rest| && Chronological(log) == rest[..p] + [log[|log| - 1]] + rest[p..]
  {
    hide Place;
  }

  lemma {:induction false} ChronologicalPermutes(log: seq<Trade>)
    ensures multiset(Chronological(log)) == multiset(log) && |Chronological(log)| == |log|
  {
    if log == [] {
      assert Chronological(log) == [];
    } else {
      hide Place, Chronological;
      var n := |log| - 1;
      var rest := Chronological(log[..n]);
      var p := Place(rest, log[n].at);
      ChronologicalNext(log, rest, p);
      ChronologicalPermutes(log[..n]);
      SplicedTrades(rest, p, log[n]);
      LastTrade(log);
    }
  }

  lemma LastTrade(log: seq<Trade>)
    requires log != []
    ensures multiset(log) == multiset(log[..|log| - 1]) + multiset{log[|log| - 1]}
  {
    assert log == log[..|log| - 1] + [log[|log| - 1]];
  }

  lemma SplicedTrades(rest: seq<Trade>, p: nat, t: Trade)
    requires p <= |rest|
    ensures multiset(rest[..p] + [t] + rest[p..]) == multiset(rest) + multiset{t}
    ensures |rest[..p] + [t] + rest[p..]| == |rest| + 1
  {
    assert rest == rest[..p] + rest[p..];
  }

  ghost predicate InOrder(log: seq<Trade>) { forall i, j :: 0 <= i < j < |log| ==> log[i].at <= log[j].at }

  lemma SplicedInOrder(rest: seq<Trade>, p: nat, t: Trade)
    requires InOrder(rest) && p <= |rest|
    requires forall k :: 0 <= k < p ==> rest[k].at <= t.at
    requires forall k :: p <= k < |rest| ==> rest[k].at > t.at
    ensures InOrder(rest[..p] + [t] + rest[p..])
  {}

  /** The read returns the same rows, in order of time. */
  lemma {:induction false} ChronologicalSorts(log: seq<Trade>)
    ensures multiset(Chronological(log)) == multiset(log) && InOrder(Chronological(log))
  {
    hide InOrder, Place;
    ChronologicalPermutes(log);
    if log == [] {
      EmptyInOrder();
    } else {
      var n := |log| - 1;
      ChronologicalSorts(log[..n]);
      var rest := Chronological(log[..n]);
      PlaceIsAfter(rest, log[n].at);
      PlaceIsBefore(rest, log[n].at);
      SplicedInOrder(rest, Place(rest, log[n].at), log[n]);
    }
  }

  lemma EmptyInOrder()
    ensures InOrder([])
  {}

  lemma InChronological(log: seq<Trade>, x: Trade)
    ensures x in Chronological(log) <==> x in log
  {
    ChronologicalPermutes(log);
    assert x in Chronological(log) <==> x in multiset(Chronological(log));
    assert x in log <==> x in multiset(log);
  }

  // ---- histories of concatenated logs ---------------------------------------------------------------

  lemma {:induction false} HistoryConcat(a: seq<Trade>, b: seq<Trade>, symbol: string)
    ensures History(a + b, symbol) == History(a, symbol) + History(b, symbol)
  {
    if b == [] {
      assert a + b == a;
    } else {
      var n := |b| - 1;
      HistoryConcat(a, b[..n], symbol);
      assert (a + b)[..|a + b| - 1] == a + b[..n];
    }
  }

  lemma {:induction false} TotalsConcat(h: seq<Movement>, k: seq<Movement>)
    ensures Bought(h + k) == Bought(h) + Bought(k) && Sold(h + k) == Sold(h) + Sold(k)
  {
    if k == [] {
      assert h + k == h;
    } else {
      var n := |k| - 1;
      TotalsConcat(h, k[..n]);
      assert (h + k)[..|h + k| - 1] == h + k[..n];
    }
  }

  /** Purchases and total sold of one symbol in a log. */
  ghost function BuysIn(log: seq<Trade>, symbol: string): seq<Slice> { Bought(History(log, symbol)) }

  ghost function SoldIn(log: seq<Trade>, symbol: string): real { Sold(History(log, symbol)) }

  lemma InConcat(a: seq<Trade>, b: seq<Trade>, symbol: string)
    ensures BuysIn(a + b, symbol) == BuysIn(a, symbol) + BuysIn(b, symbol)
    ensures SoldIn(a + b, symbol) == SoldIn(a, symbol) + SoldIn(b, symbol)
  {
    HistoryConcat(a, b, symbol);
    TotalsConcat(History(a, symbol), History(b, symbol));
  }

  lemma InOne(t: Trade, symbol: string)
    ensures BuysIn([t], symbol) == if t.symbol == symbol && t.buy then [LedgerTrade(t).slice] else []
    ensures SoldIn([t], symbol) == if t.symbol == symbol && !t.buy then t.quantity else 0.0
  {
    hide Bought, Sold, LedgerTrade;
    HistoryAppend([], t, symbol);
    assert [] + [t] == [t] && History([], symbol) == [];
    assert History([t], symbol) == if t.symbol == symbol then [LedgerTrade(t)] else [];
    OneMovement(LedgerTrade(t));
    LedgerKind(t);
  }

  lemma LedgerKind(t: Trade)
    ensures LedgerTrade(t).Buy? <==> t.buy
    ensures !t.buy ==> LedgerTrade(t).quantity == t.quantity
  {}

  lemma OneMovement(m: Movement)
    ensures Bought([m]) == (if m.Buy? then [m.slice] else []) && Sold([m]) == (if m.Sell? then m.quantity else 0.0)
    ensures Bought([]) == [] && Sold([]) == 0.0
  {
    assert [m][..0] == [];
  }

  lemma {:induction false} NoBuysIn(log: seq<Trade>, symbol: string)
    requires forall i :: 0 <= i < |log| ==> !log[i].buy || log[i].symbol != symbol
    ensures BuysIn(log, symbol) == []
  {
    if log != [] {
      var n := |log| - 1;
      NoBuysIn(log[..n], symbol);
      assert log == log[..n] + [log[n]];
      InConcat(log[..n], [log[n]], symbol);
      InOne(log[n], symbol);
    }
  }

  // ---- timely logs --------------------------------------------------------------------------------------

  /** Each symbol's purchases carry non-decreasing times. */
  ghost predicate BuysInOrder(log: seq<Trade>) {
    forall i, j :: 0 <= i < j < |log| && log[i].buy && log[j].buy && log[i].symbol == log[j].symbol ==>
      log[i].at <= log[j].at
  }

  /** No lot is sold at a time before its purchase. */
  ghost predicate SalesFollow(log: seq<Trade>) {
    forall i, j :: 0 <= i < j < |log| && log[i].lot == log[j].lot ==> log[i].at <= log[j].at
  }

  ghost predicate Timely(log: seq<Trade>) { BuysInOrder(log) && SalesFollow(log) }

  /** Sorting a timely log keeps each symbol's purchases in order, and its total sold. */
  lemma {:induction false} SortingKeepsBuys(log: seq<Trade>, symbol: string)
    requires Timely(log)
    ensures BuysIn(Chronological(log), symbol) == BuysIn(log, symbol)
    ensures SoldIn(Chronological(log), symbol) == SoldIn(log, symbol)
  {
    hide BuysIn, SoldIn;
    if log == [] {
    } else {
      var n := |log| - 1;
      var t, earlier := log[n], log[..n];
      SortingKeepsBuys(earlier, symbol);
      var rest := Chronological(earlier);
      var p := Place(rest, t.at);
      PlaceIsAfter(rest, t.at);
      assert log == earlier + [t];
      InConcat(earlier, [t], symbol);
      InConcat(rest[..p], rest[p..], symbol);
      assert rest == rest[..p] + rest[p..];
      InConcat(rest[..p], [t], symbol);
      InConcat(rest[..p] + [t], rest[p..], symbol);
      InOne(t, symbol);
      if t.buy && t.symbol == symbol {
        LaterAreSales(log, rest, p, t);
        NoBuysIn(rest[p..], symbol);
      }
    }
  }

  lemma LaterAreSales(log: seq<Trade>, rest: seq<Trade>, p: nat, t: Trade)
    requires Timely(log) && log != [] && t == log[|log| - 1] && t.buy
    requires rest == Chronological(log[..|log| - 1]) && p <= |rest|
    requires forall k :: p <= k < |rest| ==> rest[k].at > t.at
    ensures forall i :: 0 <= i < |rest[p..]| ==> !rest[p..][i].buy || rest[p..][i].symbol != t.symbol
  {
    var n := |log| - 1;
    forall i | 0 <= i < |rest[p..]| ensures !rest[p..][i].buy || rest[p..][i].symbol != t.symbol {
      var x := rest[p + i];
      InChronological(log[..n], x);
      assert x in rest;
      var j :| 0 <= j < n && log[..n][j] == x;
      assert log[j] == x && log[n] == t;
    }
  }

  // ---- pairing ------------------------------------------------------------------------------------------

  /** Where row m of a log sits after a row was inserted at p. */
  ghost function Shifted(m: nat, p: nat): nat { if m < p then m else m + 1 }

  lemma InsertPaid(rest: seq<Trade>, p: nat, t: Trade, m: nat)
    requires p <= |rest| && m < |rest| && Paid(rest, m, rest[m])
    ensures Paid(rest[..p] + [t] + rest[p..], Shifted(m, p), rest[m])
  {
    var next := rest[..p] + [t] + rest[p..];
    var i :| 0 <= i < m && Pays(rest[i], rest[m]);
    assert next[Shifted(i, p)] == rest[i];
  }

  lemma InsertKeepsOrder(rest: seq<Trade>, p: nat, t: Trade)
    requires Paired(rest) && p <= |rest|
    requires forall k :: 0 <= k < |rest| && rest[k].lot == t.lot ==> !t.buy && rest[k].buy && k < p
    ensures var next := rest[..p] + [t] + rest[p..];
            forall i, j :: 0 <= i < j < |next| && next[i].lot == next[j].lot ==> next[i].buy && !next[j].buy
  {
    hide Paid;
    var next := rest[..p] + [t] + rest[p..];
    assert forall k :: 0 <= k < p ==> next[k] == rest[k];
    assert forall k :: p < k < |next| ==> next[k] == rest[k - 1];
    assert next[p] == t;
  }

  lemma Insert(rest: seq<Trade>, p: nat, t: Trade)
    requires Paired(rest) && p <= |rest| && (!t.buy ==> Paid(rest, p, t))
    requires forall k :: 0 <= k < |rest| && rest[k].lot == t.lot ==> !t.buy && rest[k].buy && k < p
    ensures Paired(rest[..p] + [t] + rest[p..])
  {
    var next := rest[..p] + [t] + rest[p..];
    InsertKeepsOrder(rest, p, t);
    forall j | 0 <= j < |next| && !next[j].buy ensures Paid(next, j, next[j]) {
      if j == p {
        var i :| 0 <= i < p && Pays(rest[i], t);
        assert next[i] == rest[i];
      } else {
        var m := if j < p then j else j - 1;
        assert next[j] == rest[m] && Shifted(m, p) == j;
        InsertPaid(rest, p, t, m);
      }
    }
  }

  /** Rows of the same lot as the last one are purchases, placed before it. */
  lemma SameLotIsEarlier(log: seq<Trade>, rest: seq<Trade>, p: nat, t: Trade)
    requires Paired(log) && SalesFollow(log) && log != [] && t == log[|log| - 1]
    requires rest == Chronological(log[..|log| - 1]) && p <= |rest|
    requires forall k :: p <= k < |rest| ==> rest[k].at > t.at
    ensures forall k :: 0 <= k < |rest| && rest[k].lot == t.lot ==> !t.buy && rest[k].buy && k < p
  {
    var n := |log| - 1;
    forall k | 0 <= k < |rest| && rest[k].lot == t.lot ensures !t.buy && rest[k].buy && k < p {
      InChronological(log[..n], rest[k]);
      assert rest[k] in rest;
      var j :| 0 <= j < n && log[..n][j] == rest[k];
      assert log[j] == rest[k] && log[n] == t;
    }
  }

  lemma PurchaseIsEarlier(log: seq<Trade>, rest: seq<Trade>, p: nat, t: Trade)
    requires Paired(log) && log != [] && t == log[|log| - 1] && !t.buy
    requires rest == Chronological(log[..|log| - 1]) && p <= |rest|
    requires forall k :: 0 <= k < |rest| && rest[k].lot == t.lot ==> k < p
    ensures Paid(rest, p, t)
  {
    var n := |log| - 1;
    assert Paid(log, n, log[n]);
    var i :| 0 <= i < n && Pays(log[i], t);
    InChronological(log[..n], log[i]);
    assert log[..n][i] == log[i] && log[i] in rest;
    var k :| 0 <= k < |rest| && rest[k] == log[i];
    assert Pays(rest[k], t) && k < p;
  }

  /** Sorting keeps every sale behind its purchase. */
  lemma {:induction false} SortingKeepsPairs(log: seq<Trade>)
    requires Paired(log) && SalesFollow(log)
    ensures Paired(Chronological(log))
  {
    if log != [] {
      var n := |log| - 1;
      var t, earlier := log[n], log[..n];
      PairedPrefix(log, n);
      SortingKeepsPairs(earlier);
      var rest := Chronological(earlier);
      var p := Place(rest, t.at);
      PlaceIsAfter(rest, t.at);
      SameLotIsEarlier(log, rest, p, t);
      if !t.buy { PurchaseIsEarlier(log, rest, p, t); }
      Insert(rest, p, t);
    }
  }

  lemma PairedPrefix(log: seq<Trade>, n: nat)
    requires Paired(log) && n <= |log|
    ensures Paired(log[..n])
  {
    forall j | 0 <= j < n && !log[..n][j].buy ensures Paid(log[..n], j, log[..n][j]) {
      var i :| 0 <= i < j && Pays(log[i], log[j]);
      assert Pays(log[..n][i], log[..n][j]);
    }
  }

  lemma PairedWithout(log: seq<Trade>, i: nat, lot: nat)
    requires Paired(log) && i < |log| && log[i].lot == lot
    requires forall k :: 0 <= k < |log| && k != i ==> log[k].lot != lot
    ensures Paired(log[..i] + log[i + 1..])
  {
    var rest := log[..i] + log[i + 1..];
    forall j | 0 <= j < |rest| && !rest[j].buy ensures Paid(rest, j, rest[j]) {
      var m := if j < i then j else j + 1;
      assert rest[j] == log[m];
      var k :| 0 <= k < m && Pays(log[k], log[m]);
      assert k != i;
      assert Pays(rest[if k < i then k else k - 1], rest[j]);
    }
    forall a, b | 0 <= a < b < |rest| && rest[a].lot == rest[b].lot ensures rest[a].buy && !rest[b].buy {
      assert rest[a] == log[if a < i then a else a + 1] && rest[b] == log[if b < i then b else b + 1];
    }
  }

  /** In a paired log no symbol has sold more than it bought. */
  lemma {:induction false} PairedCovers(log: seq<Trade>, symbol: string)
    requires Paired(log) && ValidTrades(log)
    ensures SoldIn(log, symbol) <= Quantity(BuysIn(log, symbol))
    decreases |log|
  {
    hide BuysIn, SoldIn;
    if log == [] {
      NoBuysIn(log, symbol);
      assert SoldIn([], symbol) == 0.0 by { EmptySold(symbol); }
    } else {
      var n := |log| - 1;
      var t, earlier := log[n], log[..n];
      PairedPrefix(log, n);
      assert log == earlier + [t];
      InConcat(earlier, [t], symbol);
      InOne(t, symbol);
      QuantityJoins(BuysIn(earlier, symbol), BuysIn([t], symbol));
      if t.buy || t.symbol != symbol {
        PairedCovers(earlier, symbol);
        if t.buy { OneQuantity(LedgerTrade(t).slice); }
      } else {
        var i :| 0 <= i < n && Pays(log[i], t);
        forall k | 0 <= k < n && k != i ensures earlier[k].lot != t.lot {
          assert log[k] == earlier[k];
        }
        PairedWithout(earlier, i, t.lot);
        var without := earlier[..i] + earlier[i + 1..];
        PairedCovers(without, symbol);
        RemovedBuy(earlier, i, symbol);
      }
    }
  }

  lemma OneQuantity(x: Slice)
    ensures Quantity([x]) == x.quantity && Quantity([]) == 0.0
  {
    assert [x][1..] == [];
  }

  lemma EmptySold(symbol: string)
    ensures SoldIn([], symbol) == 0.0
  {}

  lemma RemovedBuy(log: seq<Trade>, i: nat, symbol: string)
    requires i < |log| && log[i].buy && log[i].symbol == symbol
    ensures var without := log[..i] + log[i + 1..];
            && SoldIn(log, symbol) == SoldIn(without, symbol)
            && Quantity(BuysIn(log, symbol)) == Quantity(BuysIn(without, symbol)) + log[i].quantity
  {
    hide BuysIn, SoldIn;
    var a, x, b := log[..i], log[i], log[i + 1..];
    assert log == a + [x] + b;
    InConcat(a, [x], symbol);
    InConcat(a + [x], b, symbol);
    InConcat(a, b, symbol);
    InOne(x, symbol);
    QuantityJoins(BuysIn(a, symbol), BuysIn([x], symbol));
    QuantityJoins(BuysIn(a, symbol) + BuysIn([x], symbol), BuysIn(b, symbol));
    QuantityJoins(BuysIn(a, symbol), BuysIn(b, symbol));
    OneQuantity(LedgerTrade(x).slice);
  }

  /** The FIFO history of a paired log of valid trades is legal, symbol by symbol. */
  lemma {:induction false} PairedLegal(log: seq<Trade>, symbol: string)
    requires Paired(log) && ValidTrades(log)
    ensures Legal(History(log, symbol)) && WholeMovements(History(log, symbol))
  {
    hide Legal;
    if log == [] {
      LegalEmpty();
    } else {
      var n := |log| - 1;
      PairedPrefix(log, n);
      PairedLegal(log[..n], symbol);
      PairedCovers(log, symbol);
      var h, t := History(log, symbol), log[n];
      assert ValidTrade(t);
      if t.symbol == symbol {
        assert h == History(log[..n], symbol) + [LedgerTrade(t)];
        assert h[..|h| - 1] == History(log[..n], symbol);
        LegalStep(h);
      } else {
        assert h == History(log[..n], symbol);
      }
    }
  }

  lemma SortedValid(log: seq<Trade>)
    requires ValidTrades(log)
    ensures ValidTrades(Chronological(log))
  {
    var r := Chronological(log);
    forall i | 0 <= i < |r| ensures ValidTrade(r[i]) {
      InChronological(log, r[i]);
      assert r[i] in r;
    }
  }

  /** Replaying the log in chronological order gives, for every symbol, the queue that replaying it
      in order of entry gives. */
  lemma SameQueues(log: seq<Trade>, symbol: string)
    requires Paired(log) && ValidTrades(log) && Timely(log)
    ensures QueueAfter(History(Chronological(log), symbol)).Ok?
    ensures QueueAfter(History(Chronological(log), symbol)) == QueueAfter(History(log, symbol))
  {
    hide Legal;
    SortingKeepsBuys(log, symbol);
    SortingKeepsPairs(log);
    SortedValid(log);
    PairedLegal(log, symbol);
    PairedLegal(Chronological(log), symbol);
    NormalForm(History(log, symbol));
    SalesMayMove(History(Chronological(log), symbol), History(log, symbol));
  }

  // ---- `_load_fifo_inventories` ---------------------------------------------------------------------------

  /** The loading loop over an ordered log: one ledger per symbol, created on first use. */
  function Load(log: seq<Trade>): (r: Result<map<string, seq<Slice>>, FifoError>)
    ensures r.Ok? ==> SoundInventories(r.value)
  {
    if log == [] then Ok(map[])
    else
      match Load(log[..|log| - 1])
      case Err(e) => Err(e)
      case Ok(m) =>
        var t := log[|log| - 1];
        match Apply(QueueOf(m, t.symbol), LedgerTrade(t))
        case Err(e) => Err(e)
        case Ok(queue) => Ok(m[t.symbol := queue])
  }

  /** Loading succeeds when every symbol's history does, and gives each symbol its own queue. */
  lemma {:induction false} LoadIsPerSymbol(log: seq<Trade>)
    requires forall n, symbol: string :: 0 <= n <= |log| ==> QueueAfter(History(log[..n], symbol)).Ok?
    ensures Load(log).Ok?
    ensures forall symbol: string :: Ok(QueueOf(Load(log).value, symbol)) == QueueAfter(History(log, symbol))
  {
    hide Apply;
    if log == [] {
      assert forall symbol: string :: History(log, symbol) == [];
    } else {
      var n := |log| - 1;
      var t := log[n];
      forall k, symbol: string | 0 <= k <= n ensures QueueAfter(History(log[..n][..k], symbol)).Ok? {
        assert log[..n][..k] == log[..k];
      }
      LoadIsPerSymbol(log[..n]);
      assert log[..|log|] == log;
      assert QueueAfter(History(log[..|log|], t.symbol)).Ok?;
      ReplayAppend(History(log[..n], t.symbol), LedgerTrade(t));
      forall symbol: string ensures Ok(QueueOf(Load(log).value, symbol)) == QueueAfter(History(log, symbol)) {
        if symbol != t.symbol { assert History(log, symbol) == History(log[..n], symbol); }
      }
    }
  }

  /** Loading the stored log never fails, and gives each symbol the queue of its sorted history. */
  lemma LoadSucceeds(log: seq<Trade>)
    requires Paired(log) && ValidTrades(log) && SalesFollow(log)
    ensures Load(Chronological(log)).Ok?
    ensures forall symbol: string ::
              Ok(QueueOf(Load(Chronological(log)).value, symbol)) == QueueAfter(History(Chronological(log), symbol))
  {
    hide SalesFollow, Legal, Paired, ValidTrades, QueueAfter;
    var sorted := Chronological(log);
    SortingKeepsPairs(log);
    SortedValid(log);
    forall n, symbol: string | 0 <= n <= |sorted| ensures QueueAfter(History(sorted[..n], symbol)).Ok? {
      PairedPrefix(sorted, n);
      ValidPrefix(sorted, n);
      PairedLegal(sorted[..n], symbol);
      NormalForm(History(sorted[..n], symbol));
    }
    LoadIsPerSymbol(sorted);
  }

  /** Restart recovery: in every sane NSE book with a timely log, loading the stored log rebuilds
      exactly the live inventories. */
  lemma Recovery(d: Desk, terms: Terms, b: Book)
    requires d.market.NSE? && Sane(d, terms, b) && Timely(b.trades)
    ensures var loaded := Load(Chronological(b.trades));
            loaded.Ok? && forall symbol: string :: QueueOf(loaded.value, symbol) == QueueOf(b.inventories, symbol)
  {
    hide Mirrors, Covers, Limited, Configs, Sizes, BuysInOrder, SalesFollow, Legal, Paired, ValidTrades, QueueAfter;
    var sorted := Chronological(b.trades);
    LoadSucceeds(b.trades);
    forall symbol: string ensures QueueOf(Load(sorted).value, symbol) == QueueOf(b.inventories, symbol) {
      SameQueues(b.trades, symbol);
      assert StockedIn(b, symbol);
    }
  }

  lemma ValidPrefix(log: seq<Trade>, n: nat)
    requires ValidTrades(log) && n <= |log|
    ensures ValidTrades(log[..n])
  {}

  /** Of two purchases of one share each, a sale of one takes the first. */
  lemma TwoBuysOneSale(x: Trade, y: Trade, c: Trade)
    requires x.buy && y.buy && !c.buy && x.symbol == y.symbol == c.symbol == "X"
    requires x.quantity == y.quantity == c.quantity == 1.0 && ValidTrade(x) && ValidTrade(y)
    ensures QueueAfter(History([x, y, c], "X")) == Ok([LedgerTrade(y).slice])
  {
    hide QueueAfter, Apply;
    var sx, sy := LedgerTrade(x).slice, LedgerTrade(y).slice;
    var log := [x, y, c];
    assert log[..2] == [x, y] && [x, y][..1] == [x] && [x][..0] == [];
    var h0: seq<Movement> := [];
    assert History([x], "X") == h0 + [Buy(sx)];
    assert History([x, y], "X") == (h0 + [Buy(sx)]) + [Buy(sy)];
    assert History(log, "X") == ((h0 + [Buy(sx)]) + [Buy(sy)]) + [Sell(1.0)];
    BuyOnto(h0, [], sx);
    BuyOnto(h0 + [Buy(sx)], [] + [sx], sy);
    var queue := [] + [sx] + [sy];
    ReplayAppend((h0 + [Buy(sx)]) + [Buy(sy)], Sell(1.0));
    FirstOfTwo(sx, sy);
    assert queue == [sx, sy];
  }

  lemma BuyOnto(h: seq<Movement>, queue: seq<Slice>, x: Slice)
    requires ValidSlice(x) && (QueueAfter(h) == Ok(queue) || (h == [] && queue == []))
    ensures QueueAfter(h + [Buy(x)]) == Ok(queue + [x])
  {
    assert QueueAfter(h) == Ok(queue);
    ReplayAppend(h, Buy(x));
  }

  lemma FirstOfTwo(x: Slice, y: Slice)
    requires ValidSlice(x) && ValidSlice(y) && x.quantity == y.quantity == 1.0
    ensures Sound([x, y]) && Apply([x, y], Sell(1.0)) == Ok([y])
  {
    hide Sale;
    var queue := [x, y];
    assert queue[1..] == [y];
    OneQuantity(y);
    assert Quantity(queue) == 2.0;
    assert Whole(1.0);
    SaleSucceeds(queue, 1.0);
    SaleExact(queue, 1.0);
    assert Cut(queue, 1.0) == Cut([y], 0.0) == [y];
  }
}
