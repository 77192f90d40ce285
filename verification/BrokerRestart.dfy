/** A restart (`rebuild`): inventories are loaded from the trade log and the portfolio from the OPEN rows, per
    symbol in order of entry time and lot number. It always brings back the same lots; it brings back the same
    state exactly when holdings and open lots were stored in that order. */
module BrokerRestart {
  import opened Common
  import opened Fifo
  import opened Broker
  import opened BrokerCore
  import opened BrokerRuns
  import opened BrokerEvents
  import opened BrokerRecovery
  import opened ExactRecovery
  import opened BrokerTiming

  /** The OPEN rows of a symbol, in the order they were inserted. */
  function OpenRows(lots: seq<Lot>, symbol: string): seq<Lot> {
    if lots == [] then []
    else
      var row := lots[|lots| - 1];
      OpenRows(lots[..|lots| - 1], symbol) + (if row.status == OPEN && row.symbol == symbol then [row] else [])
  }

  /** ORDER BY entry_timestamp, lot_number. */
  predicate NotAfter(a: Lot, b: Lot) { a.entryAt < b.entryAt || (a.entryAt == b.entryAt && a.number <= b.number) }

  function Seat(sorted: seq<Lot>, row: Lot): (p: nat)
    ensures p <= |sorted|
  {
    if sorted == [] || NotAfter(sorted[|sorted| - 1], row) then |sorted| else Seat(sorted[..|sorted| - 1], row)
  }

  /** Rows of one entry time and lot number are taken in the order they were inserted. */
  function InRowOrder(rows: seq<Lot>): seq<Lot> {
    if rows == [] then []
    else
      var n := |rows| - 1;
      var rest := InRowOrder(rows[..n]);
      var p := Seat(rest, rows[n]);
      rest[..p] + [rows[n]] + rest[p..]
  }

  /** `Portfolio.rebuild` for one symbol. */
  function Rebuilt(b: Book, symbol: string): seq<Lot> { InRowOrder(OpenRows(b.lots, symbol)) }

  ghost predicate Ordered(rows: seq<Lot>) { forall i, j :: 0 <= i < j < |rows| ==> NotAfter(rows[i], rows[j]) }

  // ---- the sort ---------------------------------------------------------------------------------------

  lemma SeatSplits(sorted: seq<Lot>, row: Lot)
    requires Ordered(sorted)
    ensures var p := Seat(sorted, row);
            && (forall i :: 0 <= i < p ==> NotAfter(sorted[i], row))
            && (forall i :: p <= i < |sorted| ==> !NotAfter(sorted[i], row))
  {
    if sorted != [] && !NotAfter(sorted[|sorted| - 1], row) {
      SeatSplits(sorted[..|sorted| - 1], row);
    }
  }

  lemma SeatedOrdered(rest: seq<Lot>, p: nat, row: Lot)
    requires Ordered(rest) && p <= |rest|
    requires forall i :: 0 <= i < p ==> NotAfter(rest[i], row)
    requires forall i :: p <= i < |rest| ==> !NotAfter(rest[i], row)
    ensures Ordered(rest[..p] + [row] + rest[p..])
  {
    var r := rest[..p] + [row] + rest[p..];
    forall i, j | 0 <= i < j < |r| ensures NotAfter(r[i], r[j]) {
      if i != p && j != p {
        var i', j' := if i < p then i else i - 1, if j < p then j else j - 1;
        assert r[i] == rest[i'] && r[j] == rest[j'];
      }
    }
  }

  /** The read returns the same rows, in order. */
  lemma {:induction false} RowOrderSorts(rows: seq<Lot>)
    ensures Ordered(InRowOrder(rows)) && multiset(InRowOrder(rows)) == multiset(rows) && |InRowOrder(rows)| == |rows|
  {
    if rows != [] {
      var n := |rows| - 1;
      var rest := InRowOrder(rows[..n]);
      var p := Seat(rest, rows[n]);
      assert InRowOrder(rows) == rest[..p] + [rows[n]] + rest[p..];
      hide NotAfter, Ordered, InRowOrder, Seat;
      RowOrderSorts(rows[..n]);
      assert p <= |rest|;
      SeatSplits(rest, rows[n]);
      SeatedOrdered(rest, p, rows[n]);
      SeatedRows(rest, p, rows[n]);
      assert rows == rows[..n] + [rows[n]];
    }
  }

  lemma SeatedRows(rest: seq<Lot>, p: nat, row: Lot)
    requires p <= |rest|
    ensures multiset(rest[..p] + [row] + rest[p..]) == multiset(rest) + multiset{row}
  {
    assert rest == rest[..p] + rest[p..];
  }

  /** Sorting changes nothing exactly when the rows were in order. */
  lemma {:induction false} OrderedIsFixed(rows: seq<Lot>)
    ensures InRowOrder(rows) == rows <==> Ordered(rows)
  {
    RowOrderSorts(rows);
    if Ordered(rows) && rows != [] {
      var n := |rows| - 1;
      OrderedIsFixed(rows[..n]);
      assert rows[..n] == rows[..n] && forall i :: 0 <= i < n ==> NotAfter(rows[i], rows[n]);
      assert Seat(rows[..n], rows[n]) == n;
      assert rows == rows[..n] + [rows[n]] + [];
    }
  }

  // ---- the live portfolio --------------------------------------------------------------------------------

  /** The same lots in the same order, up to the entry fees that marking stores in the table only. */
  ghost predicate Alike(rows: seq<Lot>, open: seq<Lot>) {
    |rows| == |open| && forall i :: 0 <= i < |rows| ==> SameLot(rows[i], open[i])
  }

  lemma AlikeNext(rows: seq<Lot>, open: seq<Lot>, row: Lot, lot: Lot)
    requires Alike(rows, open) && SameLot(row, lot)
    ensures Alike(rows + [row], open + [lot])
  {}

  ghost predicate Cached(open: seq<Lot>, id: nat) { exists i :: 0 <= i < |open| && open[i].id == id }

  ghost predicate Listed(lots: seq<Lot>, open: seq<Lot>) {
    && Ascending(open)
    && (forall i :: 0 <= i < |open| ==> open[i].id < |lots| && SameLot(lots[open[i].id], open[i]))
    && (forall k :: 0 <= k < |lots| ==> (lots[k].status == OPEN <==> Cached(open, k)))
  }

  lemma LastOpen(lots: seq<Lot>, open: seq<Lot>)
    requires lots != [] && Listed(lots, open) && lots[|lots| - 1].status == OPEN
    ensures open != [] && open[|open| - 1].id == |lots| - 1 && Listed(lots[..|lots| - 1], open[..|open| - 1])
  {
    hide SameLot;
    var n := |lots| - 1;
    assert Cached(open, n);
    var i :| 0 <= i < |open| && open[i].id == n;
    LargestIsLast(open, i, n);
    var front := open[..i];
    forall k | 0 <= k < n ensures Cached(open, k) <==> Cached(front, k) { CachedFront(open, i, k); }
    hide Cached;
    forall m | 0 <= m < |front| ensures front[m].id < n { assert open[m].id < open[i].id; }
  }

  lemma LargestIsLast(open: seq<Lot>, i: nat, n: nat)
    requires Ascending(open) && i < |open| && open[i].id == n && forall m :: 0 <= m < |open| ==> open[m].id <= n
    ensures i == |open| - 1 && open[|open| - 1].id == n
  {
    var last := open[|open| - 1];
    assert last.id <= n;
  }

  lemma CachedFront(open: seq<Lot>, i: nat, k: nat)
    requires |open| == i + 1 && open[i].id != k
    ensures Cached(open, k) <==> Cached(open[..i], k)
  {
    var front := open[..i];
    if Cached(open, k) {
      var m :| 0 <= m < |open| && open[m].id == k;
      assert front[m].id == k;
    }
    if Cached(front, k) {
      var m :| 0 <= m < |front| && front[m].id == k;
      assert open[m].id == k;
    }
  }

  lemma LastClosed(lots: seq<Lot>, open: seq<Lot>)
    requires lots != [] && Listed(lots, open) && lots[|lots| - 1].status != OPEN
    ensures Listed(lots[..|lots| - 1], open)
  {
    hide SameLot;
    var n := |lots| - 1;
    forall i | 0 <= i < |open| ensures open[i].id < n {
      assert Cached(open, open[i].id);
    }
    hide Cached;
  }

  /** The cache holds, per symbol, exactly the OPEN rows in the order they were inserted. */
  lemma {:induction false} CacheIsOpenRows(lots: seq<Lot>, open: seq<Lot>, symbol: string)
    requires Listed(lots, open)
    ensures Alike(OpenRows(lots, symbol), LotsFor(open, symbol, None))
  {
    if lots == [] {
      assert |open| == 0;
    } else {
      hide Listed, Alike;
      var n := |lots| - 1;
      var row := lots[n];
      if row.status == OPEN {
        LastOpen(lots, open);
        var m := |open| - 1;
        assert SameLot(row, open[m]) by { LastAlike(lots, open); }
        CacheIsOpenRows(lots[..n], open[..m], symbol);
        AlikeNext(OpenRows(lots[..n], symbol), LotsFor(open[..m], symbol, None), row, open[m]);
        assert OpenRows(lots[..n], symbol) + [] == OpenRows(lots[..n], symbol);
        assert LotsFor(open[..m], symbol, None) + [] == LotsFor(open[..m], symbol, None);
      } else {
        LastClosed(lots, open);
        CacheIsOpenRows(lots[..n], open, symbol);
        assert OpenRows(lots[..n], symbol) + [] == OpenRows(lots[..n], symbol);
      }
    }
  }

  lemma LastAlike(lots: seq<Lot>, open: seq<Lot>)
    requires lots != [] && open != [] && Listed(lots, open) && open[|open| - 1].id == |lots| - 1
    ensures SameLot(lots[|lots| - 1], open[|open| - 1])
  {}

  lemma MirrorsListed(lots: seq<Lot>, open: seq<Lot>)
    requires Mirrors(lots, open)
    ensures Listed(lots, open)
  {
    forall k | 0 <= k < |lots| ensures lots[k].status == OPEN <==> Cached(open, k) {
      if k in Ids(open) { var i := IndexOf(open, k); }
    }
  }

  /** A restart brings a symbol's lots back in the order the broker held them if and only if their rows were
      inserted in order of entry time and lot number. Either way the lots are the same. */
  lemma PortfolioExactlyWhen(b: Book, symbol: string)
    requires Mirrors(b.lots, b.open)
    ensures multiset(Rebuilt(b, symbol)) == multiset(OpenRows(b.lots, symbol))
    ensures Alike(OpenRows(b.lots, symbol), LotsFor(b.open, symbol, None))
    ensures Alike(Rebuilt(b, symbol), LotsFor(b.open, symbol, None)) <==> Ordered(LotsFor(b.open, symbol, None))
  {
    MirrorsListed(b.lots, b.open);
    hide Mirrors, Listed, LotsFor, OpenRows, InRowOrder;
    CacheIsOpenRows(b.lots, b.open, symbol);
    var rows, live := OpenRows(b.lots, symbol), LotsFor(b.open, symbol, None);
    RowOrderSorts(rows);
    OrderedIsFixed(rows);
    SameOrder(rows, live);
    if Alike(InRowOrder(rows), live) { SameOrder(InRowOrder(rows), live); }
  }

  lemma SameOrder(rows: seq<Lot>, live: seq<Lot>)
    requires Alike(rows, live)
    ensures Ordered(rows) <==> Ordered(live)
  {
    assert forall i :: 0 <= i < |rows| ==> rows[i].entryAt == live[i].entryAt && rows[i].number == live[i].number;
  }

  /** Restarting an NSE account after any run: a symbol is back exactly as it was, inventory and lots, if and only
      if the log can be read in order of time and the symbol's holdings and open lots were stored in order. */
  lemma RestartRestoresExactlyWhen(d: Desk, terms: Terms, balance: real, events: seq<Event>, symbol: string)
    requires d.market.NSE? && DeskOk(d, terms) && balance >= 0.0 && AllAdmissible(d, terms, events)
    ensures var b := Run(d, Opening(balance), events);
            var loaded := Load(Chronological(b.trades));
            var queue, live := QueueOf(b.inventories, symbol), LotsFor(b.open, symbol, None);
            (loaded.Ok? && QueueOf(loaded.value, symbol) == queue && Alike(Rebuilt(b, symbol), live)) <==>
            (Replayable(Chronological(b.trades)) && HoldingsInOrder(b.trades, queue, symbol) && Ordered(live))
  {
    hide Run, Sane, LotsFor, Rebuilt, HoldingsInOrder, Ordered, Alike, Load, Replayable;
    RunRecoversExactlyWhen(d, terms, balance, events, symbol);
    RunIsSane(d, terms, balance, events);
    SaneBasics(d, terms, Run(d, Opening(balance), events));
    PortfolioExactlyWhen(Run(d, Opening(balance), events), symbol);
  }
}
