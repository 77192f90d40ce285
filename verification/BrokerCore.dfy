/** What every broker step keeps about tables, caches and inventories: the open-lot cache mirrors the
    lots table, the trade log pairs every sale with its lot's purchase, each NSE queue holds
    exactly the open lots' units and is the FIFO replay of the log. */
module BrokerCore {
  import opened Common
  import opened Fifo
  import opened LotPolicy
  import opened Broker

  // ---- the cache of open lots mirrors the lots table --------------------------------------------

  ghost function Ids(open: seq<Lot>): set<nat> { set i | 0 <= i < |open| :: open[i].id }

  ghost predicate Ascending(open: seq<Lot>) {
    forall i, j :: 0 <= i < j < |open| ==> open[i].id < open[j].id
  }

  /** Equal up to the entry fees, which marking stores in the table only. */
  ghost predicate SameLot(a: Lot, b: Lot) { a.(fees := 0.0) == b.(fees := 0.0) }

  /** Equal up to everything marking may change. */
  ghost predicate SameTerms(a: Lot, b: Lot) {
    a.(fees := 0.0) == b.(fees := 0.0, target := a.target, costBasis := a.costBasis,
                          lastPrice := a.lastPrice, unrealized := a.unrealized)
  }

  ghost predicate Mirrors(lots: seq<Lot>, open: seq<Lot>) {
    && Ascending(open)
    && (forall i :: 0 <= i < |open| ==>
          open[i].status == OPEN && open[i].id < |lots| && SameLot(lots[open[i].id], open[i]))
    && (forall k :: 0 <= k < |lots| ==> lots[k].id == k && (lots[k].status == OPEN ==> k in Ids(open)))
  }

  /** Lots read earlier from the cache, still open with the same terms. */
  ghost predicate Current(b: Book, lots: seq<Lot>) {
    && Ascending(lots)
    && (forall i :: 0 <= i < |lots| ==>
          lots[i].id in Ids(b.open) && lots[i].id < |b.lots| && SameTerms(b.lots[lots[i].id], lots[i]))
  }

  lemma IdsAppend(open: seq<Lot>, lot: Lot)
    ensures Ids(open + [lot]) == Ids(open) + {lot.id}
  {
    var next := open + [lot];
    forall x | x in Ids(open) + {lot.id} ensures x in Ids(next) {
      if x in Ids(open) {
        var i :| 0 <= i < |open| && open[i].id == x;
        assert next[i].id == x;
      } else {
        assert next[|open|].id == x;
      }
    }
  }

  lemma IdsSame(a: seq<Lot>, b: seq<Lot>)
    requires |a| == |b| && forall i :: 0 <= i < |a| ==> a[i].id == b[i].id
    ensures Ids(a) == Ids(b)
  {
    forall x | x in Ids(a) ensures x in Ids(b) {
      var i :| 0 <= i < |a| && a[i].id == x;
      assert b[i].id == x;
    }
  }

  lemma {:induction false} RemoveIs(open: seq<Lot>, id: nat)
    requires Ascending(open)
    ensures var r := Remove(open, id);
            && Ascending(r) && Ids(r) == Ids(open) - {id}
            && (forall i :: 0 <= i < |r| ==> r[i] in open && r[i].id != id)
  {
    if open != [] {
      var n := |open| - 1;
      RemoveIs(open[..n], id);
      var r := Remove(open[..n], id);
      assert open == open[..n] + [open[n]];
      IdsAppend(open[..n], open[n]);
      forall i | 0 <= i < |r| ensures r[i].id < open[n].id {
        assert r[i] in open[..n];
      }
      IdsAppend(r, open[n]);
      assert r + [] == r;
      assert open[n].id !in Ids(open[..n]);
    }
  }

  lemma {:induction false} ReplaceIs(open: seq<Lot>, lot: Lot, k: nat)
    requires Ascending(open) && k < |open| && open[k].id == lot.id
    ensures Replace(open, lot) == open[k := lot]
  {
    if k > 0 {
      assert open[0].id < open[k].id;
      ReplaceIs(open[1..], lot, k - 1);
    }
  }

  lemma {:induction false} LotsForIs(open: seq<Lot>, symbol: string, timeframe: Option<string>)
    requires Ascending(open)
    ensures var r := LotsFor(open, symbol, timeframe);
            Ascending(r) && (forall x :: x in r ==> x in open && x.symbol == symbol)
  {
    if open != [] {
      var n := |open| - 1;
      LotsForIs(open[..n], symbol, timeframe);
      forall x | x in LotsFor(open[..n], symbol, timeframe) ensures x in open && x.id < open[n].id {
        assert x in open[..n];
      }
    }
  }

  lemma LotsForCurrent(b: Book, symbol: string, timeframe: Option<string>)
    requires Mirrors(b.lots, b.open)
    ensures Current(b, LotsFor(b.open, symbol, timeframe))
    ensures forall i :: 0 <= i < |LotsFor(b.open, symbol, timeframe)| ==>
              LotsFor(b.open, symbol, timeframe)[i].symbol == symbol
  {
    LotsForIs(b.open, symbol, timeframe);
    var r := LotsFor(b.open, symbol, timeframe);
    forall i | 0 <= i < |r|
      ensures r[i].id in Ids(b.open) && r[i].id < |b.lots| && SameTerms(b.lots[r[i].id], r[i])
    {
      assert r[i] in b.open;
      var j :| 0 <= j < |b.open| && b.open[j] == r[i];
      assert SameLot(b.lots[b.open[j].id], b.open[j]);
    }
  }

  lemma EnterMirrors(lots: seq<Lot>, open: seq<Lot>, lot: Lot)
    requires Mirrors(lots, open) && lot.id == |lots| && lot.status == OPEN
    ensures Mirrors(lots + [lot], open + [lot])
  {
    IdsAppend(open, lot);
  }

  lemma CloseMirrors(lots: seq<Lot>, open: seq<Lot>, id: nat, row: Lot)
    requires Mirrors(lots, open) && id < |lots| && row.id == id && row.status != OPEN
    ensures Mirrors(lots[id := row], Remove(open, id))
  {
    RemoveIs(open, id);
    var r := Remove(open, id);
    forall i | 0 <= i < |r|
      ensures r[i].status == OPEN && r[i].id < |lots| && SameLot(lots[id := row][r[i].id], r[i])
    {
      var j :| 0 <= j < |open| && open[j] == r[i];
    }
  }

  lemma MarkMirrors(lots: seq<Lot>, open: seq<Lot>, row: Lot, mark: Lot)
    requires Mirrors(lots, open) && mark.id in Ids(open) && row.id == mark.id
    requires SameLot(row, mark) && mark.status == OPEN
    ensures mark.id < |lots|
    ensures Mirrors(lots[mark.id := row], Replace(open, mark)) && Ids(Replace(open, mark)) == Ids(open)
  {
    var k :| 0 <= k < |open| && open[k].id == mark.id;
    ReplaceIs(open, mark, k);
    var r, after := open[k := mark], lots[mark.id := row];
    IdsSame(open, r);
    forall i | 0 <= i < |r| ensures r[i].status == OPEN && r[i].id < |after| && SameLot(after[r[i].id], r[i]) {
      if i < k { assert open[i].id < open[k].id; } else if i > k { assert open[k].id < open[i].id; }
    }
    assert Ascending(r);
  }

  // ---- purchases and sales pair up in the trade log ------------------------------------------------

  ghost predicate Pays(a: Trade, b: Trade) {
    a.buy && a.lot == b.lot && a.symbol == b.symbol && a.quantity == b.quantity
  }

  ghost predicate Paid(log: seq<Trade>, n: nat, t: Trade)
    requires n <= |log|
  {
    exists i :: 0 <= i < n && Pays(log[i], t)
  }

  /** Every sale follows the purchase of its lot, for the same quantity; a lot has at most one of each. */
  ghost predicate Paired(log: seq<Trade>) {
    && (forall j :: 0 <= j < |log| && !log[j].buy ==> Paid(log, j, log[j]))
    && (forall i, j :: 0 <= i < j < |log| && log[i].lot == log[j].lot ==> log[i].buy && !log[j].buy)
  }

  /** The log is about these lots: each was bought, and exactly the closed ones were sold. */
  ghost predicate Covers(log: seq<Trade>, lots: seq<Lot>) {
    && (forall j :: 0 <= j < |log| ==> log[j].lot < |lots|)
    && (forall j :: 0 <= j < |log| && !log[j].buy ==> log[j].lot < |lots| && lots[log[j].lot].status != OPEN)
    && (forall k :: 0 <= k < |lots| ==> Paid(log, |log|, SaleOf(lots[k])))
  }

  /** The sale that would close a lot, as far as pairing is concerned. */
  ghost function SaleOf(lot: Lot): Trade { Trade(lot.id, lot.symbol, false, lot.quantity, 0.0, 0.0, 0) }

  lemma PaidExtends(log: seq<Trade>, more: seq<Trade>, n: nat, t: Trade)
    requires n <= |log| && Paid(log, n, t)
    ensures Paid(log + more, n, t) && Paid(log + more, |log + more|, t)
  {
    var i :| 0 <= i < n && Pays(log[i], t);
    assert (log + more)[i] == log[i];
  }

  lemma EnterPairs(log: seq<Trade>, lots: seq<Lot>, lot: Lot, t: Trade)
    requires Paired(log) && Covers(log, lots) && lot.id == |lots|
    requires Pays(t, SaleOf(lot))
    ensures Paired(log + [t]) && Covers(log + [t], lots + [lot])
  {
    var next := log + [t];
    forall j | 0 <= j < |next| && !next[j].buy ensures Paid(next, j, next[j]) {
      PaidExtends(log, [t], j, log[j]);
    }
    forall k | 0 <= k <= |lots| ensures Paid(next, |next|, SaleOf((lots + [lot])[k])) {
      if k < |lots| { PaidExtends(log, [t], |log|, SaleOf(lots[k])); } else { assert Pays(next[|log|], SaleOf(lot)); }
    }
  }

  lemma ClosePairs(log: seq<Trade>, lots: seq<Lot>, id: nat, row: Lot, t: Trade)
    requires Paired(log) && Covers(log, lots) && id < |lots| && lots[id].status == OPEN && lots[id].id == id
    requires row.status != OPEN && SaleOf(row) == SaleOf(lots[id])
    requires !t.buy && t.lot == id && t.symbol == row.symbol && t.quantity == row.quantity
    ensures Paired(log + [t]) && Covers(log + [t], lots[id := row])
  {
    var next, after := log + [t], lots[id := row];
    forall j | 0 <= j < |next| && !next[j].buy ensures Paid(next, j, next[j]) {
      if j < |log| {
        PaidExtends(log, [t], j, log[j]);
      } else {
        var i :| 0 <= i < |log| && Pays(log[i], SaleOf(lots[id]));
        assert Pays(next[i], next[j]);
      }
    }
    forall k | 0 <= k < |after| ensures Paid(next, |next|, SaleOf(after[k])) {
      PaidExtends(log, [t], |log|, SaleOf(lots[k]));
    }
  }

  lemma MarkPairs(log: seq<Trade>, lots: seq<Lot>, id: nat, row: Lot)
    requires Covers(log, lots) && id < |lots| && row.status == lots[id].status && SaleOf(row) == SaleOf(lots[id])
    ensures Covers(log, lots[id := row])
  {}

  // ---- NSE inventories ------------------------------------------------------------------------------

  ghost function OpenQuantity(open: seq<Lot>, symbol: string): real {
    if open == [] then 0.0
    else
      var lot := open[|open| - 1];
      OpenQuantity(open[..|open| - 1], symbol) + (if lot.symbol == symbol then lot.quantity else 0.0)
  }

  ghost predicate WholeLots(open: seq<Lot>) {
    forall i :: 0 <= i < |open| ==> open[i].quantity > 0.0 && Whole(open[i].quantity)
  }

  /** The queue of a symbol is the FIFO replay of its trades and holds the open lots' units. */
  ghost predicate Stocked(inventories: map<string, seq<Slice>>, open: seq<Lot>, trades: seq<Trade>, symbol: string) {
    var queue := QueueOf(inventories, symbol);
    && Sound(queue) && WholeUnits(queue)
    && Quantity(queue) == OpenQuantity(open, symbol)
    && QueueAfter(History(trades, symbol)) == Ok(queue)
  }

  ghost predicate StockedIn(b: Book, symbol: string) { Stocked(b.inventories, b.open, b.trades, symbol) }

  ghost predicate AllStocked(b: Book) {
    forall symbol: string :: Stocked(b.inventories, b.open, b.trades, symbol)
  }

  /** A trade the ledger can take: whole units, and for a purchase a valid slice. */
  ghost predicate ValidTrade(t: Trade) {
    t.quantity > 0.0 && Whole(t.quantity) && (t.buy ==> ValidSlice(LedgerTrade(t).slice))
  }

  ghost predicate ValidTrades(log: seq<Trade>) { forall i :: 0 <= i < |log| ==> ValidTrade(log[i]) }

  lemma OpenQuantityAppend(open: seq<Lot>, lot: Lot, symbol: string)
    ensures OpenQuantity(open + [lot], symbol) == OpenQuantity(open, symbol)
              + (if lot.symbol == symbol then lot.quantity else 0.0)
  {
    assert (open + [lot])[..|open|] == open;
  }

  lemma {:induction false} OpenQuantityNonNegative(open: seq<Lot>, symbol: string)
    requires WholeLots(open)
    ensures OpenQuantity(open, symbol) >= 0.0
  {
    if open != [] { OpenQuantityNonNegative(open[..|open| - 1], symbol); }
  }

  lemma {:induction false} OpenQuantityRemove(open: seq<Lot>, id: nat, k: nat, symbol: string)
    requires Ascending(open) && k < |open| && open[k].id == id
    ensures OpenQuantity(Remove(open, id), symbol)
         == OpenQuantity(open, symbol) - (if open[k].symbol == symbol then open[k].quantity else 0.0)
  {
    var n := |open| - 1;
    var rest := Remove(open[..n], id);
    if k < n {
      assert open[k].id < open[n].id;
      OpenQuantityRemove(open[..n], id, k, symbol);
      OpenQuantityAppend(rest, open[n], symbol);
    } else {
      RemoveNothing(open[..n], id);
      assert rest + [] == rest;
    }
  }

  lemma {:induction false} RemoveNothing(open: seq<Lot>, id: nat)
    requires forall i :: 0 <= i < |open| ==> open[i].id != id
    ensures Remove(open, id) == open
  {
    if open != [] {
      var n := |open| - 1;
      RemoveNothing(open[..n], id);
      assert open == open[..n] + [open[n]];
    }
  }

  lemma {:induction false} OpenQuantityUpdate(open: seq<Lot>, k: nat, lot: Lot, symbol: string)
    requires k < |open| && lot.symbol == open[k].symbol && lot.quantity == open[k].quantity
    ensures OpenQuantity(open[k := lot], symbol) == OpenQuantity(open, symbol)
  {
    var n := |open| - 1;
    if k < n {
      OpenQuantityUpdate(open[..n], k, lot, symbol);
      assert open[k := lot][..n] == open[..n][k := lot];
    } else {
      assert open[k := lot][..n] == open[..n];
    }
  }

  lemma {:induction false} OpenQuantityHolds(open: seq<Lot>, k: nat)
    requires WholeLots(open) && k < |open|
    ensures open[k].quantity <= OpenQuantity(open, open[k].symbol)
  {
    var n := |open| - 1;
    OpenQuantityNonNegative(open[..n], open[k].symbol);
    if k < n { OpenQuantityHolds(open[..n], k); }
  }

  lemma HistoryAppend(log: seq<Trade>, t: Trade, symbol: string)
    ensures History(log + [t], symbol) == History(log, symbol) + (if t.symbol == symbol then [LedgerTrade(t)] else [])
  {
    assert (log + [t])[..|log|] == log;
  }

  lemma ReplayAppend(h: seq<Movement>, t: Movement)
    requires QueueAfter(h).Ok?
    ensures QueueAfter(h + [t]) == Apply(QueueAfter(h).value, t)
  {
    hide Apply;
    assert (h + [t])[..|h|] == h;
  }

  lemma EnterStocked(b: Book, after: Book, lot: Lot, t: Trade, symbol: string)
    requires StockedIn(b, symbol) && StockedIn(b, lot.symbol)
    requires ValidSlice(SliceOf(lot)) && Whole(lot.quantity)
    requires t == Trade(lot.id, lot.symbol, true, lot.quantity, lot.entryPrice, lot.fees, lot.entryAt)
    requires after.trades == b.trades + [t] && after.open == b.open + [lot]
    requires after.inventories == b.inventories[lot.symbol := QueueOf(b.inventories, lot.symbol) + [SliceOf(lot)]]
    ensures StockedIn(after, symbol)
  {
    hide QueueAfter, Quantity, OpenQuantity;
    HistoryAppend(b.trades, t, symbol);
    OpenQuantityAppend(b.open, lot, symbol);
    if symbol == lot.symbol {
      var queue := QueueOf(b.inventories, symbol);
      SumsAppend(queue, SliceOf(lot));
      ReplayAppend(History(b.trades, symbol), LedgerTrade(t));
    } else {
      assert History(b.trades, symbol) + [] == History(b.trades, symbol);
    }
  }

  /** No close ever fails for lack of inventory. */
  lemma CloseCovered(b: Book, k: nat)
    requires k < |b.open| && WholeLots(b.open) && StockedIn(b, b.open[k].symbol)
    ensures Sale(QueueOf(b.inventories, b.open[k].symbol), b.open[k].quantity).Ok?
  {
    OpenQuantityHolds(b.open, k);
    SaleSucceeds(QueueOf(b.inventories, b.open[k].symbol), b.open[k].quantity);
  }

  lemma CloseStocked(b: Book, after: Book, k: nat, t: Trade, symbol: string)
    requires k < |b.open| && WholeLots(b.open) && Ascending(b.open)
    requires StockedIn(b, symbol) && StockedIn(b, b.open[k].symbol)
    requires Sale(QueueOf(b.inventories, b.open[k].symbol), b.open[k].quantity).Ok?
    requires !t.buy && t.symbol == b.open[k].symbol && t.quantity == b.open[k].quantity
    requires after.trades == b.trades + [t] && after.open == Remove(b.open, b.open[k].id)
    requires after.inventories
          == b.inventories[t.symbol := Sale(QueueOf(b.inventories, t.symbol), t.quantity).value.1]
    ensures StockedIn(after, symbol)
  {
    hide QueueAfter, Quantity, OpenQuantity, Sale;
    HistoryAppend(b.trades, t, symbol);
    OpenQuantityRemove(b.open, b.open[k].id, k, symbol);
    if symbol == t.symbol {
      var queue := QueueOf(b.inventories, symbol);
      SaleSucceeds(queue, t.quantity);
      SaleExact(queue, t.quantity);
      TakenQuantity(queue, t.quantity);
      ReplayAppend(History(b.trades, symbol), LedgerTrade(t));
    } else {
      assert History(b.trades, symbol) + [] == History(b.trades, symbol);
    }
  }

  /** Queueing ladder entries changes the pending list only. */
  lemma {:induction false} LaddersOnlyQueue(d: Desk, o: Out, c: Candle, lots: seq<Lot>, n: nat)
    requires n <= |lots|
    ensures var r := QueueLadders(d, o, c, lots, n).book; r == o.book.(pending := r.pending)
  {
    hide LotsOfKey, CycleLots, First, Latest, HasPending, PendingConflict;
    if n > 0 { LaddersOnlyQueue(d, o, c, lots, n - 1); }
  }
}
