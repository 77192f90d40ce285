/** FIFO accounting over a whole NSE replay: the queue is always the lots bought with the units
    sold cut off the front, and cost and entry fees are split between closed rows and queue
    without loss. OPEN rows at the end preview the same front units and are no part of it. */
module ReplayLedger {
  import opened Common
  import opened Fifo
  import opened LotPolicy
  import opened Replay
  import opened ReplayInventory
  import opened ReplayHistory

  /** Acquisitions of the first n bars, in order. */
  ghost function Bought(s: Setup, bars: seq<Bar>, n: nat): seq<Slice>
    requires n <= |bars|
  {
    if n == 0 then []
    else
      var e := EnteredAt(s, bars, n - 1);
      Bought(s, bars, n - 1) + (if e.Some? then [SliceOf(s, e.value)] else [])
  }

  ghost function RowUnits(rows: seq<Row>): real {
    if rows == [] then 0.0 else RowUnits(rows[..|rows| - 1]) + rows[|rows| - 1].lot.quantity
  }

  ghost function Allocations(row: Row): seq<Allocation> { if row.fifo.Some? then row.fifo.value.allocations else [] }

  ghost function RowCost(rows: seq<Row>): real {
    if rows == [] then 0.0 else RowCost(rows[..|rows| - 1]) + AllocatedCost(Allocations(rows[|rows| - 1]))
  }

  ghost function RowFees(rows: seq<Row>): real {
    if rows == [] then 0.0 else RowFees(rows[..|rows| - 1]) + AllocatedFees(Allocations(rows[|rows| - 1]))
  }

  /** The k-th closed row was matched with the units bought right after those of the rows before it. */
  ghost predicate MatchedAt(buys: seq<Slice>, rows: seq<Row>, k: nat)
    requires k < |rows|
  {
    var u, q := RowUnits(rows[..k]), rows[k].lot.quantity;
    && 0.0 <= u && 0.0 < q && u + q <= Quantity(buys) && Sound(buys) && Sound(Cut(buys, u))
    && rows[k].fifo.Some? && rows[k].fifo.value.allocations == Taken(Cut(buys, u), q)
  }

  ghost predicate InTurn(buys: seq<Slice>, rows: seq<Row>) {
    forall k :: 0 <= k < |rows| ==> MatchedAt(buys, rows, k)
  }

  ghost predicate Settled(buys: seq<Slice>, rows: seq<Row>, queue: seq<Slice>) {
    && Sound(buys) && WholeUnits(buys) && Whole(RowUnits(rows)) && 0.0 <= RowUnits(rows) <= Quantity(buys)
    && queue == Cut(buys, RowUnits(rows))
    && RowCost(rows) + Cost(queue) == Cost(buys)
    && RowFees(rows) + EntryFees(queue) == EntryFees(buys)
    && InTurn(buys, rows)
  }

  lemma RowSumsAppend(rows: seq<Row>, row: Row)
    ensures RowUnits(rows + [row]) == RowUnits(rows) + row.lot.quantity
    ensures RowCost(rows + [row]) == RowCost(rows) + AllocatedCost(Allocations(row))
    ensures RowFees(rows + [row]) == RowFees(rows) + AllocatedFees(Allocations(row))
  {
    assert (rows + [row])[..|rows|] == rows;
  }

  lemma SettledSound(buys: seq<Slice>, rows: seq<Row>, queue: seq<Slice>)
    requires Settled(buys, rows, queue)
    ensures Sound(queue) && WholeUnits(queue) && Quantity(queue) == Quantity(buys) - RowUnits(rows)
  {
    CutSound(buys, RowUnits(rows));
    TakenQuantity(buys, RowUnits(rows));
  }

  lemma InTurnBuy(buys: seq<Slice>, rows: seq<Row>, x: Slice)
    requires Sound(buys) && InTurn(buys, rows) && ValidSlice(x)
    ensures InTurn(buys + [x], rows)
  {
    hide Cut, Taken, Sound, Quantity, ValidSlice;
    forall k | 0 <= k < |rows| ensures MatchedAt(buys + [x], rows, k) {
      assert MatchedAt(buys, rows, k);
      MatchedBuy(buys, rows, k, x);
    }
  }

  lemma MatchedBuy(buys: seq<Slice>, rows: seq<Row>, k: nat, x: Slice)
    requires k < |rows| && MatchedAt(buys, rows, k) && ValidSlice(x)
    ensures MatchedAt(buys + [x], rows, k)
  {
    hide Cut, Taken, Quantity, RowUnits;
    var u, q := RowUnits(rows[..k]), rows[k].lot.quantity;
    CutAppend(buys, x, u);
    TakenQuantity(buys, u);
    TakenAppend(Cut(buys, u), x, q);
    SumsAppend(buys, x);
  }

  lemma InTurnSale(buys: seq<Slice>, rows: seq<Row>, row: Row)
    requires InTurn(buys, rows) && MatchedAt(buys, rows + [row], |rows|)
    ensures InTurn(buys, rows + [row])
  {
    var all := rows + [row];
    forall k | 0 <= k < |all| ensures MatchedAt(buys, all, k) {
      if k < |rows| {
        assert all[..k] == rows[..k] && all[k] == rows[k];
        assert MatchedAt(buys, rows, k);
      }
    }
  }

  lemma SettledBuy(buys: seq<Slice>, rows: seq<Row>, queue: seq<Slice>, x: Slice)
    requires Settled(buys, rows, queue) && ValidSlice(x) && Whole(x.quantity)
    ensures Settled(buys + [x], rows, queue + [x])
  {
    hide Cut, Worth, InTurn;
    InTurnBuy(buys, rows, x);
    CutAppend(buys, x, RowUnits(rows));
    SumsAppend(buys, x);
    SumsAppend(queue, x);
  }

  lemma SettledSale(buys: seq<Slice>, rows: seq<Row>, queue: seq<Slice>, row: Row)
    requires Settled(buys, rows, queue) && Sound(queue) && Whole(row.lot.quantity)
    requires Sale(queue, row.lot.quantity).Ok? && row.fifo == Some(Sale(queue, row.lot.quantity).value.0)
    ensures Settled(buys, rows + [row], Sale(queue, row.lot.quantity).value.1)
  {
    hide Sale, Cut, Taken, Worth, InTurn, Quantity;
    var q := row.lot.quantity;
    SettledSound(buys, rows, queue);
    SaleSucceeds(queue, q);
    SaleExact(queue, q);
    CutCut(buys, RowUnits(rows), q);
    TakenCost(queue, q);
    TakenFees(queue, q);
    RowSumsAppend(rows, row);
    WholeArithmetic(RowUnits(rows), q);
    assert (rows + [row])[..|rows|] == rows;
    InTurnSale(buys, rows, row);
  }

  lemma ExitOneSettled(s: Setup, bar: nat, b: Bar, p: Pass, before: Lot, buys: seq<Slice>)
    requires s.market.NSE? && p.Passing? && Sound(p.queue) && Whole(before.quantity)
    requires Settled(buys, p.written + p.batch, p.queue) && ExitOne(s, bar, b, p, before).Passing?
    ensures var r := ExitOne(s, bar, b, p, before); Settled(buys, r.written + r.batch, r.queue)
  {
    hide Settled, Sale;
    var lot := Watch(before, bar, b);
    var exit := Decide(lot, bar, b, p.exited);
    if exit.Some? {
      var sale := Sale(p.queue, lot.quantity).value;
      var row := ClosedRow(s, lot, exit.value, Some(sale.0));
      ClosedRowFields(s, lot, exit.value, Some(sale.0));
      SettledSale(buys, p.written + p.batch, p.queue, row);
      EmitAppends(p.(queue := sale.1, exited := true), row, s.settings.batchSize);
    }
  }

  lemma {:induction false} ExitLotsSettled(s: Setup, bar: nat, b: Bar, st: State, n: nat, buys: seq<Slice>)
    requires s.market.NSE? && n <= |st.lots| && Sound(st.queue) && WholeLots(st.lots)
    requires Settled(buys, Rows(st), st.queue)
    ensures var r := ExitLots(s, bar, b, PassOf(st), st.lots, n);
            r.Passing? ==> Settled(buys, r.written + r.batch, r.queue)
  {
    hide Settled, ExitOne;
    if n > 0 {
      ExitLotsSettled(s, bar, b, st, n - 1, buys);
      var p := ExitLots(s, bar, b, PassOf(st), st.lots, n - 1);
      if p.Raised? { ExitOneRaised(s, bar, b, p, st.lots[n - 1]); }
      else if ExitOne(s, bar, b, p, st.lots[n - 1]).Passing? {
        ExitOneSettled(s, bar, b, p, st.lots[n - 1], buys);
      }
    }
  }

  lemma FillSettled(s: Setup, bars: seq<Bar>, n: nat, st: State, buys: seq<Slice>)
    requires s.Valid() && s.market.NSE? && Sound(st.queue) && FillPending(s, bars, n, st).Going?
    requires Settled(buys, Rows(st), st.queue)
    ensures var e := if st.pending.None? then Ok(None)
                     else Enter(s, bars, n, st.pending.value, st.firstPrice, Cost(st.queue));
            var r := FillPending(s, bars, n, st).st;
            && e.Ok?
            && Settled(buys + (if e.value.Some? then [SliceOf(s, e.value.value)] else []), Rows(r), r.queue)
  {
    assert buys + [] == buys;
    if st.pending.Some? {
      EnterFacts(s, bars, n, st.pending.value, st.firstPrice, Cost(st.queue));
      hide Enter, Settled, Refresh, ValidSlice;
      var e := Enter(s, bars, n, st.pending.value, st.firstPrice, Cost(st.queue)).value;
      if e.Some? { SettledBuy(buys, Rows(st), st.queue, SliceOf(s, e.value)); }
    }
  }

  lemma ExitBarSettled(s: Setup, bar: nat, b: Bar, st: State, buys: seq<Slice>)
    requires s.market.NSE? && Sound(st.queue) && WholeLots(st.lots) && ExitBar(s, bar, b, st).Going?
    requires Settled(buys, Rows(st), st.queue)
    ensures var r := ExitBar(s, bar, b, st).st; Settled(buys, Rows(r), r.queue)
  {
    hide Settled, ExitLots, Refresh;
    ExitLotsSettled(s, bar, b, st, |st.lots|, buys);
  }

  /** Over every NSE replay: the queue is the purchases so far with the units of the closed rows cut
      off the front, and the purchases' cost and entry fees are exactly those allocated to closed
      rows plus those still in the queue. */
  lemma {:induction false} NseReplayIsSettled(s: Setup, bars: seq<Bar>, n: nat)
    requires s.Valid() && s.market.NSE? && n <= |bars| && Run(s, bars, n).Going?
    ensures var st := Run(s, bars, n).st;
            Settled(Bought(s, bars, n), Rows(st), st.queue) && WholeLots(st.lots)
  {
    hide Settled, Enter, FillPending, ExitBar, PlaceOrder, WholeLots, SliceOf;
    if n == 0 {
      NothingSettled();
    } else {
      var k := n - 1;
      NseReplayIsSettled(s, bars, k);
      var st := Run(s, bars, k).st;
      FillSettled(s, bars, k, st, Bought(s, bars, k));
      FillWhole(s, bars, k, st);
      var filled := FillPending(s, bars, k, st).st;
      ExitBarSettled(s, k, bars[k], filled, Bought(s, bars, n));
      ExitBarWhole(s, k, bars[k], filled);
      PlaceOrderKeeps(s, k, bars[k], n < |bars|, ExitBar(s, k, bars[k], filled).st);
    }
  }

  lemma NothingSettled()
    ensures Settled([], Rows(Initial), []) && WholeLots(Initial.lots)
  {
    assert Whole(0.0);
  }

  lemma FillWhole(s: Setup, bars: seq<Bar>, n: nat, st: State)
    requires s.Valid() && s.market.NSE? && Sound(st.queue) && WholeLots(st.lots) && FillPending(s, bars, n, st).Going?
    ensures WholeLots(FillPending(s, bars, n, st).st.lots)
  {
    if st.pending.Some? {
      EnterFacts(s, bars, n, st.pending.value, st.firstPrice, Cost(st.queue));
      hide Enter, Refresh, ValidSlice;
      var e := Enter(s, bars, n, st.pending.value, st.firstPrice, Cost(st.queue)).value;
      if e.Some? { RefreshKeeps(s, st.lots + [e.value], st.queue + [SliceOf(s, e.value)]); }
    }
  }

  lemma {:induction false} ExitLotsWhole(s: Setup, bar: nat, b: Bar, start: Pass, lots: seq<Lot>, n: nat)
    requires n <= |lots| && PassSound(start) && start.Passing? && start.kept == [] && WholeLots(lots)
    ensures var r := ExitLots(s, bar, b, start, lots, n); r.Passing? ==> WholeLots(r.kept)
  {
    hide ExitOne;
    if n > 0 {
      ExitLotsWhole(s, bar, b, start, lots, n - 1);
      var p := ExitLots(s, bar, b, start, lots, n - 1);
      if p.Passing? { ExitOneRows(s, bar, b, p, lots[n - 1]); } else { ExitOneRaised(s, bar, b, p, lots[n - 1]); }
    }
  }

  lemma ExitBarWhole(s: Setup, bar: nat, b: Bar, st: State)
    requires Sound(st.queue) && WholeLots(st.lots) && ExitBar(s, bar, b, st).Going?
    ensures WholeLots(ExitBar(s, bar, b, st).st.lots)
  {
    hide ExitLots, Refresh, Sound;
    ExitLotsWhole(s, bar, b, PassOf(st), st.lots, |st.lots|);
    var p := ExitLots(s, bar, b, PassOf(st), st.lots, |st.lots|);
    if p.exited { RefreshKeeps(s, p.kept, p.queue); }
  }
}
