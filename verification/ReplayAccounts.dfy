/** What the rows of a replay report: each closed lot carries its terms, was closed when and where it was due, and its
    result is what the sale brought less what the units sold had cost, up to the rounding of the stored fields. */
module ReplayAccounts {
  import opened Common
  import opened Fifo
  import opened Fees
  import opened LotPolicy
  import opened Replay
  import opened ReplayInventory
  import opened ReplayHistory
  import opened ReplayLedger
  import opened ReplayOrders
  import ReplayCapital
  import ReplayExpiry
  import ExitPasses

  // ---- one row ------------------------------------------------------------------------------------------

  /** Cost and entry fees of the units a row sells: those matched on NSE, the lot's own on CRYPTO. */
  ghost function UnitCost(s: Setup, row: Row): real {
    if s.market.NSE? then AllocatedCost(Allocations(row)) else Worth(row.lot.entryPrice, row.lot.quantity)
  }

  ghost function UnitFees(s: Setup, row: Row): real {
    if s.market.NSE? then AllocatedFees(Allocations(row)) else row.lot.fees
  }

  /** What rounding the two prices may do to a row's value; on CRYPTO the entry price is stored rounded. */
  ghost function Spread(s: Setup, q: real, e4: real): real { if s.market.NSE? then 2.0 * e4 * q else e4 * q }

  /** The amounts of a closed row, up to rounding: the sale's value less the units' cost, all fees, and the
      proceeds less cost and entry fees. */
  ghost predicate Adds(s: Setup, row: Row, e2: real, e4: real) {
    && row.exit.Some?
    && var q, price := row.lot.quantity, row.exit.value.price;
       var fill := s.fees.sell(price, q);
       && Abs(row.gross - (Worth(fill.price, q) - UnitCost(s, row))) <= e2 + Spread(s, q, e4)
       && Abs(row.fees - (UnitFees(s, row) + fill.fees)) <= e4
       && Abs(row.slippage - (row.lot.slippage + fill.slippage)) <= e4
       && Abs(row.net - (Proceeds(s.fees, price, q) - UnitCost(s, row) - UnitFees(s, row)))
          <= 2.0 * e2 + e4 + Spread(s, q, e4)
       && Abs(row.exitPrice - fill.price) <= e4
       && row.unrealized == 0.0 && row.holdingBars == row.exit.value.bar - row.lot.entryBar
  }

  /** The exit was due: a stop reached by the low and sold at the stop, a target reached by the high and sold at the
      target, or an expiry sold at the close; in this order. */
  ghost predicate Due(bars: seq<Bar>, row: Row) {
    && row.exit.Some? && row.lot.entryBar < row.exit.value.bar < |bars|
    && var x, lot, b := row.exit.value, row.lot, bars[row.exit.value.bar];
       var stopped := lot.stop.Some? && b.low <= lot.stop.value;
       match x.status
       case STOPPED => stopped && x.price == lot.stop.value
       case TARGET_HIT => !stopped && b.high >= lot.target && x.price == lot.target
       case EXPIRED =>
         && !stopped && b.high < lot.target && x.price == b.close
         && lot.expires.Some? && x.bar >= lot.expires.value
       case OPEN => false
  }

  /** The extremes of a lot: what it was bought at, and the lows and highs of the bars since, before bar n. */
  ghost predicate Watched(s: Setup, bars: seq<Bar>, lot: Lot, n: nat)
    requires lot.entryBar < |bars| && n <= |bars|
  {
    var paid := s.fees.buy(bars[lot.entryBar].open, lot.quantity).price;
    && lot.lowest <= paid <= lot.highest
    && (forall k :: lot.entryBar < k < n ==> lot.lowest <= bars[k].low && bars[k].high <= lot.highest)
    && (lot.lowest == paid || exists k :: lot.entryBar < k < n && lot.lowest == bars[k].low)
    && (lot.highest == paid || exists k :: lot.entryBar < k < n && lot.highest == bars[k].high)
  }

  ghost predicate LotRight(s: Setup, bars: seq<Bar>, lot: Lot, n: nat) {
    lot.entryBar <= n <= |bars| && Carries(s, bars, lot) && Watched(s, bars, lot, n)
  }

  ghost predicate RowRight(s: Setup, bars: seq<Bar>, row: Row, e2: real, e4: real) {
    Due(bars, row) && LotRight(s, bars, row.lot, row.exit.value.bar + 1) && Adds(s, row, e2, e4)
  }

  ghost predicate LotsRight(s: Setup, bars: seq<Bar>, lots: seq<Lot>, n: nat) {
    forall lot :: lot in lots ==> LotRight(s, bars, lot, n)
  }

  ghost predicate RowsRight(s: Setup, bars: seq<Bar>, rows: seq<Row>, e2: real, e4: real) {
    forall row :: row in rows ==> RowRight(s, bars, row, e2, e4)
  }

  /** Rounding both prices of a difference. */
  lemma RoundedValue(exit: real, fill: real, basis: real, cost: real, q: real, e: real, f: real)
    requires q >= 0.0 && Abs(exit - fill) <= e && Abs(basis - cost) <= f
    ensures Abs(Worth(exit - basis, q) - (Worth(fill, q) - Worth(cost, q))) <= e * q + f * q
  {
    hide Worth;
    WorthApart(exit, fill, q, e);
    WorthApart(basis, cost, q, f);
    WorthMinus(exit, basis, q);
  }

  /** The fields of a closed row, each within its own rounding. */
  lemma ClosedRowParts(s: Setup, lot: Lot, exit: Exit, fifo: Option<Match>, e2: real, e4: real)
    requires s.rounding.Within(e2, e4)
    ensures var row := ClosedRow(s, lot, exit, fifo);
            var fill := s.fees.sell(exit.price, lot.quantity);
            && row.lot == lot && row.exit == Some(exit) && row.fifo == fifo
            && Abs(row.exitPrice - fill.price) <= e4
            && (fifo.Some? ==> Abs(row.costBasis - fifo.value.costBasis) <= e4)
            && (fifo.None? ==> row.costBasis == lot.entryPrice)
            && Abs(row.gross - Worth(row.exitPrice - row.costBasis, lot.quantity)) <= e2
            && Abs(row.fees - ((if fifo.Some? then fifo.value.entryFees else lot.fees) + fill.fees)) <= e4
            && Abs(row.slippage - (lot.slippage + fill.slippage)) <= e4
            && Abs(row.net - (row.gross - row.fees)) <= e2
            && row.unrealized == 0.0 && row.holdingBars == exit.bar - lot.entryBar
  {
    hide Worth;
  }

  lemma SpreadIs(s: Setup, q: real, e: real, f: real)
    requires f == if s.market.NSE? then e else 0.0
    ensures Spread(s, q, e) == e * q + f * q
  {}

  lemma ClosedRowAdds(s: Setup, lot: Lot, exit: Exit, fifo: Option<Match>, e2: real, e4: real)
    requires s.rounding.Within(e2, e4) && lot.quantity >= 0.0 && fifo.Some? == s.market.NSE?
    requires fifo.Some? ==>
               && Worth(fifo.value.costBasis, lot.quantity) == AllocatedCost(fifo.value.allocations)
               && fifo.value.entryFees == AllocatedFees(fifo.value.allocations)
    ensures Adds(s, ClosedRow(s, lot, exit, fifo), e2, e4)
  {
    hide AllocatedCost, AllocatedFees, ClosedRow, Rounding.Within;
    ClosedRowParts(s, lot, exit, fifo, e2, e4);
    var row, q := ClosedRow(s, lot, exit, fifo), lot.quantity;
    var fill := s.fees.sell(exit.price, q);
    var cost := if fifo.Some? then fifo.value.costBasis else lot.entryPrice;
    var f := if fifo.Some? then e4 else 0.0;
    hide Worth, Spread;
    RoundedValue(row.exitPrice, fill.price, row.costBasis, cost, q, e4, f);
    SpreadIs(s, q, e4, f);
  }

  lemma DecideDue(s: Setup, bars: seq<Bar>, bar: nat, lot: Lot, exited: bool, fifo: Option<Match>)
    requires bar < |bars| && Decide(lot, bar, bars[bar], exited).Some?
    ensures var exit := Decide(lot, bar, bars[bar], exited).value;
            var row := ClosedRow(s, lot, exit, fifo);
            Due(bars, row) && row.lot == lot && exit.bar == bar
  {}

  // ---- a bar ---------------------------------------------------------------------------------------------

  lemma CarriesStays(s: Setup, bars: seq<Bar>, a: Lot, b: Lot)
    requires Carries(s, bars, a) && b == a.(target := b.target, lowest := b.lowest, highest := b.highest)
    requires s.market.CRYPTO? ==> b.target == a.target
    ensures Carries(s, bars, b)
  {
    hide Sized, Aims, Stops;
  }

  lemma WatchRight(s: Setup, bars: seq<Bar>, lot: Lot, n: nat)
    requires n < |bars| && LotRight(s, bars, lot, n)
    ensures LotRight(s, bars, Watch(lot, n, bars[n]), n + 1)
  {
    var r := Watch(lot, n, bars[n]);
    CarriesStays(s, bars, lot, r);
    hide Carries;
    assert lot.lowest != r.lowest ==> r.lowest == bars[n].low;
    assert lot.highest != r.highest ==> r.highest == bars[n].high;
  }

  lemma TargetsRight(s: Setup, bars: seq<Bar>, lots: seq<Lot>, queue: seq<Slice>, n: nat)
    requires Sound(queue) && Refresh(s, lots, queue).Ok? && LotsRight(s, bars, lots, n)
    ensures LotsRight(s, bars, Refresh(s, lots, queue).value, n)
  {
    RefreshKeeps(s, lots, queue);
    var r := Refresh(s, lots, queue).value;
    assert s.market.CRYPTO? ==> r == lots;
    hide Refresh, Carries, Fresh;
    forall lot | lot in r ensures LotRight(s, bars, lot, n) {
      var i :| 0 <= i < |r| && r[i] == lot;
      assert lots[i] in lots && LotRight(s, bars, lots[i], n);
      CarriesStays(s, bars, lots[i], lot);
    }
  }

  /** The lot a bar enters is right from the start. */
  lemma EntryRight(s: Setup, bars: seq<Bar>, n: nat)
    requires s.Valid() && n < |bars| && Run(s, bars, n).Going? && Run(s, bars, n).st.pending.Some?
    requires FillPending(s, bars, n, Run(s, bars, n).st).Going?
    ensures var st := Run(s, bars, n).st;
            var e := Enter(s, bars, n, st.pending.value, st.firstPrice, Cost(st.queue));
            e.Ok? && (e.value.Some? ==> LotRight(s, bars, e.value.value, n))
  {
    hide Run, Enter, FillPending, CallsForOrder, Carries, Setup.Valid;
    var st := Run(s, bars, n).st;
    if n == 0 { NothingPending(s, bars); } else { OrderedExactlyWhen(s, bars, n - 1); }
    FillEnters(s, bars, n, st);
    var q := EnterCarries(s, bars, n, st.pending.value, st.firstPrice, Cost(st.queue));
  }

  lemma FillRight(s: Setup, bars: seq<Bar>, n: nat)
    requires s.Valid() && n < |bars| && Run(s, bars, n).Going? && LotsRight(s, bars, Run(s, bars, n).st.lots, n)
    requires FillPending(s, bars, n, Run(s, bars, n).st).Going?
    ensures LotsRight(s, bars, FillPending(s, bars, n, Run(s, bars, n).st).st.lots, n)
  {
    var st := Run(s, bars, n).st;
    hide Run, Enter, LotRight, Refresh, SliceOf, ValidSlice, Setup.Valid;
    if st.pending.Some? {
      EntryRight(s, bars, n);
      var e := Enter(s, bars, n, st.pending.value, st.firstPrice, Cost(st.queue)).value;
      if e.Some? {
        assert LotsRight(s, bars, st.lots + [e.value], n);
        TargetsRight(s, bars, st.lots + [e.value], st.queue + [SliceOf(s, e.value)], n);
      }
    }
  }

  /** Lots kept and rows written by a pass; after a raise, the rows that survive. */
  ghost predicate PassRight(s: Setup, bars: seq<Bar>, p: Pass, n: nat, e2: real, e4: real) {
    match p
    case Passing(kept, _, _, batch, written) =>
      LotsRight(s, bars, kept, n + 1) && RowsRight(s, bars, written + batch, e2, e4)
    case Raised(_, lost) => RowsRight(s, bars, lost, e2, e4)
  }

  /** The row a closing writes is right. */
  lemma ClosingRight(
    s: Setup, bars: seq<Bar>, n: nat, before: Lot, queue: seq<Slice>, exited: bool, e2: real, e4: real)
    requires s.rounding.Within(e2, e4) && n < |bars| && LotRight(s, bars, before, n) && Sound(queue)
    requires s.market.NSE? ==> WholeUnits(queue) && Whole(before.quantity) && Sale(queue, before.quantity).Ok?
    requires Decide(Watch(before, n, bars[n]), n, bars[n], exited).Some?
    ensures var lot := Watch(before, n, bars[n]);
            var exit := Decide(lot, n, bars[n], exited).value;
            var fifo := if s.market.NSE? then Some(Sale(queue, lot.quantity).value.0) else None;
            RowRight(s, bars, ClosedRow(s, lot, exit, fifo), e2, e4)
  {
    hide Sale, ClosedRow, Decide, LotRight, Rounding.Within, Adds, Due;
    var lot := Watch(before, n, bars[n]);
    var exit := Decide(lot, n, bars[n], exited).value;
    var fifo := if s.market.NSE? then Some(Sale(queue, lot.quantity).value.0) else None;
    WatchRight(s, bars, before, n);
    if s.market.NSE? { SaleExact(queue, lot.quantity); }
    assert lot.quantity > 0.0 by { PositiveLot(s, bars, before, n); }
    ClosedRowAdds(s, lot, exit, fifo, e2, e4);
    DecideDue(s, bars, n, lot, exited, fifo);
    ClosedRowFields(s, lot, exit, fifo);
  }

  lemma PositiveLot(s: Setup, bars: seq<Bar>, lot: Lot, n: nat)
    requires LotRight(s, bars, lot, n)
    ensures lot.quantity > 0.0 && lot.entryBar < |bars|
  {}

  lemma RowsPrefix(s: Setup, bars: seq<Bar>, written: seq<Row>, batch: seq<Row>, e2: real, e4: real)
    requires RowsRight(s, bars, written + batch, e2, e4)
    ensures RowsRight(s, bars, written, e2, e4)
  {
    hide RowRight;
    assert forall row :: row in written ==> row in written + batch;
  }

  lemma RowsNext(s: Setup, bars: seq<Bar>, rows: seq<Row>, row: Row, e2: real, e4: real)
    requires RowsRight(s, bars, rows, e2, e4) && RowRight(s, bars, row, e2, e4)
    ensures RowsRight(s, bars, rows + [row], e2, e4)
  {
    hide RowRight;
  }

  lemma ExitOneRight(s: Setup, bars: seq<Bar>, n: nat, p: Pass, before: Lot, e2: real, e4: real)
    requires s.rounding.Within(e2, e4) && n < |bars| && LotRight(s, bars, before, n)
    requires PassSound(p) && PassRight(s, bars, p, n, e2, e4)
    requires s.market.NSE? && p.Passing? ==> WholeUnits(p.queue) && Whole(before.quantity)
    ensures PassRight(s, bars, ExitOne(s, n, bars[n], p, before), n, e2, e4)
  {
    hide Sale, ClosedRow, Decide, LotRight, Rounding.Within, RowRight, Emit, Watch;
    if p.Passing? {
      var lot := Watch(before, n, bars[n]);
      var exit := Decide(lot, n, bars[n], p.exited);
      RowsPrefix(s, bars, p.written, p.batch, e2, e4);
      if exit.None? {
        WatchRight(s, bars, before, n);
      } else if s.market.CRYPTO? {
        var row := ClosedRow(s, lot, exit.value, None);
        ClosingRight(s, bars, n, before, p.queue, p.exited, e2, e4);
        EmitAppends(p, row, s.settings.batchSize);
        RowsNext(s, bars, p.written + p.batch, row, e2, e4);
      } else if Sale(p.queue, lot.quantity).Ok? {
        SameUnits(before, n, bars[n]);
        var (m, left) := Sale(p.queue, lot.quantity).value;
        var row := ClosedRow(s, lot, exit.value, Some(m));
        ClosingRight(s, bars, n, before, p.queue, p.exited, e2, e4);
        EmitAppends(p.(queue := left, exited := true), row, s.settings.batchSize);
        RowsNext(s, bars, p.written + p.batch, row, e2, e4);
      }
    }
  }

  lemma SameUnits(lot: Lot, n: nat, b: Bar)
    ensures Watch(lot, n, b).quantity == lot.quantity
  {}

  lemma {:induction false} PassIsRight(s: Setup, bars: seq<Bar>, n: nat, st: State, m: nat, e2: real, e4: real)
    requires s.rounding.Within(e2, e4) && n < |bars| && m <= |st.lots| && Sound(st.queue)
    requires LotsRight(s, bars, st.lots, n) && RowsRight(s, bars, Rows(st), e2, e4)
    requires s.market.NSE? ==> WholeUnits(st.queue) && WholeLots(st.lots)
    ensures PassRight(s, bars, ExitLots(s, n, bars[n], PassOf(st), st.lots, m), n, e2, e4)
  {
    hide ExitOne, LotRight, RowRight, Sound, Rounding.Within, WholeUnits;
    if m > 0 {
      PassIsRight(s, bars, n, st, m - 1, e2, e4);
      if s.market.NSE? { ReplayCapital.ExitsLowerCost(s, n, bars[n], PassOf(st), st.lots, m - 1); }
      assert st.lots[m - 1] in st.lots;
      var p := ExitLots(s, n, bars[n], PassOf(st), st.lots, m - 1);
      hide PassRight;
      ExitOneRight(s, bars, n, p, st.lots[m - 1], e2, e4);
    }
  }

  lemma ExitsRight(s: Setup, bars: seq<Bar>, n: nat, st: State, e2: real, e4: real)
    requires s.rounding.Within(e2, e4) && n < |bars| && Sound(st.queue)
    requires LotsRight(s, bars, st.lots, n) && RowsRight(s, bars, Rows(st), e2, e4)
    requires s.market.NSE? ==> WholeUnits(st.queue) && WholeLots(st.lots)
    ensures var r := ExitBar(s, n, bars[n], st);
            && (r.Going? ==> LotsRight(s, bars, r.st.lots, n + 1) && RowsRight(s, bars, Rows(r.st), e2, e4))
            && (r.Stopped? ==> RowsRight(s, bars, r.written, e2, e4))
  {
    PassIsRight(s, bars, n, st, |st.lots|, e2, e4);
    var p := ExitLots(s, n, bars[n], PassOf(st), st.lots, |st.lots|);
    hide ExitLots, LotsRight, RowsRight, Refresh, Rounding.Within, WholeUnits, WholeLots;
    if p.Passing? {
      RowsPrefix(s, bars, p.written, p.batch, e2, e4);
      if p.exited && Refresh(s, p.kept, p.queue).Ok? { TargetsRight(s, bars, p.kept, p.queue, n + 1); }
    }
  }

  // ---- every replay ------------------------------------------------------------------------------------------

  ghost predicate ReplayRight(s: Setup, bars: seq<Bar>, p: Progress, n: nat, e2: real, e4: real) {
    match p
    case Going(st) => LotsRight(s, bars, st.lots, n) && RowsRight(s, bars, Rows(st), e2, e4)
    case Stopped(_, written) => RowsRight(s, bars, written, e2, e4)
  }

  lemma BarRight(s: Setup, bars: seq<Bar>, n: nat, e2: real, e4: real)
    requires s.Valid() && s.rounding.Within(e2, e4) && n < |bars|
    requires ReplayRight(s, bars, Run(s, bars, n), n, e2, e4)
    ensures ReplayRight(s, bars, Run(s, bars, n + 1), n + 1, e2, e4)
  {
    var p := Run(s, bars, n);
    hide FillPending, ExitBar, PlaceOrder, LotsRight, RowsRight, Rounding.Within, Setup.Valid, Sound, WholeUnits,
         WholeLots;
    if p.Going? {
      RowsPrefix(s, bars, p.st.written, p.st.batch, e2, e4);
      var filled := FillPending(s, bars, n, p.st);
      if filled.Stopped? {
        FillStopsWritten(s, bars, n, p.st);
      } else {
        FillRight(s, bars, n);
        FillKeepsRows(s, bars, n, p.st);
        if s.market.NSE? { ReplayCapital.FilledIsWhole(s, bars, n); }
        ExitsRight(s, bars, n, filled.st, e2, e4);
        var exited := ExitBar(s, n, bars[n], filled.st);
        if exited.Going? { PlaceOrderKeeps(s, n, bars[n], n + 1 < |bars|, exited.st); }
      }
    }
  }

  lemma FillKeepsRows(s: Setup, bars: seq<Bar>, n: nat, st: State)
    requires Sound(st.queue) && FillPending(s, bars, n, st).Going?
    ensures Rows(FillPending(s, bars, n, st).st) == Rows(st)
  {
    hide Enter, Refresh, SliceOf, ValidSlice;
  }

  /** Over every replay, whatever the bars: every open lot carries its terms and its extremes, and every row written or
      waiting to be was due and adds up; also the rows an aborted replay has written. */
  lemma {:induction false} ReplayIsRight(s: Setup, bars: seq<Bar>, n: nat, e2: real, e4: real)
    requires s.Valid() && s.rounding.Within(e2, e4) && n <= |bars|
    ensures ReplayRight(s, bars, Run(s, bars, n), n, e2, e4)
  {
    hide Run;
    if n == 0 {
      NothingPending(s, bars);
    } else {
      hide ReplayRight;
      ReplayIsRight(s, bars, n - 1, e2, e4);
      BarRight(s, bars, n - 1, e2, e4);
    }
  }

  // ---- nothing due is missed -------------------------------------------------------------------------------

  /** The bar gave no cause to close the lot, except perhaps a target behind an exit of the bar. */
  ghost predicate Undue(lot: Lot, n: nat, b: Bar, exited: bool) {
    n > lot.entryBar ==> (lot.stop.Some? ==> b.low > lot.stop.value) && (b.high < lot.target || exited)
  }

  ghost predicate ClosedOn(rows: seq<Row>, n: nat) {
    exists i :: 0 <= i < |rows| && rows[i].exit.Some? && rows[i].exit.value.bar == n
  }

  ghost predicate PassMisses(s: Setup, n: nat, b: Bar, p: Pass) {
    p.Passing? ==>
      && (forall lot :: lot in p.kept ==> Undue(lot, n, b, p.exited))
      && (p.exited ==> s.market.NSE? && ClosedOn(p.written + p.batch, n))
  }

  lemma ClosedOnNext(rows: seq<Row>, row: Row, n: nat)
    ensures ClosedOn(rows, n) || (row.exit.Some? && row.exit.value.bar == n) ==> ClosedOn(rows + [row], n)
  {
    if ClosedOn(rows, n) {
      var i :| 0 <= i < |rows| && rows[i].exit.Some? && rows[i].exit.value.bar == n;
      assert (rows + [row])[i] == rows[i];
    } else {
      assert (rows + [row])[|rows|] == row;
    }
  }

  lemma ExitOneMisses(s: Setup, n: nat, b: Bar, p: Pass, before: Lot)
    requires PassSound(p) && PassMisses(s, n, b, p)
    ensures PassMisses(s, n, b, ExitOne(s, n, b, p, before))
  {
    hide Sale, ClosedRow, Emit, ClosedOn, Sound;
    if p.Passing? {
      var lot := Watch(before, n, b);
      var exit := Decide(lot, n, b, p.exited);
      if exit.Some? && s.market.CRYPTO? {
        var row := ClosedRow(s, lot, exit.value, None);
        EmitAppends(p, row, s.settings.batchSize);
        ClosedOnNext(p.written + p.batch, row, n);
      } else if exit.Some? && Sale(p.queue, lot.quantity).Ok? {
        var (m, left) := Sale(p.queue, lot.quantity).value;
        var row := ClosedRow(s, lot, exit.value, Some(m));
        ClosedRowFields(s, lot, exit.value, Some(m));
        EmitAppends(p.(queue := left, exited := true), row, s.settings.batchSize);
        ClosedOnNext(p.written + p.batch, row, n);
      }
    }
  }

  lemma {:induction false} PassMissesNone(s: Setup, n: nat, b: Bar, st: State, m: nat)
    requires m <= |st.lots| && Sound(st.queue)
    ensures PassMisses(s, n, b, ExitLots(s, n, b, PassOf(st), st.lots, m))
  {
    hide ExitOne, Sound;
    if m > 0 {
      PassMissesNone(s, n, b, st, m - 1);
      hide PassMisses;
      ExitOneMisses(s, n, b, ExitLots(s, n, b, PassOf(st), st.lots, m - 1), st.lots[m - 1]);
    }
  }

  lemma ExitMissesNone(s: Setup, n: nat, b: Bar, st: State)
    requires Sound(st.queue) && ExitBar(s, n, b, st).Going?
    ensures var r := ExitBar(s, n, b, st).st;
            forall lot :: lot in r.lots ==> Undue(lot, n, b, s.market.NSE? && ClosedOn(Rows(r), n))
  {
    PassMissesNone(s, n, b, st, |st.lots|);
    var p := ExitLots(s, n, b, PassOf(st), st.lots, |st.lots|);
    hide ExitLots, Refresh, Sound, ClosedOn;
    var r := ExitBar(s, n, b, st).st;
    if p.exited {
      RefreshKeeps(s, p.kept, p.queue);
      forall lot | lot in r.lots ensures Undue(lot, n, b, s.market.NSE? && ClosedOn(Rows(r), n)) {
        var i :| 0 <= i < |r.lots| && r.lots[i] == lot;
        assert p.kept[i] in p.kept;
      }
    }
  }

  /** On every bar of every replay nothing due is missed: no lot stays open whose stop the bar reached, none past its
      expiry, and none whose target it reached, unless on NSE another lot was closed on the bar. */
  lemma NoneMissed(s: Setup, bars: seq<Bar>, n: nat)
    requires s.Valid() && n < |bars| && Run(s, bars, n + 1).Going?
    ensures var st, b := Run(s, bars, n + 1).st, bars[n];
            forall lot :: lot in st.lots && lot.entryBar < n ==>
              && (lot.stop.Some? ==> b.low > lot.stop.value)
              && (b.high < lot.target || (s.market.NSE? && ClosedOn(Rows(st), n)))
              && (lot.expires.Some? ==> n < lot.expires.value)
  {
    hide Run, FillPending, ExitBar, PlaceOrder, ReplayExpiry.Deadline, ClosedOn, Sound;
    BarSplits(s, bars, n);
    var filled := FillPending(s, bars, n, Run(s, bars, n).st).st;
    ExitMissesNone(s, n, bars[n], filled);
    PlaceOrderKeeps(s, n, bars[n], n + 1 < |bars|, ExitedAt(s, bars, n));
    ReplayExpiry.NoneOutlives(s, bars, n + 1);
  }

  // ---- open rows -----------------------------------------------------------------------------------------------

  /** The amounts of an OPEN row, up to rounding: what the units at the front of the queue (the lot's own on CRYPTO) are
      worth at the last close, less their cost and entry fees. A last close of zero counts as missing. */
  ghost predicate OpenAdds(s: Setup, bars: seq<Bar>, queue: seq<Slice>, row: Row, e2: real, e4: real) {
    && row.exit.None? && row.gross == 0.0 && row.net == 0.0 && bars != [] && Sound(queue)
    && (s.market.NSE? ==> row.fifo.Some? && Allocations(row) == Taken(queue, row.lot.quantity))
    && var q, last := row.lot.quantity, bars[|bars| - 1].close;
       var price := if last == 0.0 then row.lot.entryPrice else last;
       && Abs(row.unrealized - (Worth(price, q) - UnitCost(s, row) - UnitFees(s, row))) <= e2 + Spread(s, q, e4)
       && Abs(row.fees - UnitFees(s, row)) <= e4 && Abs(row.slippage - row.lot.slippage) <= e4
       && row.holdingBars == |bars| - 1 - row.lot.entryBar
  }

  lemma OpenRowParts(s: Setup, lot: Lot, last: real, lastBar: int, fifo: Option<Match>, e2: real, e4: real)
    requires s.rounding.Within(e2, e4)
    ensures var row := OpenRow(s, lot, last, lastBar, fifo);
            var price := if last == 0.0 then lot.entryPrice else last;
            var fees := if fifo.Some? then fifo.value.entryFees else lot.fees;
            && row.lot == lot && row.exit.None? && row.fifo == fifo && row.gross == 0.0 && row.net == 0.0
            && Abs(row.exitPrice - price) <= e4
            && (fifo.Some? ==> Abs(row.costBasis - fifo.value.costBasis) <= e4)
            && (fifo.None? ==> row.costBasis == lot.entryPrice)
            && Abs(row.unrealized - (Worth(row.exitPrice - row.costBasis, lot.quantity) - fees)) <= e2
            && Abs(row.fees - fees) <= e4 && Abs(row.slippage - lot.slippage) <= e4
            && row.holdingBars == (if lastBar != 0 then lastBar else lot.entryBar) - lot.entryBar
  {
    hide Worth;
  }

  lemma OpenRowAdds(s: Setup, bars: seq<Bar>, queue: seq<Slice>, lot: Lot, fifo: Option<Match>, e2: real, e4: real)
    requires s.rounding.Within(e2, e4) && lot.quantity >= 0.0 && lot.entryBar < |bars| && Sound(queue)
    requires fifo.Some? == s.market.NSE?
    requires fifo.Some? ==>
               && fifo.value.allocations == Taken(queue, lot.quantity)
               && Worth(fifo.value.costBasis, lot.quantity) == AllocatedCost(fifo.value.allocations)
               && fifo.value.entryFees == AllocatedFees(fifo.value.allocations)
    ensures OpenAdds(s, bars, queue, OpenRow(s, lot, bars[|bars| - 1].close, |bars| - 1, fifo), e2, e4)
  {
    hide AllocatedCost, AllocatedFees, OpenRow, Rounding.Within, Taken, Sound;
    var last := bars[|bars| - 1].close;
    OpenRowParts(s, lot, last, |bars| - 1, fifo, e2, e4);
    var row, q := OpenRow(s, lot, last, |bars| - 1, fifo), lot.quantity;
    var price := if last == 0.0 then lot.entryPrice else last;
    var cost := if fifo.Some? then fifo.value.costBasis else lot.entryPrice;
    var f := if fifo.Some? then e4 else 0.0;
    hide Worth, Spread;
    RoundedValue(row.exitPrice, price, row.costBasis, cost, q, e4, f);
    SpreadIs(s, q, e4, f);
  }

  lemma {:induction false} OpenRowsAdd(s: Setup, bars: seq<Bar>, st: State, n: nat, e2: real, e4: real)
    requires s.rounding.Within(e2, e4) && n <= |st.lots| && Sound(st.queue) && LotsRight(s, bars, st.lots, |bars|)
    requires s.market.NSE? ==> WholeUnits(st.queue) && WholeLots(st.lots)
    requires OpenRows(s, bars, st, n).Ok?
    ensures var rows := OpenRows(s, bars, st, n).value;
            && |rows| == n
            && forall i :: 0 <= i < n ==> rows[i].lot == st.lots[i] && OpenAdds(s, bars, st.queue, rows[i], e2, e4)
  {
    hide Sale, OpenRow, OpenAdds, Rounding.Within, Carries;
    if n > 0 {
      OpenRowsAdd(s, bars, st, n - 1, e2, e4);
      var lot := st.lots[n - 1];
      assert lot in st.lots && LotRight(s, bars, lot, |bars|);
      PositiveLot(s, bars, lot, |bars|);
      hide LotRight;
      var fifo := if s.market.NSE? then Some(Sale(st.queue, lot.quantity).value.0) else None;
      if s.market.NSE? { SaleExact(st.queue, lot.quantity); }
      OpenRowAdds(s, bars, st.queue, lot, fifo, e2, e4);
      OpenRowLot(s, lot, bars[|bars| - 1].close, |bars| - 1, fifo);
    }
  }

  /** When a replay completes, what it wrote are the closed rows, each right, and then one OPEN row for each lot
      left. */
  lemma CompletedIsRight(s: Setup, bars: seq<Bar>, e2: real, e4: real)
    requires s.Valid() && s.rounding.Within(e2, e4) && Replayed(s, bars).Completed?
    ensures Run(s, bars, |bars|).Going?
    ensures var st, rows := Run(s, bars, |bars|).st, Replayed(s, bars).written;
            var closed := |Rows(st)|;
            && rows[..closed] == Rows(st) && |rows| == closed + |st.lots|
            && (forall i :: 0 <= i < closed ==> RowRight(s, bars, rows[i], e2, e4))
            && (forall i :: 0 <= i < |st.lots| ==>
                  && rows[closed + i].lot == st.lots[i] && LotRight(s, bars, st.lots[i], |bars|)
                  && OpenAdds(s, bars, st.queue, rows[closed + i], e2, e4))
  {
    hide Run, OpenRows, RowRight, LotRight, OpenAdds, Rounding.Within, Setup.Valid, WholeLots, WholeUnits;
    ReplayIsRight(s, bars, |bars|, e2, e4);
    var st := Run(s, bars, |bars|).st;
    if s.market.NSE? {
      NseReplayIsSettled(s, bars, |bars|);
      SettledSound(ReplayLedger.Bought(s, bars, |bars|), Rows(st), st.queue);
    }
    OpenRowsAdd(s, bars, st, |st.lots|, e2, e4);
    var open := OpenRows(s, bars, st, |st.lots|).value;
    assert Replayed(s, bars).written == Rows(st) + open;
    forall i | 0 <= i < |Rows(st)| ensures RowRight(s, bars, Replayed(s, bars).written[i], e2, e4) {
      assert Rows(st)[i] in Rows(st);
    }
    forall i | 0 <= i < |st.lots| ensures LotRight(s, bars, st.lots[i], |bars|) {
      assert st.lots[i] in st.lots;
    }
  }

  // ---- results add up --------------------------------------------------------------------------------------------

  ghost function NetTotal(rows: seq<Row>): real {
    if rows == [] then 0.0 else NetTotal(rows[..|rows| - 1]) + rows[|rows| - 1].net
  }

  /** What the sales of the rows brought in, after their charges. */
  ghost function ProceedsTotal(s: Setup, rows: seq<Row>): real
    requires forall row :: row in rows ==> row.exit.Some?
  {
    if rows == [] then 0.0
    else
      var n := |rows| - 1;
      ProceedsTotal(s, rows[..n]) + Proceeds(s.fees, rows[n].exit.value.price, rows[n].lot.quantity)
  }

  /** What the units sold had cost, entry fees included. */
  ghost function CostTotal(s: Setup, rows: seq<Row>): real {
    if rows == [] then 0.0
    else
      var n := |rows| - 1;
      CostTotal(s, rows[..n]) + UnitCost(s, rows[n]) + UnitFees(s, rows[n])
  }

  ghost function Rounded(s: Setup, rows: seq<Row>, e2: real, e4: real): real {
    if rows == [] then 0.0
    else
      var n := |rows| - 1;
      Rounded(s, rows[..n], e2, e4) + (2.0 * e2 + e4 + Spread(s, rows[n].lot.quantity, e4))
  }

  lemma {:induction false} RowsAddUp(s: Setup, bars: seq<Bar>, rows: seq<Row>, e2: real, e4: real)
    requires RowsRight(s, bars, rows, e2, e4)
    ensures forall row :: row in rows ==> row.exit.Some?
    ensures Abs(NetTotal(rows) - (ProceedsTotal(s, rows) - CostTotal(s, rows))) <= Rounded(s, rows, e2, e4)
  {
    hide LotRight, UnitCost, UnitFees, Spread, Proceeds;
    if rows != [] {
      var n := |rows| - 1;
      assert rows == rows[..n] + [rows[n]] && rows[n] in rows;
      RowsAddUp(s, bars, rows[..n], e2, e4);
      assert Adds(s, rows[n], e2, e4);
    }
  }

  lemma {:induction false} NseCosts(s: Setup, rows: seq<Row>)
    requires s.market.NSE?
    ensures CostTotal(s, rows) == RowCost(rows) + RowFees(rows)
  {
    hide AllocatedCost, AllocatedFees, Allocations;
    if rows != [] { NseCosts(s, rows[..|rows| - 1]); }
  }

  /** Over every replay the reported results add up: their sum is what all sales brought in less what the units sold had
      cost with their entry fees, within the rounding of each row. On NSE that cost is exactly what has left the
      inventory: the purchases' cost and fees less those still in the queue. */
  lemma ResultsAddUp(s: Setup, bars: seq<Bar>, n: nat, e2: real, e4: real)
    requires s.Valid() && s.rounding.Within(e2, e4) && n <= |bars| && Run(s, bars, n).Going?
    ensures var st := Run(s, bars, n).st;
            var rows, buys := Rows(st), ReplayLedger.Bought(s, bars, n);
            && (forall row :: row in rows ==> row.exit.Some?)
            && Abs(NetTotal(rows) - (ProceedsTotal(s, rows) - CostTotal(s, rows))) <= Rounded(s, rows, e2, e4)
            && (s.market.NSE? ==>
                  CostTotal(s, rows) == Cost(buys) + EntryFees(buys) - (Cost(st.queue) + EntryFees(st.queue)))
  {
    hide Run, RowsRight, LotsRight, Rounding.Within, Setup.Valid, NetTotal, ProceedsTotal, CostTotal, Rounded;
    ReplayIsRight(s, bars, n, e2, e4);
    var st := Run(s, bars, n).st;
    RowsAddUp(s, bars, Rows(st), e2, e4);
    if s.market.NSE? {
      NseReplayIsSettled(s, bars, n);
      NseCosts(s, Rows(st));
      hide InTurn, RowCost, RowFees, Cost, EntryFees;
    }
  }

  /** The acquisitions are the lots entered, in order, at their prices, sizes and fees. */
  lemma {:induction false} BoughtAreEntered(s: Setup, bars: seq<Bar>, n: nat)
    requires n <= |bars|
    ensures var buys, lots := ReplayLedger.Bought(s, bars, n), EnteredLots(s, bars, n);
            && |buys| == |lots|
            && forall i :: 0 <= i < |lots| ==>
                 && buys[i].price == lots[i].entryPrice && buys[i].quantity == lots[i].quantity
                 && buys[i].fees == lots[i].fees && buys[i].at == lots[i].entryBar
                 && buys[i].id == NameOf(s.symbol, lots[i])
  {
    hide EnteredAt, NameOf;
    if n > 0 {
      BoughtAreEntered(s, bars, n - 1);
      var e := EnteredAt(s, bars, n - 1);
      if e.Some? { SliceIs(s, e.value); }
      hide SliceOf;
    }
  }

  lemma SliceIs(s: Setup, lot: Lot)
    ensures var x := SliceOf(s, lot);
            && x.price == lot.entryPrice && x.quantity == lot.quantity && x.fees == lot.fees && x.at == lot.entryBar
            && x.id == NameOf(s.symbol, lot)
  {}

  /** Over every NSE replay: a TARGET_HIT nets the lot's percentage over the cost and entry fees of the units it
      sold, and those are the ones bought right after the units of the rows before it. */
  lemma TargetsEarnInTurn(s: Setup, bars: seq<Bar>, n: nat, k: nat)
    requires s.Valid() && s.market.NSE? && ProceedsGrow(s.fees) && n <= |bars| && Run(s, bars, n).Going?
    requires k < |Rows(Run(s, bars, n).st)| && Rows(Run(s, bars, n).st)[k].Status() == TARGET_HIT
    ensures var rows, buys := Rows(Run(s, bars, n).st), ReplayLedger.Bought(s, bars, n);
            var row := rows[k];
            && Sound(buys) && Sound(Cut(buys, RowUnits(rows[..k])))
            && var units := Taken(Cut(buys, RowUnits(rows[..k])), row.lot.quantity);
               Proceeds(s.fees, row.exit.value.price, row.lot.quantity)
               >= (AllocatedCost(units) + AllocatedFees(units)) * (1.0 + row.lot.targetPct / 100.0)
  {
    hide Run, Setup.Valid, ProceedsGrow, Cut, Taken, Proceeds, AllocatedCost, AllocatedFees, RowUnits;
    NseReplayIsGood(s, bars, n);
    NseReplayIsSettled(s, bars, n);
    var rows := Rows(Run(s, bars, n).st);
    assert EarnsTarget(s, rows[k]) && MatchedAt(ReplayLedger.Bought(s, bars, n), rows, k);
  }
}
