/** The backtest replay of one symbol (backend/backtest/engine.py, `_run_symbol`): a per-bar state
    machine over the pending order, open lots, FIFO queue, cycle and entry counters and the
    output batch. Timestamps are bar indices; the strategy's decisions are part of each bar. */
module Replay {
  import opened Common
  import opened Fifo
  import opened Fees
  import opened TargetPrice
  import opened LotPolicy
  import opened LotNames

  datatype Settings = Settings(
    targetPct: Option<real>,
    stopLossPct: Option<real>,
    maximumHoldingBars: Option<nat>,
    initialQuantity: real,
    allowAdditionalBuys: bool,
    additionalPct: real,
    reduceEveryLot: bool,
    minimumQuantity: real,
    maximumEntries: nat,
    batchSize: nat)
  {
    /** What `validate` insists on; NSE lots are whole. */
    ghost predicate Valid(market: Market) {
      && initialQuantity > 0.0 && minimumQuantity > 0.0
      && (market.NSE? ==> Whole(initialQuantity) && Whole(minimumQuantity))
      && 0.0 < additionalPct <= 100.0
      && (targetPct.Some? ==> targetPct.value > 0.0)
      && (stopLossPct.Some? ==> 0.0 < stopLossPct.value < 100.0)
      && (maximumHoldingBars.Some? ==> maximumHoldingBars.value >= 1)
      && maximumEntries >= 1 && batchSize >= 1
    }

    /** Units of a lot before the minimum applies. */
    function Raw(entry: nat): real {
      var ratio := additionalPct / 100.0;
      if entry == 0 then initialQuantity
      else if reduceEveryLot then initialQuantity * Power(ratio, entry)
      else initialQuantity * ratio
    }

    function LotQuantity(entry: nat, whole: bool, round8: real -> real): real {
      var raw := Raw(entry);
      if whole then Max(minimumQuantity, raw.Floor as real) else Max(minimumQuantity, round8(raw))
    }
  }

  datatype Setup = Setup(
    symbol: string,
    market: Market,
    fees: FeeModel,
    settings: Settings,
    ladder: Option<Ladder>,
    ladderTargetPct: real,
    expiryMultiplier: nat,
    rounding: Rounding,
    round8: real -> real,
    floatLimit: real)
  {
    /** The multiplier is at least one, by construction. */
    ghost predicate Valid() {
      && settings.Valid(market) && expiryMultiplier >= 1
      && (ladder.Some? ==> ladder.value.Valid())
    }

    function MaximumEntries(): nat {
      if ladder.Some? && ladder.value.MaximumEntries() < settings.maximumEntries
      then ladder.value.MaximumEntries() else settings.maximumEntries
    }
  }

  /** One candle with the decision evaluated on it; None stands for a NaN. */
  datatype Bar = Bar(
    open: real, high: real, low: real, close: real,
    inWindow: bool, buy: bool, cancel: bool,
    signalPrice: Option<real>, signalTarget: Option<real>, signalStop: Option<real>)

  datatype Lot = Lot(
    cycle: nat, number: nat, signalBar: nat, entryBar: nat,
    entryPrice: real, quantity: real, target: real, targetPct: real,
    stop: Option<real>, expires: Option<nat>,
    fees: real, slippage: real, lowest: real, highest: real)

  datatype Status = STOPPED | TARGET_HIT | EXPIRED | OPEN

  datatype Exit = Exit(status: Status, price: real, bar: nat)

  /** A result row: the lot as it stood, the FIFO match on NSE, and the derived amounts. */
  datatype Row = Row(
    lot: Lot, exit: Option<Exit>, fifo: Option<Match>,
    costBasis: real, exitPrice: real, gross: real, fees: real, slippage: real, net: real,
    unrealized: real, holdingBars: int)
  {
    function Status(): Status { if exit.Some? then exit.value.status else OPEN }
  }

  datatype Order = Order(signalBar: nat, entry: nat, cycle: nat)

  datatype State = State(
    pending: Option<Order>, lots: seq<Lot>, queue: seq<Slice>,
    cycle: nat, entries: nat, firstPrice: Option<real>, lastPrice: Option<real>,
    batch: seq<Row>, written: seq<Row>)

  datatype ReplayError =
    | Cancelled | LadderRange | ZeroEntryPrice | NoSuchBar
    | Ledger(fifo: FifoError) | Target(target: TargetError)

  /** Either the replay goes on, or an exception ended it and only `written` survives. */
  datatype Progress = Going(st: State) | Stopped(error: ReplayError, written: seq<Row>)

  const CANCEL_CHECK_BARS: nat := 500

  const Initial := State(None, [], [], 0, 0, None, None, [], [])

  // ---- entering -------------------------------------------------------------------------

  /** Python's `a or b` on optional floats: zero counts as absent. */
  function Or(a: Option<real>, b: real): real { if a.Some? && a.value != 0.0 then a.value else b }

  function EntryQuantity(s: Setup, entry: nat, firstPrice: real): Option<real> {
    if s.ladder.Some? && s.market.NSE? then s.ladder.value.Quantity(entry, firstPrice)
    else Some(s.settings.LotQuantity(entry, s.market.NSE?, s.round8))
  }

  /** Target price and percentage for a fill; None when the percentage would divide by zero. */
  function EntryTarget(s: Setup, entryPrice: real, signal: Bar): Option<(real, real)> {
    if s.settings.targetPct.Some? then
      var pct := s.settings.targetPct.value; Some((entryPrice * (1.0 + pct / 100.0), pct))
    else if s.ladder.Some? then
      Some((entryPrice * (1.0 + s.ladderTargetPct / 100.0), s.ladderTargetPct))
    else if entryPrice == 0.0 then None
    else
      var target :=
        if signal.signalPrice.Some? && signal.signalPrice.value > 0.0 && signal.signalTarget.Some?
        then Scaled(entryPrice, signal.signalTarget.value / signal.signalPrice.value)
        else Scaled(entryPrice, 1.01);
      Some((target, PctAbove(target, entryPrice)))
  }

  function Scaled(price: real, factor: real): real { price * factor }

  function PctAbove(target: real, price: real): real
    requires price != 0.0
  {
    (target / price - 1.0) * 100.0
  }

  function EntryStop(s: Setup, entryPrice: real, signal: Bar): Option<real> {
    if s.settings.stopLossPct.Some? then Some(entryPrice * (1.0 - s.settings.stopLossPct.value / 100.0))
    else if signal.signalPrice.Some? && signal.signalPrice.value > 0.0 && signal.signalStop.Some?
            && 0.0 < signal.signalStop.value < signal.signalPrice.value
    then Some(entryPrice * (signal.signalStop.value / signal.signalPrice.value))
    else None
  }

  /** `_enter`: a lot, a refusal for lack of capital, or an exception. */
  function Enter(s: Setup, bars: seq<Bar>, bar: nat, order: Order, firstPrice: Option<real>, openCapital: real)
    : Result<Option<Lot>, ReplayError>
  {
    if bar >= |bars| || order.signalBar >= |bars| then Err(NoSuchBar)
    else
      var reference := bars[bar].open;
      var quantity := EntryQuantity(s, order.entry, Or(firstPrice, s.fees.buy(reference, 1.0).price));
      if quantity.None? then Err(LadderRange)
      else
        var fill := s.fees.buy(reference, quantity.value);
        if s.ladder.Some? && !s.ladder.value.WithinCapital(openCapital, fill.price, quantity.value) then Ok(None)
        else
          var entryPrice := s.rounding.four(fill.price);
          var signal := bars[order.signalBar];
          var target := EntryTarget(s, entryPrice, signal);
          if target.None? then Err(ZeroEntryPrice)
          else
            var stop := EntryStop(s, entryPrice, signal);
            Ok(Some(Lot(
              order.cycle, order.entry + 1, order.signalBar, bar,
              entryPrice, quantity.value, s.rounding.four(target.value.0), target.value.1,
              if stop.Some? then Some(s.rounding.four(stop.value)) else None,
              if s.settings.maximumHoldingBars.Some?
              then Some(bar + s.settings.maximumHoldingBars.value * s.expiryMultiplier) else None,
              fill.fees, fill.slippage, fill.price, fill.price)))
  }

  function SliceOf(s: Setup, lot: Lot): Slice {
    Slice(LotName(s.symbol, lot.cycle, lot.number), lot.entryBar, lot.entryPrice, lot.quantity, lot.fees)
  }

  // ---- FIFO targets -----------------------------------------------------------------------

  /** The target a lot gets from the present queue. */
  function FreshTarget(s: Setup, lot: Lot, queue: seq<Slice>): Result<real, ReplayError>
    requires Sound(queue)
  {
    match Sale(queue, lot.quantity)
    case Err(e) => Err(Ledger(e))
    case Ok((m, _)) =>
      match NetTarget(s.fees, m, lot.targetPct, s.floatLimit)
      case Err(e) => Err(Target(e))
      case Ok(price) => Ok(price)
  }

  function Refresh(s: Setup, lots: seq<Lot>, queue: seq<Slice>): (r: Result<seq<Lot>, ReplayError>)
    requires Sound(queue)
    ensures r.Ok? ==> |r.value| == |lots|
  {
    if s.market.CRYPTO? || lots == [] then Ok(lots)
    else
      var n := |lots| - 1;
      match Refresh(s, lots[..n], queue)
      case Err(e) => Err(e)
      case Ok(done) =>
        match FreshTarget(s, lots[n], queue)
        case Err(e) => Err(e)
        case Ok(price) => Ok(done + [lots[n].(target := price)])
  }

  // ---- the start of a bar: fill the pending order -------------------------------------------

  /** A pending order has been counted as an entry, so this is always a true decrement. */
  function Less(entries: nat): nat { if entries == 0 then 0 else entries - 1 }

  function FillPending(s: Setup, bars: seq<Bar>, bar: nat, st: State): (r: Progress)
    requires Sound(st.queue)
    ensures ProgressSound(r)
  {
    if st.pending.None? then Going(st)
    else
      match Enter(s, bars, bar, st.pending.value, st.firstPrice, Cost(st.queue))
      case Err(e) => Stopped(e, st.written)
      case Ok(None) => Going(st.(pending := None, entries := Less(st.entries)))
      case Ok(Some(lot)) =>
        var slice := SliceOf(s, lot);
        if !ValidSlice(slice) then Stopped(Ledger(BadAcquisition), st.written)
        else
          var queue := st.queue + [slice];
          match Refresh(s, st.lots + [lot], queue)
          case Err(e) => Stopped(e, st.written)
          case Ok(lots) =>
            Going(st.(pending := None, lots := lots, queue := queue,
                      firstPrice := Some(Or(st.firstPrice, lot.entryPrice)),
                      lastPrice := Some(lot.entryPrice)))
  }

  // ---- exits --------------------------------------------------------------------------------

  function MaybeExit(lot: Lot, bar: nat, b: Bar): Option<Exit> {
    if bar <= lot.entryBar then None
    else if lot.stop.Some? && b.low <= lot.stop.value then Some(Exit(STOPPED, lot.stop.value, bar))
    else if b.high >= lot.target then Some(Exit(TARGET_HIT, lot.target, bar))
    else if lot.expires.Some? && bar >= lot.expires.value then Some(Exit(EXPIRED, b.close, bar))
    else None
  }

  function Watch(lot: Lot, bar: nat, b: Bar): Lot {
    if bar > lot.entryBar then lot.(lowest := Min(lot.lowest, b.low), highest := Max(lot.highest, b.high)) else lot
  }

  /** `_trade_row` for a closed lot. */
  function ClosedRow(s: Setup, lot: Lot, exit: Exit, fifo: Option<Match>): Row {
    var costBasis := if fifo.Some? then s.rounding.four(fifo.value.costBasis) else lot.entryPrice;
    var entryFees := if fifo.Some? then fifo.value.entryFees else lot.fees;
    var fill := s.fees.sell(exit.price, lot.quantity);
    var exitPrice := s.rounding.four(fill.price);
    var gross := s.rounding.two(Worth(exitPrice - costBasis, lot.quantity));
    var fees := s.rounding.four(entryFees + fill.fees);
    Row(lot, Some(exit), fifo, costBasis, exitPrice, gross, fees,
        s.rounding.four(lot.slippage + fill.slippage), s.rounding.two(gross - fees), 0.0, exit.bar - lot.entryBar)
  }

  /** `_trade_row` for a lot still open at the end. */
  function OpenRow(s: Setup, lot: Lot, lastClose: real, lastBar: int, fifo: Option<Match>): Row {
    var costBasis := if fifo.Some? then s.rounding.four(fifo.value.costBasis) else lot.entryPrice;
    var entryFees := if fifo.Some? then fifo.value.entryFees else lot.fees;
    var price := s.rounding.four(Or(Some(lastClose), lot.entryPrice));
    Row(lot, None, fifo, costBasis, price, 0.0, s.rounding.four(entryFees), s.rounding.four(lot.slippage), 0.0,
        s.rounding.two(Worth(price - costBasis, lot.quantity) - entryFees),
        (if lastBar != 0 then lastBar else lot.entryBar) - lot.entryBar)
  }

  /** The exit loop's variables: lots kept, queue, whether an NSE exit happened, output. */
  datatype Pass =
    | Passing(kept: seq<Lot>, queue: seq<Slice>, exited: bool, batch: seq<Row>, written: seq<Row>)
    | Raised(error: ReplayError, lost: seq<Row>)

  /** Appending a row flushes the batch once it is full. */
  function Emit(p: Pass, row: Row, size: nat): Pass
    requires p.Passing?
  {
    var batch := p.batch + [row];
    if |batch| >= size then p.(batch := [], written := p.written + batch) else p.(batch := batch)
  }

  /** Flushed or not, the row is the last one. */
  lemma EmitAppends(p: Pass, row: Row, size: nat)
    requires p.Passing?
    ensures var r := Emit(p, row, size);
            r.Passing? && r.kept == p.kept && r.queue == p.queue && r.exited == p.exited
            && r.written + r.batch == p.written + p.batch + [row]
  {
    assert p.written + (p.batch + [row]) == p.written + p.batch + [row];
    assert p.written + p.batch + [row] + [] == p.written + p.batch + [row];
  }

  function Decide(lot: Lot, bar: nat, b: Bar, exited: bool): Option<Exit> {
    var exit := MaybeExit(lot, bar, b);
    if exit.Some? && exit.value.status == TARGET_HIT && exited then None else exit
  }

  ghost predicate PassSound(p: Pass) { p.Passing? ==> Sound(p.queue) }

  function ExitOne(s: Setup, bar: nat, b: Bar, p: Pass, before: Lot): (r: Pass)
    requires PassSound(p)
    ensures PassSound(r)
  {
    if p.Raised? then p
    else
      var lot := Watch(before, bar, b);
      var exit := Decide(lot, bar, b, p.exited);
      if exit.None? then p.(kept := p.kept + [lot])
      else if s.market.CRYPTO? then Emit(p, ClosedRow(s, lot, exit.value, None), s.settings.batchSize)
      else
        match Sale(p.queue, lot.quantity)
        case Err(e) => Raised(Ledger(e), p.written)
        case Ok((m, left)) =>
          DrainSound(p.queue, lot.quantity);
          Emit(p.(queue := left, exited := true), ClosedRow(s, lot, exit.value, Some(m)), s.settings.batchSize)
  }

  /** The exit loop after the first n lots. */
  function ExitLots(s: Setup, bar: nat, b: Bar, start: Pass, lots: seq<Lot>, n: nat): (r: Pass)
    requires n <= |lots| && PassSound(start)
    ensures PassSound(r)
  {
    if n == 0 then start else ExitOne(s, bar, b, ExitLots(s, bar, b, start, lots, n - 1), lots[n - 1])
  }

  function PassOf(st: State): Pass { Passing([], st.queue, false, st.batch, st.written) }

  /** The exit loop, then the refresh when the inventory changed, then the cycle reset. */
  function ExitBar(s: Setup, bar: nat, b: Bar, st: State): (r: Progress)
    requires Sound(st.queue)
    ensures ProgressSound(r)
  {
    match ExitLots(s, bar, b, PassOf(st), st.lots, |st.lots|)
    case Raised(e, lost) => Stopped(e, lost)
    case Passing(kept, queue, exited, batch, written) =>
      match if exited then Refresh(s, kept, queue) else Ok(kept)
      case Err(e) => Stopped(e, written)
      case Ok(lots) =>
        var after := st.(lots := lots, queue := queue, batch := batch, written := written);
        Going(if lots == [] && st.pending.None?
              then after.(entries := 0, firstPrice := None, lastPrice := None) else after)
  }

  // ---- ordering -----------------------------------------------------------------------------

  /** The rest of the bar: queue an order for the next open. `more` says another bar follows. */
  function PlaceOrder(s: Setup, bar: nat, b: Bar, more: bool, st: State): State {
    if !b.inWindow then st
    else if s.ladder.Some? && st.lots != [] then
      if && s.settings.allowAdditionalBuys && st.pending.None? && st.entries < s.MaximumEntries() && more
         && st.lastPrice.Some? && s.ladder.value.AdditionalEntryAllowed(b.close, st.lastPrice.value)
      then st.(pending := Some(Order(bar, st.entries, st.lots[0].cycle)), entries := st.entries + 1)
      else st
    else if !b.buy then st
    else
      var st := if st.lots == [] && st.pending.None? then st.(cycle := st.cycle + 1, entries := 0) else st;
      if (st.lots == [] || s.settings.allowAdditionalBuys) && st.entries < s.MaximumEntries() && more
      then st.(pending := Some(Order(bar, st.entries, st.cycle)), entries := st.entries + 1)
      else st
  }

  // ---- runs -----------------------------------------------------------------------------------

  ghost predicate ProgressSound(p: Progress) { p.Going? ==> Sound(p.st.queue) }

  function Step(s: Setup, bars: seq<Bar>, bar: nat, p: Progress): (r: Progress)
    requires bar < |bars| && ProgressSound(p)
    ensures ProgressSound(r)
  {
    if p.Stopped? then p
    else if bar % CANCEL_CHECK_BARS == 0 && bars[bar].cancel then Stopped(Cancelled, p.st.written)
    else
      var filled := FillPending(s, bars, bar, p.st);
      if filled.Stopped? then filled
      else
        var exited := ExitBar(s, bar, bars[bar], filled.st);
        if exited.Stopped? then exited
        else Going(PlaceOrder(s, bar, bars[bar], bar + 1 < |bars|, exited.st))
  }

  /** The replay after the first n bars. */
  function Run(s: Setup, bars: seq<Bar>, n: nat): (r: Progress)
    requires n <= |bars|
    ensures ProgressSound(r)
  {
    if n == 0 then Going(Initial) else Step(s, bars, n - 1, Run(s, bars, n - 1))
  }

  function OpenRows(s: Setup, bars: seq<Bar>, st: State, n: nat): (r: Result<seq<Row>, ReplayError>)
    requires n <= |st.lots| && Sound(st.queue)
  {
    if n == 0 then Ok([])
    else
      match OpenRows(s, bars, st, n - 1)
      case Err(e) => Err(e)
      case Ok(rows) =>
        var lot := st.lots[n - 1];
        var close := if |bars| > 0 then bars[|bars| - 1].close else 0.0;
        if s.market.CRYPTO? then Ok(rows + [OpenRow(s, lot, close, |bars| - 1, None)])
        else
          match Sale(st.queue, lot.quantity)
          case Err(e) => Err(Ledger(e))
          case Ok((m, _)) => Ok(rows + [OpenRow(s, lot, close, |bars| - 1, Some(m))])
  }

  /** Everything handed to the writer, and whether the symbol completed. */
  datatype Outcome = Completed(written: seq<Row>) | Aborted(error: ReplayError, written: seq<Row>)

  function Replayed(s: Setup, bars: seq<Bar>): Outcome {
    match Run(s, bars, |bars|)
    case Stopped(e, written) => Aborted(e, written)
    case Going(st) =>
      match OpenRows(s, bars, st, |st.lots|)
      case Err(e) => Aborted(e, st.written)
      case Ok(rows) => Completed(st.written + st.batch + rows)
  }
}
