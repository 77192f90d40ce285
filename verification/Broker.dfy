/** The paper broker (backend/paper_trading/broker.py with portfolio.py and accounting.py): stored
    signals and completed candles become simulated lots. A `Book` holds the durable tables
    (orders, lots, trades, cash, pending entries) and the in-memory caches (open lots per symbol,
    FIFO inventories). A lot's identifier is its row number in the lots table. */
module Broker {
  import opened Common
  import opened Fifo
  import opened Fees
  import opened TargetPrice
  import opened LotPolicy
  import LotNames

  datatype Policy = Policy(
    fixedQuantity: bool, initialQuantity: real, capitalPerLot: real,
    allowAdditionalBuys: bool, additionalPct: real, reduceEveryLot: bool, minimumQuantity: Option<real>,
    maximumEntries: nat, nextOpen: bool, stopLossPct: Option<real>, maximumHoldingBars: Option<nat>,
    maximumOpenPositions: nat, maximumDailyTrades: nat, maximumDailyLossPct: real, maximumExposurePct: real)
  {
    function Minimum(whole: bool): real {
      if minimumQuantity.Some? then minimumQuantity.value else if whole then 1.0 else 0.00000001
    }

    /** Units of a lot before the minimum applies; None when capital is divided by a zero price. */
    function Raw(entry: nat, price: real): Option<real> {
      if !fixedQuantity && price == 0.0 then None
      else
        var base := if fixedQuantity then initialQuantity else capitalPerLot / price;
        var ratio := additionalPct / 100.0;
        Some(if entry == 0 then base
             else if reduceEveryLot then base * Power(ratio, entry)
             else base * ratio)
    }

    function LotQuantity(entry: nat, price: real, whole: bool, round8: real -> real): Option<real> {
      var raw := Raw(entry, price);
      if raw.None? then None
      else Some(Max(Minimum(whole), if whole then raw.value.Floor as real else round8(raw.value)))
    }
  }

  /** The immutable snapshot a signal carries and its lots keep. */
  datatype Config = Config(policy: Policy, ladder: Option<Ladder>, targetPct: Option<real>) {
    function Cap(): nat {
      if ladder.Some? && ladder.value.MaximumEntries() < policy.maximumEntries
      then ladder.value.MaximumEntries() else policy.maximumEntries
    }
  }

  datatype Signal = Signal(
    id: Option<nat>, symbol: string, strategy: string, timeframe: string, at: int, price: real,
    targetPrice: Option<real>, stopPrice: Option<real>, config: Config)

  /** A next-open entry; ladder additions carry the cycle and lot number they are for. */
  datatype Pending = Pending(signal: Signal, ladderLot: Option<(nat, nat)>, created: int)

  datatype Status = OPEN | TARGET_HIT | STOPPED | EXPIRED | CLOSED

  datatype Lot = Lot(
    id: nat, symbol: string, strategy: string, timeframe: string, cycle: nat, number: nat,
    entryAt: int, entryPrice: real, quantity: real, target: real, stop: Option<real>, expires: Option<int>,
    fees: real, config: Config, status: Status,
    costBasis: real, lastPrice: real, unrealized: real, realized: real, exitAt: Option<int>)

  datatype Trade = Trade(lot: nat, symbol: string, buy: bool, quantity: real, price: real, fees: real, at: int)

  datatype Reason =
    | ADDITIONAL_BUYS_DISABLED | MAXIMUM_ENTRIES_PER_CYCLE | DIP_THRESHOLD_NOT_REACHED
    | MAXIMUM_POSITION_CAPITAL | INSUFFICIENT_FUNDS | MAXIMUM_OPEN_POSITIONS
    | MAXIMUM_TOTAL_EXPOSURE | MAXIMUM_DAILY_TRADES | MAXIMUM_DAILY_LOSS

  datatype Order = Filled(signal: Option<nat>) | Rejected(signal: Option<nat>, reason: Reason)

  datatype Book = Book(
    starting: real, cash: real,
    orders: seq<Order>, lots: seq<Lot>, trades: seq<Trade>, pending: seq<Pending>,
    open: seq<Lot>, inventories: map<string, seq<Slice>>)

  /** The market, its costs and calendar, and the rounding of stored fields. */
  datatype Desk = Desk(
    market: Market, fees: FeeModel, rounding: Rounding, round8: real -> real, floatLimit: real,
    day: int -> int, barSeconds: string -> int)

  /** What an operation leaves behind, and whether it raised part way. */
  datatype Out = Out(book: Book, ok: bool)

  const TRADE_READ_LIMIT: nat := 10000

  // ---- lookups ------------------------------------------------------------------------------

  function QueueOf(inventories: map<string, seq<Slice>>, symbol: string): seq<Slice> {
    if symbol in inventories then inventories[symbol] else []
  }

  predicate SoundInventories(inventories: map<string, seq<Slice>>) {
    forall k :: k in inventories ==> Sound(inventories[k])
  }

  predicate SameKey(lot: Lot, symbol: string, strategy: string, timeframe: string) {
    lot.symbol == symbol && lot.strategy == strategy && lot.timeframe == timeframe
  }

  function LotsOfKey(open: seq<Lot>, symbol: string, strategy: string, timeframe: string): seq<Lot> {
    if open == [] then []
    else
      var n := |open| - 1;
      LotsOfKey(open[..n], symbol, strategy, timeframe)
      + (if SameKey(open[n], symbol, strategy, timeframe) then [open[n]] else [])
  }

  /** Open lots of a symbol, optionally of one timeframe. */
  function LotsFor(open: seq<Lot>, symbol: string, timeframe: Option<string>): seq<Lot> {
    if open == [] then []
    else
      var n := |open| - 1;
      LotsFor(open[..n], symbol, timeframe)
      + (if open[n].symbol == symbol && (timeframe.None? || open[n].timeframe == timeframe.value)
         then [open[n]] else [])
  }

  function CycleLots(lots: seq<Lot>, symbol: string, cycle: nat): seq<Lot> {
    if lots == [] then []
    else
      var n := |lots| - 1;
      CycleLots(lots[..n], symbol, cycle)
      + (if lots[n].symbol == symbol && lots[n].cycle == cycle then [lots[n]] else [])
  }

  /** The highest cycle number the symbol ever had, 0 for none. */
  function MaxCycle(lots: seq<Lot>, symbol: string): nat {
    if lots == [] then 0
    else
      var n := |lots| - 1;
      var rest := MaxCycle(lots[..n], symbol);
      if lots[n].symbol == symbol && lots[n].cycle > rest then lots[n].cycle else rest
  }

  /** The row with the highest (latest) lot number of a non-empty cycle. */
  function Latest(lots: seq<Lot>): Lot
    requires lots != []
  {
    if |lots| == 1 then lots[0]
    else
      var rest := Latest(lots[..|lots| - 1]);
      if lots[|lots| - 1].number > rest.number then lots[|lots| - 1] else rest
  }

  function First(lots: seq<Lot>): Lot
    requires lots != []
  {
    if |lots| == 1 then lots[0]
    else
      var rest := First(lots[..|lots| - 1]);
      if lots[|lots| - 1].number < rest.number then lots[|lots| - 1] else rest
  }

  function EntryValue(lots: seq<Lot>): real {
    if lots == [] then 0.0
    else EntryValue(lots[..|lots| - 1]) + Worth(lots[|lots| - 1].entryPrice, lots[|lots| - 1].quantity)
  }

  // ---- portfolio limits -------------------------------------------------------------------------

  type PositionKey = (string, string, string)

  function KeyOf(lot: Lot): PositionKey { (lot.symbol, lot.strategy, lot.timeframe) }

  function Positions(open: seq<Lot>): set<PositionKey> { set i | 0 <= i < |open| :: KeyOf(open[i]) }

  function Exposure(open: seq<Lot>): real {
    if open == [] then 0.0
    else
      var lot := open[|open| - 1];
      Exposure(open[..|open| - 1])
      + Worth(if lot.costBasis != 0.0 then lot.costBasis else lot.entryPrice, lot.quantity)
  }

  function Unrealized(open: seq<Lot>): real {
    if open == [] then 0.0 else Unrealized(open[..|open| - 1]) + open[|open| - 1].unrealized
  }

  function BuysOn(trades: seq<Trade>, day: int -> int, date: int): nat {
    if trades == [] then 0
    else
      var t := trades[|trades| - 1];
      BuysOn(trades[..|trades| - 1], day, date) + (if t.buy && day(t.at) == date then 1 else 0)
  }

  function RealizedOn(lots: seq<Lot>, day: int -> int, date: int): real {
    if lots == [] then 0.0
    else
      var lot := lots[|lots| - 1];
      RealizedOn(lots[..|lots| - 1], day, date)
      + (if lot.exitAt.Some? && day(lot.exitAt.value) == date then lot.realized else 0.0)
  }

  /** Where a trade goes in ORDER BY executed_at, trade_id: after every row not later than it. */
  function Place(sorted: seq<Trade>, at: int): nat
    ensures Place(sorted, at) <= |sorted|
  {
    if sorted == [] || sorted[|sorted| - 1].at <= at then |sorted| else Place(sorted[..|sorted| - 1], at)
  }

  /** The trade log in (executed_at, trade_id) order. */
  function Chronological(log: seq<Trade>): seq<Trade> {
    if log == [] then []
    else
      var t := log[|log| - 1];
      var rest := Chronological(log[..|log| - 1]);
      var p := Place(rest, t.at);
      rest[..p] + [t] + rest[p..]
  }

  /** The rows a limited, newest-first read of the log returns. */
  function Recent(log: seq<Trade>, limit: nat): seq<Trade> {
    if |log| <= limit then log
    else
      var sorted := Chronological(log);
      if |sorted| <= limit then sorted else sorted[|sorted| - limit..]
  }

  /** `_portfolio_rejection`. The reads of 10,000 lot rows are taken as complete. */
  function PortfolioRejection(d: Desk, b: Book, policy: Policy, cost: real, at: int, opensNew: bool): Option<Reason> {
    if opensNew && |Positions(b.open)| >= policy.maximumOpenPositions then Some(MAXIMUM_OPEN_POSITIONS)
    else if Exposure(b.open) + cost > b.starting * policy.maximumExposurePct / 100.0 then Some(MAXIMUM_TOTAL_EXPOSURE)
    else if BuysOn(Recent(b.trades, TRADE_READ_LIMIT), d.day, d.day(at)) >= policy.maximumDailyTrades
    then Some(MAXIMUM_DAILY_TRADES)
    else if RealizedOn(b.lots, d.day, d.day(at)) + Unrealized(b.open)
            <= -(b.starting * policy.maximumDailyLossPct / 100.0)
    then Some(MAXIMUM_DAILY_LOSS)
    else None
  }

  // ---- deciding an entry ----------------------------------------------------------------------

  datatype Verdict =
    | Refuse(reason: Reason)
    | Duplicate
    | Raise
    | Accept(cycle: nat, number: nat, quantity: real, fill: Fill, cost: real)

  predicate AlreadyFilled(orders: seq<Order>, signal: Option<nat>) {
    signal.Some? && exists i :: 0 <= i < |orders| && orders[i] == Filled(signal)
  }

  function EntryQuantity(d: Desk, config: Config, entry: nat, first: real, reference: real): Option<real> {
    if config.ladder.Some? && d.market.NSE? then config.ladder.value.Quantity(entry, first)
    else config.policy.LotQuantity(entry, reference, d.market.NSE?, d.round8)
  }

  /** The checks of `_fill_entry`, in order. */
  function Judge(d: Desk, b: Book, sig: Signal, reference: real, at: int): Verdict {
    var policy, ladder := sig.config.policy, sig.config.ladder;
    var open := LotsOfKey(b.open, sig.symbol, sig.strategy, sig.timeframe);
    var cycle := if open != [] then open[0].cycle else MaxCycle(b.lots, sig.symbol) + 1;
    var cycleLots := if open != [] then CycleLots(b.lots, sig.symbol, cycle) else [];
    if open != [] && !policy.allowAdditionalBuys then Refuse(ADDITIONAL_BUYS_DISABLED)
    else if open != [] && cycleLots == [] then Raise
    else
      var entry := if open != [] then Latest(cycleLots).number else 0;
      if entry >= sig.config.Cap() then Refuse(MAXIMUM_ENTRIES_PER_CYCLE)
      else if ladder.Some? && entry > 0 && cycleLots != []
              && !ladder.value.AdditionalEntryAllowed(sig.price, Latest(cycleLots).entryPrice)
      then Refuse(DIP_THRESHOLD_NOT_REACHED)
      else
        var first := if cycleLots != [] then First(cycleLots).entryPrice else d.fees.buy(reference, 1.0).price;
        JudgeCost(d, b, sig, reference, at, open, cycle, entry, first)
  }

  function JudgeCost(
    d: Desk, b: Book, sig: Signal, reference: real, at: int,
    open: seq<Lot>, cycle: nat, entry: nat, first: real): Verdict
  {
    var quantity := EntryQuantity(d, sig.config, entry, first, reference);
    if quantity.None? then Raise
    else
      var q := quantity.value;
      var fill := d.fees.buy(reference, q);
      var capital := if d.market.NSE? then Cost(QueueOf(b.inventories, sig.symbol)) else EntryValue(open);
      var cost := EntryCost(fill, q);
      if sig.config.ladder.Some? && !sig.config.ladder.value.WithinCapital(capital, fill.price, q)
      then Refuse(MAXIMUM_POSITION_CAPITAL)
      else if cost > b.cash then Refuse(INSUFFICIENT_FUNDS)
      else
        var rejection := PortfolioRejection(d, b, sig.config.policy, cost, at, open == []);
        if rejection.Some? then Refuse(rejection.value)
        else if AlreadyFilled(b.orders, sig.id) then Duplicate
        else Accept(cycle, entry + 1, q, fill, cost)
  }

  // ---- accounting (accounting.py) ---------------------------------------------------------------

  function EntryCost(fill: Fill, quantity: real): real { Worth(fill.price, quantity) + fill.fees }

  function ExitProceeds(fill: Fill, quantity: real): real { Worth(fill.price, quantity) - fill.fees }

  function RealizedPnl(d: Desk, entry: real, exit: real, quantity: real, totalFees: real): real {
    d.rounding.two(Worth(exit - entry, quantity) - totalFees)
  }

  function UnrealizedPnl(d: Desk, entry: real, last: real, quantity: real, fees: real): real {
    d.rounding.two(Worth(last - entry, quantity) - fees)
  }

  // ---- entering a lot -----------------------------------------------------------------------------

  /** The percentage for the first target: the snapshot's, the signal's distance, or one percent. */
  function TargetPct(sig: Signal): real {
    if sig.config.targetPct.Some? && sig.config.targetPct.value != 0.0 then sig.config.targetPct.value
    else if sig.targetPrice.Some? && sig.targetPrice.value != 0.0 && sig.price != 0.0
    then (sig.targetPrice.value / sig.price - 1.0) * 100.0
    else 1.0
  }

  /** The signal's target distance would divide by a zero signal price. */
  predicate TargetPctRaises(sig: Signal) {
    && (sig.config.targetPct.None? || sig.config.targetPct.value == 0.0)
    && sig.targetPrice.Some? && sig.targetPrice.value != 0.0 && sig.price == 0.0
  }

  function Higher(price: real, pct: real): real { price * (1.0 + pct / 100.0) }

  function Lower(price: real, pct: real): real { price * (1.0 - pct / 100.0) }

  function NewLot(d: Desk, b: Book, sig: Signal, at: int, v: Verdict): Lot
    requires v.Accept?
  {
    var policy := sig.config.policy;
    var price := d.rounding.four(v.fill.price);
    var stop :=
      if policy.stopLossPct.Some? then Some(d.rounding.four(Lower(price, policy.stopLossPct.value)))
      else sig.stopPrice;
    var expires :=
      if policy.maximumHoldingBars.Some? && policy.maximumHoldingBars.value > 0
      then Some(at + d.barSeconds(sig.timeframe) * policy.maximumHoldingBars.value) else None;
    Lot(|b.lots|, sig.symbol, sig.strategy, sig.timeframe, v.cycle, v.number, at, price, v.quantity,
        d.rounding.four(Higher(price, TargetPct(sig))), stop, expires,
        d.rounding.four(v.fill.fees), sig.config, OPEN,
        price, price, UnrealizedPnl(d, price, price, v.quantity, v.fill.fees), 0.0, None)
  }

  function SliceOf(lot: Lot): Slice {
    Slice(LotNames.Decimal(lot.id), lot.entryAt, lot.entryPrice, lot.quantity, lot.fees)
  }

  /** The writes of an accepted entry, up to (not including) the re-marking. On NSE a fill whose
      rounded price is not positive makes the ledger raise after the rows were inserted. */
  function Enter(d: Desk, b: Book, sig: Signal, at: int, v: Verdict): Out
    requires v.Accept?
  {
    var lot := NewLot(d, b, sig, at, v);
    var rows := b.(orders := b.orders + [Filled(sig.id)], lots := b.lots + [lot],
                   trades := b.trades + [Trade(lot.id, lot.symbol, true, lot.quantity, lot.entryPrice, lot.fees, at)]);
    if TargetPctRaises(sig) then Out(b.(orders := b.orders + [Filled(sig.id)]), false)
    else if d.market.NSE? && !ValidSlice(SliceOf(lot)) then Out(rows, false)
    else
      Out(rows.(inventories :=
                  if d.market.NSE?
                  then b.inventories[lot.symbol := QueueOf(b.inventories, lot.symbol) + [SliceOf(lot)]]
                  else b.inventories,
                cash := b.cash - v.cost,
                open := b.open + [lot]),
          true)
  }

  // ---- marking ------------------------------------------------------------------------------------

  function Replace(open: seq<Lot>, lot: Lot): seq<Lot> {
    if open == [] then [lot]
    else if open[0].id == lot.id then [lot] + open[1..]
    else [open[0]] + Replace(open[1..], lot)
  }

  /** A lot's marks against the present queue; None when a step raises. */
  function Remark(d: Desk, queue: seq<Slice>, lot: Lot, close: real): Option<(Lot, real)>
    requires Sound(queue)
  {
    if d.market.CRYPTO? then
      Some((lot.(costBasis := lot.entryPrice, lastPrice := close,
                 unrealized := UnrealizedPnl(d, lot.entryPrice, close, lot.quantity, lot.fees)), lot.fees))
    else
      match Sale(queue, lot.quantity)
      case Err(_) => None
      case Ok((m, _)) =>
        if lot.config.targetPct.None? then None
        else
          match NetTarget(d.fees, m, lot.config.targetPct.value, d.floatLimit)
          case Err(_) => None
          case Ok(target) =>
            var basis := d.rounding.four(m.costBasis);
            Some((lot.(costBasis := basis, lastPrice := close, target := target,
                       unrealized := UnrealizedPnl(d, basis, close, lot.quantity, m.entryFees)), m.entryFees))
  }

  /** `lots.mark` and `replace_lot` for one lot: the table row also takes the matched entry fees. */
  function MarkOne(d: Desk, o: Out, lot: Lot, close: real): (r: Out)
    requires SoundInventories(o.book.inventories)
    ensures r.book.inventories == o.book.inventories
  {
    if !o.ok then o
    else
      var marked := Remark(d, QueueOf(o.book.inventories, lot.symbol), lot, close);
      if marked.None? || lot.id >= |o.book.lots| then o.(ok := false)
      else
        var row := o.book.lots[lot.id];
        var mark := marked.value.0;
        Out(o.book.(
              lots := o.book.lots[lot.id :=
                        if row.status == OPEN
                        then row.(costBasis := mark.costBasis, lastPrice := mark.lastPrice, target := mark.target,
                                  unrealized := mark.unrealized, fees := marked.value.1)
                        else row],
              open := Replace(o.book.open, mark)),
            true)
  }

  /** `_mark_open_lots` over the first n of the given lots. */
  function MarkLots(d: Desk, o: Out, lots: seq<Lot>, close: real, n: nat): (r: Out)
    requires n <= |lots| && SoundInventories(o.book.inventories)
    ensures r.book.inventories == o.book.inventories
  {
    if n == 0 then o else MarkOne(d, MarkLots(d, o, lots, close, n - 1), lots[n - 1], close)
  }

  function FillEntry(d: Desk, b: Book, sig: Signal, reference: real, at: int): (r: Out)
    requires SoundInventories(b.inventories)
    ensures SoundInventories(r.book.inventories)
  {
    hide Judge, MarkLots, NewLot, LotsFor;
    match Judge(d, b, sig, reference, at)
    case Raise => Out(b, false)
    case Refuse(reason) => Out(b.(orders := b.orders + [Rejected(sig.id, reason)]), true)
    case Duplicate => Out(b, true)
    case Accept(_, _, _, fill, _) =>
      var entered := Enter(d, b, sig, at, Judge(d, b, sig, reference, at));
      if !entered.ok then entered
      else
        var lots := LotsFor(entered.book.open, sig.symbol, None);
        MarkLots(d, entered, lots, d.rounding.four(fill.price), |lots|)
  }

  // ---- closing a lot ------------------------------------------------------------------------------

  function Remove(open: seq<Lot>, id: nat): seq<Lot> {
    if open == [] then []
    else Remove(open[..|open| - 1], id) + (if open[|open| - 1].id == id then [] else [open[|open| - 1]])
  }

  /** The cost basis and entry fees of a sale of this lot: FIFO on NSE, its own on CRYPTO. */
  function Basis(d: Desk, queue: seq<Slice>, lot: Lot): Option<(real, real)>
    requires Sound(queue)
  {
    if d.market.CRYPTO? then Some((lot.entryPrice, lot.fees))
    else
      match Sale(queue, lot.quantity)
      case Err(_) => None
      case Ok((m, _)) => Some((d.rounding.four(m.costBasis), m.entryFees))
  }

  /** The row of a lot once it is closed; a row that is not open stays as it is. */
  function ClosedRow(d: Desk, row: Lot, basis: (real, real), fill: Fill, quantity: real, status: Status, at: int): Lot {
    if row.status != OPEN then row
    else
      var price := d.rounding.four(fill.price);
      var fees := d.rounding.four(basis.1 + fill.fees);
      row.(status := status, exitAt := Some(at), costBasis := basis.0,
           realized := RealizedPnl(d, basis.0, price, quantity, fees),
           fees := fees, unrealized := 0.0, lastPrice := price)
  }

  function CloseLot(d: Desk, b: Book, lot: Lot, status: Status, raw: real, at: int): (r: Out)
    requires SoundInventories(b.inventories)
    ensures SoundInventories(r.book.inventories)
  {
    hide ClosedRow;
    var queue := QueueOf(b.inventories, lot.symbol);
    var fill := d.fees.sell(raw, lot.quantity);
    var basis := Basis(d, queue, lot);
    if basis.None? || lot.id >= |b.lots| then Out(b, false)
    else
      var price, sellFees := d.rounding.four(fill.price), d.rounding.four(fill.fees);
      DrainSound(queue, lot.quantity);
      Out(b.(lots := b.lots[lot.id := ClosedRow(d, b.lots[lot.id], basis.value, fill, lot.quantity, status, at)],
             trades := b.trades + [Trade(lot.id, lot.symbol, false, lot.quantity, price, sellFees, at)],
             inventories :=
               if d.market.NSE? then b.inventories[lot.symbol := Sale(queue, lot.quantity).value.1] else b.inventories,
             cash := b.cash + ExitProceeds(fill, lot.quantity),
             open := Remove(b.open, lot.id)),
          true)
  }

  // ---- candles --------------------------------------------------------------------------------------

  datatype Candle = Candle(
    symbol: string, open: real, high: real, low: real, close: real, at: int,
    pendingTimeframe: Option<string>, lotTimeframe: Option<string>, executionTimeframe: Option<string>,
    allowed: Signal -> bool, now: int)

  function CeilTo(x: int, step: int): int { if step <= 0 then x else -((-x) / step) * step }

  predicate Executable(d: Desk, p: Pending, c: Candle) {
    && c.at > p.signal.at
    && (c.executionTimeframe.Some? ==> c.at >= CeilTo(p.created, d.barSeconds(c.executionTimeframe.value)))
  }

  /** The loop over the pending entries, oldest first: those of the symbol are dropped, deferred or filled at
      the open, the others pass through. It stops where a fill raises. */
  function FillPendings(d: Desk, o: Out, c: Candle, queue: seq<Pending>, n: nat): (r: Out)
    requires n <= |queue| && SoundInventories(o.book.inventories)
    ensures SoundInventories(r.book.inventories)
  {
    if n == 0 then o
    else
      var before := FillPendings(d, o, c, queue, n - 1);
      var p := queue[n - 1];
      if !before.ok then before
      else if p.signal.symbol != c.symbol then before.(book := before.book.(pending := before.book.pending + [p]))
      else if !c.allowed(p.signal) then before
      else if (c.pendingTimeframe.Some? && p.signal.timeframe != c.pendingTimeframe.value) || !Executable(d, p, c)
      then before.(book := before.book.(pending := before.book.pending + [p]))
      else FillEntry(d, before.book, p.signal, c.open, c.at)
  }

  function OtherSymbols(queue: seq<Pending>, symbol: string): seq<Pending> {
    if queue == [] then []
    else
      var n := |queue| - 1;
      OtherSymbols(queue[..n], symbol) + (if queue[n].signal.symbol != symbol then [queue[n]] else [])
  }

  /** The pending entries of a candle. The symbol's list is popped before the loop and written back after it,
      so a fill that raises leaves only the entries of other symbols. */
  function FillQueue(d: Desk, b: Book, c: Candle): (r: Out)
    requires SoundInventories(b.inventories)
    ensures SoundInventories(r.book.inventories)
  {
    var r := FillPendings(d, Out(b.(pending := []), true), c, b.pending, |b.pending|);
    if r.ok then r else Out(r.book.(pending := OtherSymbols(b.pending, c.symbol)), false)
  }

  /** How this candle closes a lot, if it does. */
  function ExitOf(lot: Lot, c: Candle, exited: bool): Option<(Status, real)> {
    if lot.entryAt >= c.at then None
    else if lot.stop.Some? && c.low <= lot.stop.value then Some((STOPPED, lot.stop.value))
    else if c.high >= lot.target && !exited then Some((TARGET_HIT, lot.target))
    else if lot.expires.Some? && c.at >= lot.expires.value then Some((EXPIRED, c.close))
    else None
  }

  datatype Scan = Scan(out: Out, exited: bool)

  function ExitScan(d: Desk, o: Out, c: Candle, lots: seq<Lot>, n: nat): (r: Scan)
    requires n <= |lots| && SoundInventories(o.book.inventories)
    ensures SoundInventories(r.out.book.inventories)
  {
    if n == 0 then Scan(o, false)
    else
      var before := ExitScan(d, o, c, lots, n - 1);
      var exit := ExitOf(lots[n - 1], c, before.exited);
      if !before.out.ok || exit.None? then before
      else
        Scan(CloseLot(d, before.out.book, lots[n - 1], exit.value.0, exit.value.1, c.at),
             before.exited || d.market.NSE?)
  }

  /** The unique indexes of the pending table: one row per signal, one per ladder lot. */
  predicate SameRow(a: Pending, p: Pending) {
    || (p.signal.id.Some? && a.signal.id == p.signal.id)
    || (p.ladderLot.Some? && a.ladderLot == p.ladderLot && a.signal.symbol == p.signal.symbol)
  }

  predicate PendingConflict(pending: seq<Pending>, p: Pending) {
    exists i :: 0 <= i < |pending| && SameRow(pending[i], p)
  }

  function Persist(b: Book, p: Pending): Book {
    if PendingConflict(b.pending, p) then b else b.(pending := b.pending + [p])
  }

  predicate HasPending(pending: seq<Pending>, symbol: string, strategy: string, timeframe: string) {
    exists i :: 0 <= i < |pending| && pending[i].signal.symbol == symbol
      && pending[i].signal.strategy == strategy && pending[i].signal.timeframe == timeframe
  }

  /** `_queue_ladder_entry`: queue the next ladder lot once the close has dipped far enough. */
  function QueueLadder(d: Desk, o: Out, c: Candle, strategy: string, timeframe: string): (r: Out)
    ensures r.book.inventories == o.book.inventories
  {
    var b := o.book;
    var open := LotsOfKey(b.open, c.symbol, strategy, timeframe);
    if !o.ok || open == [] || HasPending(b.pending, c.symbol, strategy, timeframe) then o
    else
      var cycleLots := CycleLots(b.lots, c.symbol, open[0].cycle);
      if cycleLots == [] then o
      else
        var first, latest := First(cycleLots), Latest(cycleLots);
        if !first.config.policy.allowAdditionalBuys || first.config.ladder.None?
           || latest.number >= first.config.Cap()
           || !first.config.ladder.value.AdditionalEntryAllowed(c.close, latest.entryPrice)
        then o
        else if first.config.targetPct.None? then o.(ok := false)
        else
          var sig := Signal(None, c.symbol, first.strategy, timeframe, c.at, c.close,
                            Some(d.rounding.four(Higher(c.close, first.config.targetPct.value))),
                            None, first.config);
          if !c.allowed(sig) then o
          else o.(book := Persist(b, Pending(sig, Some((open[0].cycle, latest.number + 1)), c.now)))
  }

  function QueueLadders(d: Desk, o: Out, c: Candle, lots: seq<Lot>, n: nat): (r: Out)
    requires n <= |lots|
    ensures r.book.inventories == o.book.inventories
  {
    if n == 0 then o
    else QueueLadder(d, QueueLadders(d, o, c, lots, n - 1), c, lots[n - 1].strategy, lots[n - 1].timeframe)
  }

  /** `_process_market_candle`: fills, exits, re-marks, ladder entries. */
  function OnCandle(d: Desk, b: Book, c: Candle): (r: Out)
    requires SoundInventories(b.inventories)
    ensures SoundInventories(r.book.inventories)
  {
    var filled := FillQueue(d, b, c);
    if !filled.ok then filled
    else
      var lots := LotsFor(filled.book.open, c.symbol, c.lotTimeframe);
      var exits := ExitScan(d, filled, c, lots, |lots|);
      if !exits.out.ok then exits.out
      else
        var remaining := LotsFor(exits.out.book.open, c.symbol, c.lotTimeframe);
        var marked := MarkLots(d, exits.out, remaining, c.close, |remaining|);
        QueueLadders(d, marked, c, remaining, |remaining|)
  }

  /** `on_signal`, with the policy resolved for it already in its snapshot. */
  function OnSignal(d: Desk, b: Book, sig: Signal, now: int): (r: Out)
    requires SoundInventories(b.inventories)
    ensures SoundInventories(r.book.inventories)
  {
    var open := LotsOfKey(b.open, sig.symbol, sig.strategy, sig.timeframe);
    if open != [] && open[0].config.ladder.Some? then Out(b, true)
    else if sig.config.policy.nextOpen then Out(Persist(b, Pending(sig, None, now)), true)
    else FillEntry(d, b, sig, sig.price, sig.at)
  }

  /** `close_lot_manually` for the k-th open lot. */
  function OnManualClose(d: Desk, b: Book, k: nat, at: int): (r: Out)
    requires SoundInventories(b.inventories) && k < |b.open|
    ensures SoundInventories(r.book.inventories)
  {
    var lot := b.open[k];
    if lot.lastPrice <= 0.0 then Out(b, false)
    else
      var closed := CloseLot(d, b, lot, CLOSED, lot.lastPrice, at);
      if !closed.ok then closed
      else
        var lots := LotsFor(closed.book.open, lot.symbol, None);
        MarkLots(d, closed, lots, lot.lastPrice, |lots|)
  }

  // ---- recovery -------------------------------------------------------------------------------------

  function LedgerTrade(t: Trade): Movement {
    if t.buy then Buy(Slice(LotNames.Decimal(t.lot), t.at, t.price, t.quantity, t.fees)) else Sell(t.quantity)
  }

  /** The FIFO history of one symbol in a trade log. */
  function History(log: seq<Trade>, symbol: string): seq<Movement> {
    if log == [] then []
    else
      var t := log[|log| - 1];
      History(log[..|log| - 1], symbol) + (if t.symbol == symbol then [LedgerTrade(t)] else [])
  }
}
