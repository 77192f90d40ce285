/** What the run invariant means for an account: its limits, stated outright, and when its cash holds. */
module BrokerSafety {
  import opened Common
  import opened Fifo
  import opened Fees
  import opened LotPolicy
  import opened Broker
  import opened BrokerCore
  import opened BrokerCycles
  import opened BrokerLedger
  import opened BrokerRisk
  import opened BrokerRuns
  import opened BrokerEvents

  /** Over every run: open positions within the cap, purchases of a market day within theirs while the
      log fits one read, and cash never below zero as long as the sales' turnover covered their fees. */
  lemma AccountStaysSafe(d: Desk, terms: Terms, balance: real, events: seq<Event>)
    requires DeskOk(d, terms) && balance >= 0.0 && AllAdmissible(d, terms, events)
    ensures var b := Run(d, Opening(balance), events);
            && |Positions(b.open)| <= terms.positions
            && (|b.trades| <= TRADE_READ_LIMIT ==> forall date :: BuysOn(b.trades, d.day, date) <= terms.daily)
            && (SalesPay(b.trades, terms.e4) ==> b.cash >= 0.0)
  {
    RunIsSane(d, terms, balance, events);
    hide Run, SalesPay, Shortfall, Tables, Sizes, Configs, Accounted;
    NoShortfall(Run(d, Opening(balance), events).trades, terms.e4);
  }

  /** A sale under the NSE model pays for itself exactly when what it keeps of its value covers the fixed
      charge of the order. */
  lemma NseSalePays(rate: real, fixed: real, slippage: real, price: real, q: real)
    ensures Proceeds(Nse(rate, fixed, slippage), price, q) >= 0.0 <==> Keep(rate, slippage) * (price * q) >= fixed
  {
    NseProceeds(rate, fixed, slippage, price, q);
  }

  /** The broker does not ask whether it can afford to sell: closing an open lot always goes through, and
      overdraws the account exactly when its cash and the share of the sale's value that it keeps do not
      cover the fixed charge of the order. */
  lemma ClosingOverdrawsExactlyWhen(
    d: Desk, terms: Terms, b: Book, k: nat, status: Status, raw: real, at: int, rate: real, fixed: real, slippage: real)
    requires DeskOk(d, terms) && Sane(d, terms, b) && k < |b.open| && status != OPEN
    requires d.fees == Nse(rate, fixed, slippage)
    ensures var r := CloseLot(d, b, b.open[k], status, raw, at);
            r.ok && (r.book.cash < 0.0 <==> b.cash + Keep(rate, slippage) * (raw * b.open[k].quantity) < fixed)
  {
    hide Paired, Covers, Accounted, Limited, Configs, Sizes, CloseLot, Sale, RealizedPnl, Worth, Remove, Keep, Nse;
    var lot := b.open[k];
    assert SameLot(b.lots[lot.id], lot);
    CloseBook(d, terms, b, lot, k, status, raw, at);
    NseProceeds(rate, fixed, slippage, raw, lot.quantity);
  }

  /** Under the default NSE costs, stored to four decimals, every reference price of a tenth of a paisa or
      more fills at a positive stored price with no negative stored fee. */
  lemma NsePricesAreClean(d: Desk, reference: real, e2: real)
    requires d.fees == NSE_DEFAULT && d.rounding.Within(e2, 0.00005) && reference >= 0.001
    ensures Clean(d, reference)
  {
    forall q | q > 0.0
      ensures d.rounding.four(d.fees.buy(reference, q).price) > 0.0
      ensures d.rounding.four(d.fees.buy(reference, q).fees) >= 0.0
    {
      var executed := reference * (1.0 + 0.0005);
      assert d.fees.buy(reference, q) == LinearFill(reference, q, executed, 0.00111, 20.0);
      assert executed * q > 0.0;
      var fees := executed * q * 0.00111 + 20.0;
      assert fees >= 20.0;
      assert Abs(d.rounding.four(executed) - executed) <= 0.00005 && Abs(d.rounding.four(fees) - fees) <= 0.00005;
    }
  }

  // ---- the starting balance is never touched -------------------------------------------------------

  lemma {:induction false} MarkingKeepsStart(d: Desk, o: Out, lots: seq<Lot>, close: real, n: nat)
    requires n <= |lots| && SoundInventories(o.book.inventories)
    ensures MarkLots(d, o, lots, close, n).book.starting == o.book.starting
  {
    hide Remark, Replace;
    if n > 0 { MarkingKeepsStart(d, o, lots, close, n - 1); }
  }

  lemma FillKeepsStart(d: Desk, b: Book, sig: Signal, reference: real, at: int)
    requires SoundInventories(b.inventories)
    ensures FillEntry(d, b, sig, reference, at).book.starting == b.starting
  {
    hide Judge, MarkLots, NewLot, LotsFor;
    var v := Judge(d, b, sig, reference, at);
    if v.Accept? && Enter(d, b, sig, at, v).ok {
      var entered := Enter(d, b, sig, at, v);
      var lots := LotsFor(entered.book.open, sig.symbol, None);
      MarkingKeepsStart(d, entered, lots, d.rounding.four(v.fill.price), |lots|);
    }
  }

  lemma {:induction false} FillsKeepStart(d: Desk, o: Out, c: Candle, queue: seq<Pending>, n: nat)
    requires n <= |queue| && SoundInventories(o.book.inventories)
    ensures FillPendings(d, o, c, queue, n).book.starting == o.book.starting
  {
    hide FillEntry, Executable;
    if n > 0 {
      FillsKeepStart(d, o, c, queue, n - 1);
      FillKeepsStart(d, FillPendings(d, o, c, queue, n - 1).book, queue[n - 1].signal, c.open, c.at);
    }
  }

  lemma CloseKeepsStart(d: Desk, b: Book, lot: Lot, status: Status, raw: real, at: int)
    requires SoundInventories(b.inventories)
    ensures CloseLot(d, b, lot, status, raw, at).book.starting == b.starting
  {
    hide Basis, RealizedPnl, Remove, ExitProceeds;
  }

  lemma {:induction false} ExitsKeepStart(d: Desk, o: Out, c: Candle, lots: seq<Lot>, n: nat)
    requires n <= |lots| && SoundInventories(o.book.inventories)
    ensures ExitScan(d, o, c, lots, n).out.book.starting == o.book.starting
  {
    hide CloseLot, ExitOf;
    if n > 0 {
      ExitsKeepStart(d, o, c, lots, n - 1);
      var before := ExitScan(d, o, c, lots, n - 1);
      var exit := ExitOf(lots[n - 1], c, before.exited);
      if exit.Some? { CloseKeepsStart(d, before.out.book, lots[n - 1], exit.value.0, exit.value.1, c.at); }
    }
  }

  lemma {:induction false} LaddersKeepStart(d: Desk, o: Out, c: Candle, lots: seq<Lot>, n: nat)
    requires n <= |lots|
    ensures QueueLadders(d, o, c, lots, n).book.starting == o.book.starting
  {
    hide LotsOfKey, CycleLots, First, Latest, PendingConflict, HasPending;
    if n > 0 { LaddersKeepStart(d, o, c, lots, n - 1); }
  }

  lemma CandleKeepsStart(d: Desk, b: Book, c: Candle)
    requires SoundInventories(b.inventories)
    ensures OnCandle(d, b, c).book.starting == b.starting
  {
    hide FillPendings, ExitScan, MarkLots, QueueLadders, LotsFor, OtherSymbols;
    FillsKeepStart(d, Out(b.(pending := []), true), c, b.pending, |b.pending|);
    var filled := FillQueue(d, b, c);
    var lots := LotsFor(filled.book.open, c.symbol, c.lotTimeframe);
    ExitsKeepStart(d, filled, c, lots, |lots|);
    var exits := ExitScan(d, filled, c, lots, |lots|).out;
    var remaining := LotsFor(exits.book.open, c.symbol, c.lotTimeframe);
    MarkingKeepsStart(d, exits, remaining, c.close, |remaining|);
    LaddersKeepStart(d, MarkLots(d, exits, remaining, c.close, |remaining|), c, remaining, |remaining|);
  }

  lemma StepKeepsStart(d: Desk, b: Book, e: Event)
    requires SoundInventories(b.inventories)
    ensures Step(d, b, e).starting == b.starting
  {
    hide OnCandle, FillEntry, CloseLot, MarkLots, LotsFor, LotsOfKey, PendingConflict;
    match e
    case SignalEvent(sig, now) => FillKeepsStart(d, b, sig, sig.price, sig.at);
    case CandleEvent(c) => CandleKeepsStart(d, b, c);
    case ManualCloseEvent(k, at) =>
      if k < |b.open| {
        var lot := b.open[k];
        CloseKeepsStart(d, b, lot, CLOSED, lot.lastPrice, at);
        var closed := CloseLot(d, b, lot, CLOSED, lot.lastPrice, at);
        var lots := LotsFor(closed.book.open, lot.symbol, None);
        MarkingKeepsStart(d, closed, lots, lot.lastPrice, |lots|);
      }
  }

  lemma {:induction false} RunKeepsStart(d: Desk, balance: real, events: seq<Event>)
    ensures Run(d, Opening(balance), events).starting == balance
  {
    hide Step;
    if events != [] {
      var n := |events| - 1;
      RunKeepsStart(d, balance, events[..n]);
      var before := Run(d, Opening(balance), events[..n]);
      if SoundInventories(before.inventories) { StepKeepsStart(d, before, events[n]); }
    }
  }

  // ---- headlines -----------------------------------------------------------------------------------

  /** Over every NSE run, cash plus the cost and unallocated entry fees of all inventories is the opening
      balance plus all realized results: exactly in exact arithmetic, and otherwise within the rounding
      of each recorded trade. */
  lemma LedgerBalances(d: Desk, terms: Terms, balance: real, events: seq<Event>)
    requires d.market.NSE? && DeskOk(d, terms) && balance >= 0.0 && AllAdmissible(d, terms, events)
    ensures var b := Run(d, Opening(balance), events);
            && Abs(b.cash + TotalHeld(b.inventories) - balance - TotalRealized(b.lots))
               <= Drift(b.trades, terms.e2, terms.e4)
            && (terms.e2 == 0.0 && terms.e4 == 0.0 ==>
               b.cash + TotalHeld(b.inventories) == balance + TotalRealized(b.lots))
  {
    hide Run, TotalHeld, TotalRealized, Drift, Sane, DeskOk, AllAdmissible, Opening;
    RunIsSane(d, terms, balance, events);
    RunKeepsStart(d, balance, events);
    SaneBalances(d, terms, Run(d, Opening(balance), events));
  }

  lemma SaneBalances(d: Desk, terms: Terms, b: Book)
    requires d.market.NSE? && Sane(d, terms, b)
    ensures Abs(b.cash + TotalHeld(b.inventories) - b.starting - TotalRealized(b.lots))
              <= Drift(b.trades, terms.e2, terms.e4)
    ensures terms.e2 == 0.0 && terms.e4 == 0.0 ==>
              b.cash + TotalHeld(b.inventories) == b.starting + TotalRealized(b.lots)
  {
    hide Tables, Sizes, Configs, Limited, AllStocked, ValidTrades, TotalHeld, TotalRealized, Drift;
    ExactDrift(b.trades);
  }

  lemma {:induction false} ExactDrift(trades: seq<Trade>)
    ensures Drift(trades, 0.0, 0.0) == 0.0
  {
    if trades != [] { ExactDrift(trades[..|trades| - 1]); }
  }

  /** Over every NSE run, each symbol's queue is sound, holds exactly the units of its open lots, and every
      open lot can be sold. */
  lemma InventoryMatchesLots(d: Desk, terms: Terms, balance: real, events: seq<Event>, symbol: string)
    requires d.market.NSE? && DeskOk(d, terms) && balance >= 0.0 && AllAdmissible(d, terms, events)
    ensures var b := Run(d, Opening(balance), events);
            var queue := QueueOf(b.inventories, symbol);
            && Sound(queue) && Quantity(queue) == OpenQuantity(b.open, symbol)
            && (forall k :: 0 <= k < |b.open| && b.open[k].symbol == symbol ==> Sale(queue, b.open[k].quantity).Ok?)
  {
    RunIsSane(d, terms, balance, events);
    hide Run, Tables, Sizes, Configs, Limited, ValidTrades, Sale, Quantity, OpenQuantity, QueueAfter;
    var b := Run(d, Opening(balance), events);
    assert StockedIn(b, symbol);
    forall k | 0 <= k < |b.open| && b.open[k].symbol == symbol
      ensures Sale(QueueOf(b.inventories, symbol), b.open[k].quantity).Ok?
    {
      CloseCovered(b, k);
    }
  }

  /** Over every run: a cycle belongs to one strategy and timeframe, open lots of one key share one cycle,
      and the lots of a cycle, over all time, are numbered 1 to n, each within the cap it was opened under. */
  lemma CyclesAreDisciplined(d: Desk, terms: Terms, balance: real, events: seq<Event>)
    requires DeskOk(d, terms) && balance >= 0.0 && AllAdmissible(d, terms, events)
    ensures var lots := Run(d, Opening(balance), events).lots;
            && OneOwner(lots) && OneCycle(lots) && Capped(lots)
            && (forall symbol: string, cycle: nat, k :: 0 <= k < |CycleLots(lots, symbol, cycle)| ==>
                  CycleLots(lots, symbol, cycle)[k].number == k + 1)
  {
    RunIsSane(d, terms, balance, events);
    hide Run, Sizes, Configs, Limited, Accounted, Mirrors, Paired, Covers, OncePerSignal, OneOwner, OneCycle, Capped,
         CycleLots;
    var lots := Run(d, Opening(balance), events).lots;
    forall symbol: string, cycle: nat, k | 0 <= k < |CycleLots(lots, symbol, cycle)|
      ensures CycleLots(lots, symbol, cycle)[k].number == k + 1
    {
      CycleNumbers(lots, symbol, cycle);
    }
  }

  /** Over every run, the cached open lots are exactly the rows stored as OPEN, each equal to its row up to
      the entry fees that marking stores in the table only. */
  lemma CacheMirrorsTable(d: Desk, terms: Terms, balance: real, events: seq<Event>, id: nat)
    requires DeskOk(d, terms) && balance >= 0.0 && AllAdmissible(d, terms, events)
    ensures var b := Run(d, Opening(balance), events);
            && ((id < |b.lots| && b.lots[id].status == OPEN) <==> id in Ids(b.open))
            && (forall k :: 0 <= k < |b.open| && b.open[k].id == id ==> id < |b.lots| && SameLot(b.lots[id], b.open[k]))
  {
    RunIsSane(d, terms, balance, events);
    hide Run, Sizes, Configs, Limited, Accounted, Paired, Covers, Cycles, OncePerSignal;
    var b := Run(d, Opening(balance), events);
    if id in Ids(b.open) {
      var k := IndexOf(b.open, id);
      assert SameLot(b.lots[id], b.open[k]);
    }
  }
}
