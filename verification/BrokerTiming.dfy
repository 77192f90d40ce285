/** Recovery over whole runs. A restart at any moment rebuilds the live inventories exactly when the log can be
    read in order of time and the holdings are in order. The first is so as long as no lot is closed by hand
    before its entry; the second, when every signal and candle comes no earlier than the purchases already
    stored for its symbol. */
module BrokerTiming {
  import opened Common
  import opened Fifo
  import opened Fees
  import opened LotPolicy
  import opened Broker
  import opened BrokerCore
  import opened BrokerRuns
  import opened BrokerEvents
  import opened BrokerRecovery
  import opened ExactRecovery

  /** No sale is stamped before its purchase, and each purchase carries its lot's entry time; strictly, the
      purchases of a symbol are in order too. */
  ghost predicate Timed(b: Book, strict: bool) {
    && SalesFollow(b.trades) && (strict ==> BuysInOrder(b.trades))
    && (forall j :: 0 <= j < |b.trades| ==> b.trades[j].lot < |b.lots|)
    && (forall j :: 0 <= j < |b.trades| && b.trades[j].buy && b.trades[j].lot < |b.lots| ==>
          b.trades[j].at == b.lots[b.trades[j].lot].entryAt)
  }

  /** Strictly, no purchase of the symbol is stored with a later time. */
  ghost predicate NotBefore(trades: seq<Trade>, symbol: string, at: int, strict: bool) {
    strict ==> forall j :: 0 <= j < |trades| && trades[j].buy && trades[j].symbol == symbol ==> trades[j].at <= at
  }

  /** The log is the same and so are the entry times. */
  ghost predicate SameTimes(b: Book, after: Book) {
    && after.trades == b.trades && |after.lots| == |b.lots|
    && (forall i :: 0 <= i < |b.lots| ==> after.lots[i].entryAt == b.lots[i].entryAt)
  }

  lemma EnterTimed(d: Desk, b: Book, after: Book, lot: Lot, cost: real, strict: bool)
    requires Timed(b, strict) && Entered(d, b, after, lot, cost) && lot.id == |b.lots|
    requires NotBefore(b.trades, lot.symbol, lot.entryAt, strict)
    ensures Timed(after, strict) && NotBefore(after.trades, lot.symbol, lot.entryAt, strict)
  {
    var t := PurchaseOf(lot);
    var log := b.trades + [t];
    assert forall j :: 0 <= j < |b.trades| ==> log[j] == b.trades[j];
    assert log[|b.trades|] == t;
  }

  lemma CloseTimed(d: Desk, b: Book, after: Book, k: nat, row: Lot, t: Trade, fill: Fill, strict: bool)
    requires Timed(b, strict) && SoldFrom(d, b, after, k, row, t, fill) && t.at >= row.entryAt
    requires Paired(after.trades)
    ensures Timed(after, strict)
    ensures forall symbol, at :: NotBefore(b.trades, symbol, at, strict) ==> NotBefore(after.trades, symbol, at, strict)
  {
    hide Sale, RealizedPnl, ExitProceeds, Sound, Remove, Paid;
    var log := after.trades;
    var n := |b.trades|;
    assert forall j :: 0 <= j < n ==> log[j] == b.trades[j];
    assert log[n] == t;
    forall i, j | 0 <= i < j < |log| && log[i].lot == log[j].lot ensures log[i].at <= log[j].at {
      if j == n { assert log[i].buy && b.trades[i].at == b.lots[row.id].entryAt; }
    }
  }

  lemma {:induction false} MarkLotsSame(d: Desk, o: Out, lots: seq<Lot>, close: real, n: nat)
    requires n <= |lots| && SoundInventories(o.book.inventories)
    ensures SameTimes(o.book, MarkLots(d, o, lots, close, n).book)
  {
    hide Remark, Replace, Sound;
    if n > 0 { MarkLotsSame(d, o, lots, close, n - 1); }
  }

  lemma SameTimed(b: Book, after: Book, strict: bool)
    requires Timed(b, strict) && SameTimes(b, after)
    ensures Timed(after, strict)
  {}

  lemma FillEntryTimed(d: Desk, terms: Terms, b: Book, sig: Signal, reference: real, at: int, strict: bool)
    requires DeskOk(d, terms) && Clean(d, reference) && Sane(d, terms, b) && Allowed(d, terms, sig.config)
    requires Timed(b, strict) && NotBefore(b.trades, sig.symbol, at, strict)
    ensures var r := FillEntry(d, b, sig, reference, at).book;
            Timed(r, strict) && NotBefore(r.trades, sig.symbol, at, strict)
  {
    hide Judge, Tables, Accounted, Limited, Configs, Sizes, MarkLots, NewLot, Timed, NotBefore, Clean, Entered;
    var v := Judge(d, b, sig, reference, at);
    if v.Accept? {
      EntryFacts(d, b, sig, reference, at);
      var lot := NewLot(d, b, sig, at, v);
      var entered := Enter(d, b, sig, at, v);
      if TargetPctRaises(sig) {
        SameTimed(b, entered.book, strict);
      } else {
        EnterBook(d, b, sig, reference, at, v);
        EnterTimed(d, b, entered.book, lot, v.cost, strict);
        EnterKeeps(d, terms, b, sig, reference, at);
        var lots := LotsFor(entered.book.open, sig.symbol, None);
        MarkLotsSame(d, entered, lots, d.rounding.four(v.fill.price), |lots|);
        SameTimed(entered.book, FillEntry(d, b, sig, reference, at).book, strict);
      }
    } else {
      SameTimed(b, FillEntry(d, b, sig, reference, at).book, strict);
    }
  }

  lemma {:induction false} FillPendingsTimed(
    d: Desk, terms: Terms, o: Out, c: Candle, queue: seq<Pending>, n: nat, strict: bool)
    requires DeskOk(d, terms) && Clean(d, c.open) && Sane(d, terms, o.book) && n <= |queue|
    requires AllAllowed(d, terms, queue)
    requires Timed(o.book, strict) && NotBefore(o.book.trades, c.symbol, c.at, strict)
    ensures var r := FillPendings(d, o, c, queue, n).book;
            Timed(r, strict) && NotBefore(r.trades, c.symbol, c.at, strict)
  {
    hide Tables, Accounted, Limited, Sizes, Configs, FillEntry, Executable, Allowed, Clean, Timed, NotBefore;
    if n > 0 {
      FillPendingsTimed(d, terms, o, c, queue, n - 1, strict);
      FillPendingsKeeps(d, terms, o, c, queue, n - 1);
      var before := FillPendings(d, o, c, queue, n - 1);
      var p := queue[n - 1];
      SameTimed(before.book, before.book.(pending := before.book.pending + [p]), strict);
      if p.signal.symbol == c.symbol { FillEntryTimed(d, terms, before.book, p.signal, c.open, c.at, strict); }
    }
  }

  lemma FillQueueTimed(d: Desk, terms: Terms, b: Book, c: Candle, strict: bool)
    requires DeskOk(d, terms) && Clean(d, c.open) && Sane(d, terms, b)
    requires Timed(b, strict) && NotBefore(b.trades, c.symbol, c.at, strict)
    ensures Timed(FillQueue(d, b, c).book, strict)
  {
    hide Tables, Accounted, Limited, Sizes, FillPendings, Clean, Timed, NotBefore, OtherSymbols, Allowed;
    var start := Out(b.(pending := []), true);
    PendingKeeps(d, terms, b, []);
    SameTimed(b, start.book, strict);
    FillPendingsTimed(d, terms, start, c, b.pending, |b.pending|, strict);
    SameTimed(FillPendings(d, start, c, b.pending, |b.pending|).book, FillQueue(d, b, c).book, strict);
  }

  lemma CloseLotTimed(d: Desk, terms: Terms, b: Book, lot: Lot, status: Status, raw: real, at: int, strict: bool)
    requires DeskOk(d, terms) && Sane(d, terms, b) && status != OPEN
    requires lot.id in Ids(b.open) && lot.id < |b.lots| && SameTerms(b.lots[lot.id], lot)
    requires Timed(b, strict) && lot.entryAt <= at
    ensures Timed(CloseLot(d, b, lot, status, raw, at).book, strict)
  {
    hide Paired, Covers, Accounted, Limited, Configs, Sizes, CloseLot, Timed, Sale, RealizedPnl, ExitProceeds, Remove;
    var k := IndexOf(b.open, lot.id);
    CloseBook(d, terms, b, lot, k, status, raw, at);
    var after := CloseLot(d, b, lot, status, raw, at).book;
    var t := after.trades[|after.trades| - 1];
    CloseKeeps(d, terms, b, after, k, after.lots[lot.id], t, d.fees.sell(raw, lot.quantity));
    CloseTimed(d, b, after, k, after.lots[lot.id], t, d.fees.sell(raw, lot.quantity), strict);
  }

  lemma {:induction false} ExitScanTimed(d: Desk, terms: Terms, o: Out, c: Candle, lots: seq<Lot>, n: nat, strict: bool)
    requires DeskOk(d, terms) && Sane(d, terms, o.book) && o.ok && n <= |lots| && Current(o.book, lots)
    requires Timed(o.book, strict)
    ensures Timed(ExitScan(d, o, c, lots, n).out.book, strict)
  {
    hide Tables, Accounted, Limited, Configs, Sizes, CloseLot, Timed;
    if n > 0 {
      ExitScanTimed(d, terms, o, c, lots, n - 1, strict);
      ExitScanKeeps(d, terms, o, c, lots, n - 1);
      var before := ExitScan(d, o, c, lots, n - 1);
      var exit := ExitOf(lots[n - 1], c, before.exited);
      if exit.Some? { CloseLotTimed(d, terms, before.out.book, lots[n - 1], exit.value.0, exit.value.1, c.at, strict); }
    }
  }

  lemma {:induction false} QueueLaddersSame(d: Desk, o: Out, c: Candle, lots: seq<Lot>, n: nat)
    requires n <= |lots|
    ensures SameTimes(o.book, QueueLadders(d, o, c, lots, n).book)
  {
    hide LotsOfKey, CycleLots, First, Latest, HasPending, PendingConflict;
    if n > 0 { QueueLaddersSame(d, o, c, lots, n - 1); }
  }

  lemma OnCandleTimed(d: Desk, terms: Terms, b: Book, c: Candle, strict: bool)
    requires DeskOk(d, terms) && Clean(d, c.open) && Sane(d, terms, b)
    requires Timed(b, strict) && NotBefore(b.trades, c.symbol, c.at, strict)
    ensures Timed(OnCandle(d, b, c).book, strict)
  {
    hide Paired, Covers, Accounted, Limited, Sizes, FillQueue, ExitScan, MarkLots, QueueLadders, LotsFor, Clean,
         Timed, NotBefore, SameTimes, Current;
    FillQueueKeeps(d, terms, b, c);
    FillQueueTimed(d, terms, b, c, strict);
    var filled := FillQueue(d, b, c);
    if filled.ok {
      var lots := LotsFor(filled.book.open, c.symbol, c.lotTimeframe);
      LotsForCurrent(filled.book, c.symbol, c.lotTimeframe);
      ExitScanKeeps(d, terms, filled, c, lots, |lots|);
      ExitScanTimed(d, terms, filled, c, lots, |lots|, strict);
      var exits := ExitScan(d, filled, c, lots, |lots|).out;
      var remaining := LotsFor(exits.book.open, c.symbol, c.lotTimeframe);
      MarkLotsSame(d, exits, remaining, c.close, |remaining|);
      var marked := MarkLots(d, exits, remaining, c.close, |remaining|);
      SameTimed(exits.book, marked.book, strict);
      QueueLaddersSame(d, marked, c, remaining, |remaining|);
      SameTimed(marked.book, QueueLadders(d, marked, c, remaining, |remaining|).book, strict);
    }
  }

  // ---- whole runs ---------------------------------------------------------------------------------------

  /** No lot is closed by hand before its entry; strictly, no event comes before a purchase of its symbol. */
  ghost predicate Punctual(b: Book, e: Event, strict: bool) {
    match e
    case SignalEvent(sig, _) => sig.config.policy.nextOpen || NotBefore(b.trades, sig.symbol, sig.at, strict)
    case CandleEvent(c) => NotBefore(b.trades, c.symbol, c.at, strict)
    case ManualCloseEvent(k, at) => k < |b.open| ==> b.open[k].entryAt <= at
  }

  lemma StepTimed(d: Desk, terms: Terms, b: Book, e: Event, strict: bool)
    requires DeskOk(d, terms) && Sane(d, terms, b) && Admissible(d, terms, e) && Timed(b, strict)
    requires Punctual(b, e, strict)
    ensures Timed(Step(d, b, e), strict)
  {
    hide Paired, Covers, Accounted, Limited, Configs, Sizes, OnCandle, FillEntry, CloseLot, MarkLots, LotsFor, Timed,
         NotBefore;
    match e
    case SignalEvent(sig, now) =>
      if sig.config.policy.nextOpen {
        SameTimed(b, OnSignal(d, b, sig, now).book, strict);
      } else {
        FillEntryTimed(d, terms, b, sig, sig.price, sig.at, strict);
      }
    case CandleEvent(c) => OnCandleTimed(d, terms, b, c, strict);
    case ManualCloseEvent(k, at) =>
      if k < |b.open| && b.open[k].lastPrice > 0.0 {
        var lot := b.open[k];
        assert SameLot(b.lots[lot.id], lot) && lot.id in Ids(b.open);
        CloseLotTimed(d, terms, b, lot, CLOSED, lot.lastPrice, at, strict);
        var closed := CloseLot(d, b, lot, CLOSED, lot.lastPrice, at);
        var lots := LotsFor(closed.book.open, lot.symbol, None);
        MarkLotsSame(d, closed, lots, lot.lastPrice, |lots|);
        SameTimed(closed.book, MarkLots(d, closed, lots, lot.lastPrice, |lots|).book, strict);
      }
  }

  ghost predicate AllPunctual(d: Desk, balance: real, events: seq<Event>, strict: bool) {
    forall i :: 0 <= i < |events| ==> Punctual(Run(d, Opening(balance), events[..i]), events[i], strict)
  }

  lemma {:induction false} RunIsTimed(d: Desk, terms: Terms, balance: real, events: seq<Event>, strict: bool)
    requires DeskOk(d, terms) && balance >= 0.0 && AllAdmissible(d, terms, events)
    requires AllPunctual(d, balance, events, strict)
    ensures Timed(Run(d, Opening(balance), events), strict)
  {
    hide Tables, Accounted, Limited, Configs, Sizes, Step, Admissible, Punctual, DeskOk;
    if events == [] {
    } else {
      var n := |events| - 1;
      assert forall i :: 0 <= i < n ==> events[..n][..i] == events[..i];
      RunIsTimed(d, terms, balance, events[..n], strict);
      RunIsSane(d, terms, balance, events[..n]);
      StepTimed(d, terms, Run(d, Opening(balance), events[..n]), events[n], strict);
    }
  }

  /** Restart recovery over every punctual NSE run: loading the stored trade log never fails and
      rebuilds exactly the inventories the broker holds. */
  lemma RunRecovers(d: Desk, terms: Terms, balance: real, events: seq<Event>)
    requires d.market.NSE? && DeskOk(d, terms) && balance >= 0.0
    requires AllAdmissible(d, terms, events) && AllPunctual(d, balance, events, true)
    ensures var b := Run(d, Opening(balance), events);
            var loaded := Load(Chronological(b.trades));
            loaded.Ok? && forall symbol: string :: QueueOf(loaded.value, symbol) == QueueOf(b.inventories, symbol)
  {
    hide Sane, Run;
    RunIsSane(d, terms, balance, events);
    RunIsTimed(d, terms, balance, events, true);
    Recovery(d, terms, Run(d, Opening(balance), events));
  }

  /** Over every NSE run, whatever the times of its events: loading goes through if and only if, read in order of
      time, no symbol sells more than it has bought; and then it rebuilds a symbol's inventory if and only if every
      purchase of it still held is no earlier than the purchases stored before it. */
  lemma RunRecoversExactlyWhen(d: Desk, terms: Terms, balance: real, events: seq<Event>, symbol: string)
    requires d.market.NSE? && DeskOk(d, terms) && balance >= 0.0 && AllAdmissible(d, terms, events)
    ensures var b := Run(d, Opening(balance), events);
            var loaded := Load(Chronological(b.trades));
            var live := QueueOf(b.inventories, symbol);
            && (loaded.Ok? <==> Replayable(Chronological(b.trades)))
            && (loaded.Ok? ==> (QueueOf(loaded.value, symbol) == live <==> HoldingsInOrder(b.trades, live, symbol)))
  {
    hide Sane, Run, HoldingsInOrder, Replayable;
    RunIsSane(d, terms, balance, events);
    RecoveryExactlyWhen(d, terms, Run(d, Opening(balance), events), symbol);
  }

  /** Loading goes through after every run in which no lot is closed by hand before its entry. */
  lemma RunLoads(d: Desk, terms: Terms, balance: real, events: seq<Event>)
    requires d.market.NSE? && DeskOk(d, terms) && balance >= 0.0
    requires AllAdmissible(d, terms, events) && AllPunctual(d, balance, events, false)
    ensures Load(Chronological(Run(d, Opening(balance), events).trades)).Ok?
  {
    hide Run, Mirrors, Covers, Limited, Configs, Sizes, Paired, ValidTrades, SalesFollow, Load;
    RunIsSane(d, terms, balance, events);
    RunIsTimed(d, terms, balance, events, false);
    LoadSucceeds(Run(d, Opening(balance), events).trades);
  }
}
