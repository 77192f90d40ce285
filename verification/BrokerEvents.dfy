/** The invariant through the broker's operations and over every sequence of events. */
module BrokerEvents {
  import opened Common
  import opened Fifo
  import opened Fees
  import opened LotPolicy
  import opened Broker
  import opened BrokerCore
  import opened BrokerCycles
  import opened BrokerLedger
  import opened BrokerRisk
  import opened BrokerRuns

  // ---- marking ------------------------------------------------------------------------------------

  /** What marking may change in a book: marks of one row and its mirror. */
  ghost predicate MarkedFrom(b: Book, after: Book, row: Lot, mark: Lot) {
    && row.id < |b.lots| && mark.id == row.id && mark.id in Ids(b.open)
    && SameOrigin(row, b.lots[row.id]) && row.status == b.lots[row.id].status == OPEN
    && row.realized == b.lots[row.id].realized && SameTerms(b.lots[row.id], row)
    && SameLot(row, mark)
    && after == b.(lots := b.lots[row.id := row], open := Replace(b.open, mark))
  }

  lemma MarkKeeps(d: Desk, terms: Terms, b: Book, after: Book, row: Lot, mark: Lot)
    requires Sane(d, terms, b) && MarkedFrom(b, after, row, mark)
    ensures Sane(d, terms, after) && Ids(after.open) == Ids(b.open)
  {
    hide Paired, Covers, Cycles, OncePerSignal, Conserved, DailyWithin, Shortfall, Positions, Allowed, Replace,
         Stocked, Ids;
    MarkMirrors(b.lots, b.open, row, mark);
    MarkPairs(b.trades, b.lots, row.id, row);
    UpdateCycles(b.lots, row.id, row);
    MarkedOpen(b, row, mark);
    if d.market.NSE? {
      MarkConserves(b, after, row.id, row, terms.e2, terms.e4);
      forall symbol: string ensures Stocked(after.inventories, after.open, after.trades, symbol) {
        assert StockedIn(b, symbol);
        MarkStocked(b, after, row, mark, symbol);
      }
    }
    assert Configs(d, terms, after);
  }

  /** Position, size and key of every cached lot survive a mark. */
  lemma MarkedOpen(b: Book, row: Lot, mark: Lot)
    requires Mirrors(b.lots, b.open) && row.id < |b.lots| && mark.id == row.id && mark.id in Ids(b.open)
    requires SameOrigin(row, b.lots[row.id]) && SameLot(row, mark)
    ensures var after := Replace(b.open, mark);
            && |after| == |b.open| && |Positions(after)| <= |Positions(b.open)|
            && (forall i :: 0 <= i < |after| ==> after[i].quantity == b.open[i].quantity)
  {
    hide Positions;
    var k := IndexOf(b.open, mark.id);
    ReplaceIs(b.open, mark, k);
    assert SameLot(b.lots[row.id], b.open[k]);
    var after := b.open[k := mark];
    assert forall i :: 0 <= i < |after| ==> KeyOf(b.open[i]) == KeyOf(after[i]);
    PositionsWithin(after, b.open);
  }

  lemma MarkStocked(b: Book, after: Book, row: Lot, mark: Lot, symbol: string)
    requires Mirrors(b.lots, b.open) && MarkedFrom(b, after, row, mark) && StockedIn(b, symbol)
    ensures StockedIn(after, symbol)
  {
    hide QueueAfter, Quantity, OpenQuantity;
    var k := IndexOf(b.open, mark.id);
    ReplaceIs(b.open, mark, k);
    assert SameLot(b.lots[row.id], b.open[k]);
    OpenQuantityUpdate(b.open, k, mark, symbol);
  }

  lemma MarkOneKeeps(d: Desk, terms: Terms, o: Out, lot: Lot, close: real)
    requires Sane(d, terms, o.book)
    requires lot.id in Ids(o.book.open) && lot.id < |o.book.lots| && SameTerms(o.book.lots[lot.id], lot)
    ensures var r := MarkOne(d, o, lot, close).book;
            && Sane(d, terms, r) && Ids(r.open) == Ids(o.book.open) && r.pending == o.book.pending
            && |r.lots| == |o.book.lots|
            && (forall i :: 0 <= i < |r.lots| ==> SameTerms(r.lots[i], o.book.lots[i]))
  {
    hide Paired, Covers, Cycles, OncePerSignal, Accounted, Limited, Configs, Replace, Sale, Sizes;
    var b := o.book;
    if o.ok && Remark(d, QueueOf(b.inventories, lot.symbol), lot, close).Some? {
      var (mark, fees) := Remark(d, QueueOf(b.inventories, lot.symbol), lot, close).value;
      var was := b.lots[lot.id];
      var row := was.(costBasis := mark.costBasis, lastPrice := mark.lastPrice, target := mark.target,
                      unrealized := mark.unrealized, fees := fees);
      var k := IndexOf(b.open, lot.id);
      assert SameLot(b.lots[lot.id], b.open[k]);
      MarkKeeps(d, terms, b, MarkOne(d, o, lot, close).book, row, mark);
    }
  }

  lemma {:induction false} MarkLotsKeeps(d: Desk, terms: Terms, o: Out, lots: seq<Lot>, close: real, n: nat)
    requires Sane(d, terms, o.book) && n <= |lots| && Current(o.book, lots)
    ensures var r := MarkLots(d, o, lots, close, n).book;
            && Sane(d, terms, r) && Current(r, lots) && Ids(r.open) == Ids(o.book.open)
            && r.pending == o.book.pending
  {
    hide Tables, Accounted, Limited, Configs, Sizes, MarkOne;
    if n > 0 {
      MarkLotsKeeps(d, terms, o, lots, close, n - 1);
      var p := MarkLots(d, o, lots, close, n - 1);
      MarkOneKeeps(d, terms, p, lots[n - 1], close);
    }
  }

  // ---- entries --------------------------------------------------------------------------------------

  lemma FillEntryKeeps(d: Desk, terms: Terms, b: Book, sig: Signal, reference: real, at: int)
    requires DeskOk(d, terms) && Clean(d, reference) && Sane(d, terms, b) && Allowed(d, terms, sig.config)
    ensures Sane(d, terms, FillEntry(d, b, sig, reference, at).book)
    ensures FillEntry(d, b, sig, reference, at).book.pending == b.pending
  {
    hide Judge, Mirrors, Paired, Covers, Cycles, Accounted, Limited, Configs, Sizes, MarkLots, NewLot;
    var v := Judge(d, b, sig, reference, at);
    match v
    case Refuse(reason) => OrdersKeep(d, terms, b, b.orders + [Rejected(sig.id, reason)]);
    case Accept(_, _, _, fill, _) =>
      EnterKeeps(d, terms, b, sig, reference, at);
      var entered := Enter(d, b, sig, at, v);
      if entered.ok {
        LotsForCurrent(entered.book, sig.symbol, None);
        var lots := LotsFor(entered.book.open, sig.symbol, None);
        MarkLotsKeeps(d, terms, entered, lots, d.rounding.four(fill.price), |lots|);
      }
    case _ =>
  }

  ghost predicate AllAllowed(d: Desk, terms: Terms, queue: seq<Pending>) {
    forall i :: 0 <= i < |queue| ==> Allowed(d, terms, queue[i].signal.config)
  }

  lemma PendingKeeps(d: Desk, terms: Terms, b: Book, pending: seq<Pending>)
    requires Sane(d, terms, b) && AllAllowed(d, terms, pending)
    ensures Sane(d, terms, b.(pending := pending))
  {
    hide Mirrors, Paired, Covers, Cycles, OncePerSignal, AllStocked, Allowed, Conserved;
    StockedSame(b, b.(pending := pending));
    ConservedSame(b, b.(pending := pending), terms);
  }

  lemma {:induction false} FillPendingsKeeps(d: Desk, terms: Terms, o: Out, c: Candle, queue: seq<Pending>, n: nat)
    requires DeskOk(d, terms) && Clean(d, c.open) && Sane(d, terms, o.book) && n <= |queue|
    requires AllAllowed(d, terms, queue)
    ensures Sane(d, terms, FillPendings(d, o, c, queue, n).book)
  {
    hide Tables, Accounted, Limited, Sizes, FillEntry, Executable, Allowed, Clean;
    if n > 0 {
      FillPendingsKeeps(d, terms, o, c, queue, n - 1);
      var before := FillPendings(d, o, c, queue, n - 1);
      PendingKeeps(d, terms, before.book, before.book.pending + [queue[n - 1]]);
      FillEntryKeeps(d, terms, before.book, queue[n - 1].signal, c.open, c.at);
    }
  }

  lemma {:induction false} OthersAllowed(d: Desk, terms: Terms, queue: seq<Pending>, symbol: string)
    requires AllAllowed(d, terms, queue)
    ensures AllAllowed(d, terms, OtherSymbols(queue, symbol))
  {
    hide Allowed;
    if queue != [] { OthersAllowed(d, terms, queue[..|queue| - 1], symbol); }
  }

  lemma FillQueueKeeps(d: Desk, terms: Terms, b: Book, c: Candle)
    requires DeskOk(d, terms) && Clean(d, c.open) && Sane(d, terms, b)
    ensures Sane(d, terms, FillQueue(d, b, c).book)
  {
    hide Tables, Accounted, Limited, Sizes, FillPendings, Clean, Allowed;
    PendingKeeps(d, terms, b, []);
    var start := Out(b.(pending := []), true);
    FillPendingsKeeps(d, terms, start, c, b.pending, |b.pending|);
    OthersAllowed(d, terms, b.pending, c.symbol);
    PendingKeeps(d, terms, FillPendings(d, start, c, b.pending, |b.pending|).book, OtherSymbols(b.pending, c.symbol));
  }

  // ---- exits ------------------------------------------------------------------------------------------

  /** The lots from n on are still open with the terms they were read with. */
  ghost predicate CurrentFrom(b: Book, lots: seq<Lot>, n: nat) {
    && Ascending(lots)
    && (forall i :: n <= i < |lots| ==>
          lots[i].id in Ids(b.open) && lots[i].id < |b.lots| && SameTerms(b.lots[lots[i].id], lots[i]))
  }

  lemma CloseLeaves(d: Desk, b: Book, after: Book, k: nat, row: Lot, t: Trade, fill: Fill, lots: seq<Lot>, n: nat)
    requires Mirrors(b.lots, b.open) && CurrentFrom(b, lots, n) && n < |lots|
    requires SoldFrom(d, b, after, k, row, t, fill) && row.id == lots[n].id
    ensures CurrentFrom(after, lots, n + 1)
  {
    hide Sale, RealizedPnl, ExitProceeds, Sound;
    RemoveIs(b.open, row.id);
    forall i | n + 1 <= i < |lots|
      ensures lots[i].id in Ids(after.open) && lots[i].id < |after.lots| && SameTerms(after.lots[lots[i].id], lots[i])
    {
      assert lots[n].id < lots[i].id;
    }
  }

  /** Closing a lot that is still open goes through and keeps the invariant. */
  lemma CloseLotKeeps(d: Desk, terms: Terms, b: Book, lots: seq<Lot>, n: nat, status: Status, raw: real, at: int)
    requires DeskOk(d, terms) && Sane(d, terms, b) && n < |lots| && CurrentFrom(b, lots, n) && status != OPEN
    ensures var r := CloseLot(d, b, lots[n], status, raw, at);
            r.ok && Sane(d, terms, r.book) && CurrentFrom(r.book, lots, n + 1) && r.book.pending == b.pending
  {
    hide Paired, Covers, Cycles, Accounted, Limited, Configs, Sizes, CloseLot, Sale, RealizedPnl, ExitProceeds, Remove;
    var lot := lots[n];
    var k := IndexOf(b.open, lot.id);
    CloseBook(d, terms, b, lot, k, status, raw, at);
    var after := CloseLot(d, b, lot, status, raw, at).book;
    var t := after.trades[|after.trades| - 1];
    var fill := d.fees.sell(raw, lot.quantity);
    CloseKeeps(d, terms, b, after, k, after.lots[lot.id], t, fill);
    CloseLeaves(d, b, after, k, after.lots[lot.id], t, fill, lots, n);
  }

  /** Every close of a candle goes through, and keeps the invariant. */
  lemma {:induction false} ExitScanKeeps(d: Desk, terms: Terms, o: Out, c: Candle, lots: seq<Lot>, n: nat)
    requires DeskOk(d, terms) && Sane(d, terms, o.book) && o.ok && n <= |lots| && Current(o.book, lots)
    ensures var r := ExitScan(d, o, c, lots, n).out;
            r.ok && Sane(d, terms, r.book) && CurrentFrom(r.book, lots, n) && r.book.pending == o.book.pending
  {
    hide Tables, Accounted, Limited, Configs, Sizes, CloseLot;
    if n > 0 {
      ExitScanKeeps(d, terms, o, c, lots, n - 1);
      var before := ExitScan(d, o, c, lots, n - 1);
      var exit := ExitOf(lots[n - 1], c, before.exited);
      if exit.Some? { CloseLotKeeps(d, terms, before.out.book, lots, n - 1, exit.value.0, exit.value.1, c.at); }
    }
  }

  // ---- ladder entries -----------------------------------------------------------------------------------

  lemma FirstIsARow(lots: seq<Lot>, symbol: string, cycle: nat)
    requires CycleLots(lots, symbol, cycle) != []
    ensures First(CycleLots(lots, symbol, cycle)) in lots
  {
    FirstIn(CycleLots(lots, symbol, cycle));
    CycleLotsIn(lots, symbol, cycle);
  }

  lemma {:induction false} FirstIn(lots: seq<Lot>)
    requires lots != []
    ensures First(lots) in lots
  {
    if |lots| > 1 { FirstIn(lots[..|lots| - 1]); }
  }

  lemma {:induction false} CycleLotsIn(lots: seq<Lot>, symbol: string, cycle: nat)
    ensures forall x :: x in CycleLots(lots, symbol, cycle) ==> x in lots
  {
    if lots != [] {
      CycleLotsIn(lots[..|lots| - 1], symbol, cycle);
      forall x | x in CycleLots(lots[..|lots| - 1], symbol, cycle) ensures x in lots {
        assert x in lots[..|lots| - 1];
      }
    }
  }

  lemma QueueLadderKeeps(d: Desk, terms: Terms, o: Out, c: Candle, strategy: string, timeframe: string)
    requires Sane(d, terms, o.book)
    ensures Sane(d, terms, QueueLadder(d, o, c, strategy, timeframe).book)
  {
    hide Tables, Accounted, Limited, Sizes, Latest, LotsOfKey, PendingConflict, HasPending, Allowed, First;
    var b := o.book;
    var open := LotsOfKey(b.open, c.symbol, strategy, timeframe);
    if open != [] && CycleLots(b.lots, c.symbol, open[0].cycle) != [] {
      FirstIsARow(b.lots, c.symbol, open[0].cycle);
      var first := First(CycleLots(b.lots, c.symbol, open[0].cycle));
      assert Allowed(d, terms, first.config);
      var r := QueueLadder(d, o, c, strategy, timeframe).book;
      if r != b { PendingKeeps(d, terms, b, r.pending); }
    }
  }

  lemma {:induction false} CycleLotsOf(lots: seq<Lot>, symbol: string, cycle: nat)
    ensures forall x :: x in CycleLots(lots, symbol, cycle) ==> x.symbol == symbol && x.cycle == cycle
  {
    if lots != [] { CycleLotsOf(lots[..|lots| - 1], symbol, cycle); }
  }

  /** The first lot of the cycle a key holds is of that key's strategy. */
  lemma FirstOfKey(b: Book, symbol: string, strategy: string, timeframe: string)
    requires Mirrors(b.lots, b.open) && OneOwner(b.lots)
    requires LotsOfKey(b.open, symbol, strategy, timeframe) != []
    requires CycleLots(b.lots, symbol, LotsOfKey(b.open, symbol, strategy, timeframe)[0].cycle) != []
    ensures var cycle := LotsOfKey(b.open, symbol, strategy, timeframe)[0].cycle;
            First(CycleLots(b.lots, symbol, cycle)).strategy == strategy
  {
    LotsOfKeyAre(b.open, symbol, strategy, timeframe);
    hide LotsOfKey, CycleLots, First;
    var one := LotsOfKey(b.open, symbol, strategy, timeframe)[0];
    assert one in b.open;
    FirstIsARow(b.lots, symbol, one.cycle);
    FirstIn(CycleLots(b.lots, symbol, one.cycle));
    CycleLotsOf(b.lots, symbol, one.cycle);
    var first := First(CycleLots(b.lots, symbol, one.cycle));
    assert SameLot(b.lots[one.id], one);
    var i :| 0 <= i < |b.lots| && b.lots[i] == first;
    assert b.lots[one.id].symbol == b.lots[i].symbol && b.lots[one.id].cycle == b.lots[i].cycle;
  }

  /** Visiting a key again queues nothing more: a candle may visit it once per lot. */
  lemma QueueLadderOnce(d: Desk, o: Out, c: Candle, strategy: string, timeframe: string)
    requires Mirrors(o.book.lots, o.book.open) && OneOwner(o.book.lots)
    ensures var once := QueueLadder(d, o, c, strategy, timeframe);
            QueueLadder(d, once, c, strategy, timeframe) == once
  {
    hide LotsOfKey, CycleLots, First, Latest, Mirrors, OneOwner, PendingConflict;
    var b := o.book;
    var open := LotsOfKey(b.open, c.symbol, strategy, timeframe);
    var once := QueueLadder(d, o, c, strategy, timeframe);
    if open != [] && CycleLots(b.lots, c.symbol, open[0].cycle) != [] && once.book != b {
      FirstOfKey(b, c.symbol, strategy, timeframe);
      var p := once.book.pending[|b.pending|];
      assert HasPending(once.book.pending, c.symbol, strategy, timeframe);
    }
  }

  lemma {:induction false} QueueLaddersKeeps(d: Desk, terms: Terms, o: Out, c: Candle, lots: seq<Lot>, n: nat)
    requires Sane(d, terms, o.book) && n <= |lots|
    ensures Sane(d, terms, QueueLadders(d, o, c, lots, n).book)
  {
    hide Sane, QueueLadder;
    if n > 0 {
      QueueLaddersKeeps(d, terms, o, c, lots, n - 1);
      QueueLadderKeeps(d, terms, QueueLadders(d, o, c, lots, n - 1), c, lots[n - 1].strategy, lots[n - 1].timeframe);
    }
  }

  // ---- whole runs -------------------------------------------------------------------------------------------

  datatype Event =
    | SignalEvent(signal: Signal, now: int)
    | CandleEvent(candle: Candle)
    | ManualCloseEvent(position: nat, at: int)

  function Step(d: Desk, b: Book, e: Event): (r: Book)
    requires SoundInventories(b.inventories)
  {
    match e
    case SignalEvent(sig, now) => OnSignal(d, b, sig, now).book
    case CandleEvent(c) => OnCandle(d, b, c).book
    case ManualCloseEvent(k, at) => if k < |b.open| then OnManualClose(d, b, k, at).book else b
  }

  /** Events carry validated configurations within the terms, and prices that fill cleanly. */
  ghost predicate Admissible(d: Desk, terms: Terms, e: Event) {
    match e
    case SignalEvent(sig, _) => Allowed(d, terms, sig.config) && (sig.config.policy.nextOpen || Clean(d, sig.price))
    case CandleEvent(c) => Clean(d, c.open)
    case ManualCloseEvent(_, _) => true
  }

  lemma OnCandleKeeps(d: Desk, terms: Terms, b: Book, c: Candle)
    requires DeskOk(d, terms) && Clean(d, c.open) && Sane(d, terms, b)
    ensures Sane(d, terms, OnCandle(d, b, c).book)
  {
    hide Paired, Covers, Cycles, Accounted, Limited, Sizes, FillQueue, ExitScan, MarkLots, QueueLadders, LotsFor, Clean;
    FillQueueKeeps(d, terms, b, c);
    var filled := FillQueue(d, b, c);
    if filled.ok {
      var lots := LotsFor(filled.book.open, c.symbol, c.lotTimeframe);
      LotsForCurrent(filled.book, c.symbol, c.lotTimeframe);
      ExitScanKeeps(d, terms, filled, c, lots, |lots|);
      var exits := ExitScan(d, filled, c, lots, |lots|).out;
      var remaining := LotsFor(exits.book.open, c.symbol, c.lotTimeframe);
      LotsForCurrent(exits.book, c.symbol, c.lotTimeframe);
      MarkLotsKeeps(d, terms, exits, remaining, c.close, |remaining|);
      QueueLaddersKeeps(d, terms, MarkLots(d, exits, remaining, c.close, |remaining|), c, remaining, |remaining|);
    }
  }

  lemma OnSignalKeeps(d: Desk, terms: Terms, b: Book, sig: Signal, now: int)
    requires DeskOk(d, terms) && Sane(d, terms, b) && Admissible(d, terms, SignalEvent(sig, now))
    ensures Sane(d, terms, OnSignal(d, b, sig, now).book)
  {
    hide Tables, Accounted, Limited, Sizes, FillEntry, Clean, Allowed, LotsOfKey, PendingConflict;
    if sig.config.policy.nextOpen {
      PendingKeeps(d, terms, b, b.pending + [Pending(sig, None, now)]);
    } else {
      FillEntryKeeps(d, terms, b, sig, sig.price, sig.at);
    }
  }

  lemma OnManualCloseKeeps(d: Desk, terms: Terms, b: Book, k: nat, at: int)
    requires DeskOk(d, terms) && Sane(d, terms, b) && k < |b.open|
    ensures Sane(d, terms, OnManualClose(d, b, k, at).book)
  {
    hide Paired, Covers, Cycles, Accounted, Limited, Configs, Sizes, CloseLot, MarkLots, LotsFor;
    var lot := b.open[k];
    if lot.lastPrice > 0.0 {
      assert SameLot(b.lots[lot.id], lot);
      CloseBook(d, terms, b, lot, k, CLOSED, lot.lastPrice, at);
      var closed := CloseLot(d, b, lot, CLOSED, lot.lastPrice, at);
      var t := closed.book.trades[|closed.book.trades| - 1];
      CloseKeeps(d, terms, b, closed.book, k, closed.book.lots[lot.id], t, d.fees.sell(lot.lastPrice, lot.quantity));
      LotsForCurrent(closed.book, lot.symbol, None);
      var lots := LotsFor(closed.book.open, lot.symbol, None);
      MarkLotsKeeps(d, terms, closed, lots, lot.lastPrice, |lots|);
    }
  }

  /** Every event keeps the invariant, also when the operation raises part way. */
  lemma StepKeeps(d: Desk, terms: Terms, b: Book, e: Event)
    requires DeskOk(d, terms) && Sane(d, terms, b) && Admissible(d, terms, e)
    ensures Sane(d, terms, Step(d, b, e))
  {
    hide Tables, Accounted, Limited, Configs, Sizes, OnCandle, OnSignal, OnManualClose;
    match e
    case SignalEvent(sig, now) => OnSignalKeeps(d, terms, b, sig, now);
    case CandleEvent(c) => OnCandleKeeps(d, terms, b, c);
    case ManualCloseEvent(k, at) => if k < |b.open| { OnManualCloseKeeps(d, terms, b, k, at); }
  }

  /** A fresh account. */
  function Opening(balance: real): Book { Book(balance, balance, [], [], [], [], [], map[]) }

  lemma OpeningTables(balance: real)
    ensures Tables(Opening(balance))
  {
    assert Ids([]) == {};
  }

  lemma OpeningStocked(balance: real)
    ensures AllStocked(Opening(balance))
  {
    var b := Opening(balance);
    forall symbol: string ensures Stocked(b.inventories, b.open, b.trades, symbol) {
      assert QueueOf(b.inventories, symbol) == [] && History(b.trades, symbol) == [];
    }
  }

  lemma OpeningIsSane(d: Desk, terms: Terms, balance: real)
    requires DeskOk(d, terms) && balance >= 0.0
    ensures Sane(d, terms, Opening(balance))
  {
    hide Tables, AllStocked;
    OpeningTables(balance);
    OpeningStocked(balance);
    assert Positions([]) == {};
  }

  ghost predicate AllAdmissible(d: Desk, terms: Terms, events: seq<Event>) {
    forall i :: 0 <= i < |events| ==> Admissible(d, terms, events[i])
  }

  /** The book after a run; events after an unsound state (there is none) would be ignored. */
  function Run(d: Desk, b: Book, events: seq<Event>): Book {
    if events == [] then b
    else
      var before := Run(d, b, events[..|events| - 1]);
      if SoundInventories(before.inventories) then Step(d, before, events[|events| - 1]) else before
  }

  /** Over every run from a fresh account, whatever the events: caches mirror tables, the log pairs
      purchases and sales, cycles are disciplined, limits hold, and on NSE inventories match open
      lots and log while cash, inventory and results balance within the rounding drift. */
  lemma {:induction false} RunIsSane(d: Desk, terms: Terms, balance: real, events: seq<Event>)
    requires DeskOk(d, terms) && balance >= 0.0 && AllAdmissible(d, terms, events)
    ensures Sane(d, terms, Run(d, Opening(balance), events))
  {
    hide Tables, Accounted, Limited, Configs, Sizes, Step, Admissible, Opening, DeskOk;
    if events == [] {
      OpeningIsSane(d, terms, balance);
    } else {
      var n := |events| - 1;
      RunIsSane(d, terms, balance, events[..n]);
      StepKeeps(d, terms, Run(d, Opening(balance), events[..n]), events[n]);
    }
  }
}
