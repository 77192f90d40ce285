/** The target guarantee of the broker: as long as every candle concerns all lots of its symbol, as those of
    `on_market_candle` do, or closes none, and nothing raises, every open NSE lot's target is the one its
    present FIFO match needs, so each target exit nets its percentage over the cost of the units it consumes. */
module BrokerTargets {
  import opened Common
  import opened Fifo
  import opened Fees
  import opened TargetPrice
  import opened LotPolicy
  import opened Broker
  import opened BrokerCore
  import opened BrokerRuns
  import opened BrokerRisk
  import opened BrokerEvents

  /** The lot's target is what its match at the front of this queue needs, and its marks are those of that match. */
  ghost predicate Fresh(d: Desk, queue: seq<Slice>, lot: Lot) {
    && Sound(queue) && lot.config.targetPct.Some? && Sale(queue, lot.quantity).Ok?
    && NetTarget(d.fees, Sale(queue, lot.quantity).value.0, lot.config.targetPct.value, d.floatLimit) == Ok(lot.target)
    && MarkedAs(d, Sale(queue, lot.quantity).value.0, lot)
  }

  /** Basis and result so far, as stored, of a lot matched like this. */
  ghost predicate MarkedAs(d: Desk, m: Match, lot: Lot) {
    && lot.costBasis == d.rounding.four(m.costBasis)
    && lot.unrealized == d.rounding.two(Worth(lot.lastPrice - lot.costBasis, lot.quantity) - m.entryFees)
  }

  ghost predicate FreshIn(d: Desk, inventories: map<string, seq<Slice>>, lot: Lot) {
    Fresh(d, QueueOf(inventories, lot.symbol), lot)
  }

  ghost predicate AllFresh(d: Desk, b: Book) { forall x :: x in b.open ==> FreshIn(d, b.inventories, x) }

  /** Fresh, except perhaps for lots of this symbol. */
  ghost predicate FreshBut(d: Desk, b: Book, symbol: string) {
    forall x :: x in b.open && x.symbol != symbol ==> FreshIn(d, b.inventories, x)
  }

  // ---- marking ------------------------------------------------------------------------------------------

  lemma RemarkIsFresh(d: Desk, queue: seq<Slice>, lot: Lot, close: real)
    requires d.market.NSE? && Sound(queue) && Remark(d, queue, lot, close).Some?
    ensures var mark := Remark(d, queue, lot, close).value.0;
            Fresh(d, queue, mark) && mark.id == lot.id && mark.symbol == lot.symbol
  {
    hide Sale, NetTarget;
  }

  /** Every lot is fresh, or is as it was and not among the first n. */
  ghost predicate Covered(d: Desk, was: Book, b: Book, lots: seq<Lot>, n: nat)
    requires n <= |lots|
  {
    forall x :: x in b.open ==>
      FreshIn(d, b.inventories, x) || (x in was.open && forall i :: 0 <= i < n ==> lots[i].id != x.id)
  }

  lemma CoveredNext(d: Desk, was: Book, b: Book, after: Book, lots: seq<Lot>, n: nat, mark: Lot)
    requires n < |lots| && Covered(d, was, b, lots, n) && Ascending(b.open) && mark.id in Ids(b.open)
    requires mark.id == lots[n].id
    requires after.inventories == b.inventories && after.open == Replace(b.open, mark)
    requires FreshIn(d, b.inventories, mark)
    ensures Covered(d, was, after, lots, n + 1)
  {
    hide FreshIn, Replace;
    var k := IndexOf(b.open, mark.id);
    ReplaceIs(b.open, mark, k);
    forall x | x in after.open
      ensures FreshIn(d, after.inventories, x) || (x in was.open && forall i :: 0 <= i < n + 1 ==> lots[i].id != x.id)
    {
      var m :| 0 <= m < |after.open| && after.open[m] == x;
      if m != k { assert x == b.open[m] && x.id != mark.id; }
    }
  }

  lemma MarkOneCovers(d: Desk, was: Book, o: Out, lots: seq<Lot>, close: real, n: nat)
    requires d.market.NSE? && n < |lots| && Covered(d, was, o.book, lots, n) && SoundInventories(o.book.inventories)
    requires Ascending(o.book.open) && lots[n].id in Ids(o.book.open) && MarkOne(d, o, lots[n], close).ok
    ensures Covered(d, was, MarkOne(d, o, lots[n], close).book, lots, n + 1)
  {
    hide Remark, Covered, Replace, Ids, Ascending;
    var queue := QueueOf(o.book.inventories, lots[n].symbol);
    RemarkIsFresh(d, queue, lots[n], close);
    var mark := Remark(d, queue, lots[n], close).value.0;
    hide Fresh;
    assert FreshIn(d, o.book.inventories, mark);
    CoveredNext(d, was, o.book, MarkOne(d, o, lots[n], close).book, lots, n, mark);
  }

  lemma {:induction false} MarkingFreshens(d: Desk, terms: Terms, o: Out, lots: seq<Lot>, close: real, n: nat)
    requires d.market.NSE? && Sane(d, terms, o.book) && n <= |lots| && Current(o.book, lots)
    requires SoundInventories(o.book.inventories) && MarkLots(d, o, lots, close, n).ok
    ensures Covered(d, o.book, MarkLots(d, o, lots, close, n).book, lots, n)
  {
    hide Sane, MarkOne, Covered, Current, Ids, Ascending, Mirrors;
    if n == 0 {
      CoveredNone(d, o.book, lots);
    } else {
      var p := MarkLots(d, o, lots, close, n - 1);
      assert p.ok by { MarkOneOk(d, p, lots[n - 1], close); }
      MarkingFreshens(d, terms, o, lots, close, n - 1);
      MarkLotsKeeps(d, terms, o, lots, close, n - 1);
      SaneBasics(d, terms, p.book);
      assert lots[n - 1].id in Ids(p.book.open) by { CurrentIsOpen(p.book, lots, n - 1); }
      MarkOneCovers(d, o.book, p, lots, close, n - 1);
    }
  }

  lemma CoveredNone(d: Desk, b: Book, lots: seq<Lot>)
    ensures Covered(d, b, b, lots, 0)
  {}

  lemma MarkOneOk(d: Desk, o: Out, lot: Lot, close: real)
    requires SoundInventories(o.book.inventories) && MarkOne(d, o, lot, close).ok
    ensures o.ok
  {}

  lemma CurrentIsOpen(b: Book, lots: seq<Lot>, n: nat)
    requires Current(b, lots) && n < |lots|
    ensures lots[n].id in Ids(b.open)
  {}

  lemma {:induction false} LotsForAll(open: seq<Lot>, symbol: string, x: Lot)
    requires x in open && x.symbol == symbol
    ensures x in LotsFor(open, symbol, None)
  {
    var n := |open| - 1;
    if x != open[n] {
      assert x in open[..n];
      LotsForAll(open[..n], symbol, x);
    }
  }

  /** Re-marking all lots of a symbol makes the whole book fresh again, if the others were. */
  lemma RemarkedIsFresh(d: Desk, terms: Terms, o: Out, symbol: string, close: real)
    requires d.market.NSE? && Sane(d, terms, o.book) && FreshBut(d, o.book, symbol)
    ensures SoundInventories(o.book.inventories)
    ensures var lots := LotsFor(o.book.open, symbol, None);
            var r := MarkLots(d, o, lots, close, |lots|);
            r.ok ==> AllFresh(d, r.book)
  {
    hide Tables, Accounted, Limited, Configs, Sizes, FreshIn, LotsFor, MarkLots;
    SaneBasics(d, terms, o.book);
    var lots := LotsFor(o.book.open, symbol, None);
    var r := MarkLots(d, o, lots, close, |lots|);
    LotsForCurrent(o.book, symbol, None);
    if r.ok {
      MarkingFreshens(d, terms, o, lots, close, |lots|);
      forall x | x in r.book.open ensures FreshIn(d, r.book.inventories, x) {
        if !FreshIn(d, r.book.inventories, x) {
          if x.symbol == symbol { LotsForAll(o.book.open, symbol, x); }
        }
      }
    }
  }

  // ---- entries ------------------------------------------------------------------------------------------

  lemma EnteredLeavesOthers(d: Desk, b: Book, after: Book, lot: Lot, cost: real)
    requires AllFresh(d, b) && Entered(d, b, after, lot, cost)
    ensures FreshBut(d, after, lot.symbol)
  {
    hide Fresh;
    forall x | x in after.open && x.symbol != lot.symbol ensures FreshIn(d, after.inventories, x) {
      assert x in b.open && FreshIn(d, b.inventories, x);
    }
  }

  lemma FillEntryFresh(d: Desk, terms: Terms, b: Book, sig: Signal, reference: real, at: int)
    requires d.market.NSE? && DeskOk(d, terms) && Clean(d, reference) && Sane(d, terms, b)
    requires Allowed(d, terms, sig.config)
    requires AllFresh(d, b) && SoundInventories(b.inventories) && FillEntry(d, b, sig, reference, at).ok
    ensures AllFresh(d, FillEntry(d, b, sig, reference, at).book)
  {
    hide Judge, Sane, MarkLots, NewLot, LotsFor, FreshIn, AllFresh, FreshBut, Allowed, Clean;
    var v := Judge(d, b, sig, reference, at);
    if v.Accept? {
      var lot, entered := NewLot(d, b, sig, at, v), Enter(d, b, sig, at, v);
      assert ConfigOk(d, sig.config) by { AllowedIsOk(d, terms, sig.config); }
      EntryFacts(d, b, sig, reference, at);
      EnterBook(d, b, sig, reference, at, v);
      EnterKeeps(d, terms, b, sig, reference, at);
      EnteredLeavesOthers(d, b, entered.book, lot, v.cost);
      RemarkedIsFresh(d, terms, entered, sig.symbol, d.rounding.four(v.fill.price));
    } else {
      SameIsFresh(d, b, FillEntry(d, b, sig, reference, at).book);
    }
  }

  lemma SameIsFresh(d: Desk, b: Book, after: Book)
    requires AllFresh(d, b) && after.open == b.open && after.inventories == b.inventories
    ensures AllFresh(d, after)
  {}

  lemma {:induction false} FillPendingsFresh(d: Desk, terms: Terms, o: Out, c: Candle, queue: seq<Pending>, n: nat)
    requires d.market.NSE? && DeskOk(d, terms) && Clean(d, c.open) && Sane(d, terms, o.book) && n <= |queue|
    requires AllAllowed(d, terms, queue) && AllFresh(d, o.book) && SoundInventories(o.book.inventories)
    requires FillPendings(d, o, c, queue, n).ok
    ensures AllFresh(d, FillPendings(d, o, c, queue, n).book)
  {
    hide Sane, FillEntry, Executable, Allowed, Clean, AllFresh;
    if n > 0 {
      var before := FillPendings(d, o, c, queue, n - 1);
      assert before.ok;
      FillPendingsFresh(d, terms, o, c, queue, n - 1);
      FillPendingsKeeps(d, terms, o, c, queue, n - 1);
      SameIsFresh(d, before.book, before.book.(pending := before.book.pending + [queue[n - 1]]));
      if FillEntry(d, before.book, queue[n - 1].signal, c.open, c.at).ok {
        FillEntryFresh(d, terms, before.book, queue[n - 1].signal, c.open, c.at);
      }
    }
  }

  lemma FillQueueFresh(d: Desk, terms: Terms, b: Book, c: Candle)
    requires d.market.NSE? && DeskOk(d, terms) && Clean(d, c.open) && Sane(d, terms, b)
    requires AllFresh(d, b) && SoundInventories(b.inventories) && FillQueue(d, b, c).ok
    ensures AllFresh(d, FillQueue(d, b, c).book)
  {
    assert AllAllowed(d, terms, b.pending);
    hide Sane, FillPendings, Clean, AllFresh, Allowed, DeskOk;
    PendingKeeps(d, terms, b, []);
    SameIsFresh(d, b, b.(pending := []));
    FillPendingsFresh(d, terms, Out(b.(pending := []), true), c, b.pending, |b.pending|);
  }

  // ---- exits ----------------------------------------------------------------------------------------------

  lemma SoldLeavesOthers(d: Desk, b: Book, after: Book, k: nat, row: Lot, t: Trade, fill: Fill)
    requires d.market.NSE? && FreshBut(d, b, t.symbol) && Ascending(b.open) && SoldFrom(d, b, after, k, row, t, fill)
    ensures FreshBut(d, after, t.symbol)
  {
    hide Fresh, Sale, RealizedPnl, ExitProceeds;
    RemoveIs(b.open, row.id);
    forall x | x in after.open && x.symbol != t.symbol ensures FreshIn(d, after.inventories, x) {
      var i :| 0 <= i < |after.open| && after.open[i] == x;
      assert x in b.open && FreshIn(d, b.inventories, x);
    }
  }

  lemma CloseLeavesOthers(d: Desk, terms: Terms, b: Book, lot: Lot, status: Status, raw: real, at: int)
    requires d.market.NSE? && DeskOk(d, terms) && Sane(d, terms, b) && status != OPEN && SoundInventories(b.inventories)
    requires lot.id in Ids(b.open) && lot.id < |b.lots| && SameTerms(b.lots[lot.id], lot) && FreshBut(d, b, lot.symbol)
    ensures FreshBut(d, CloseLot(d, b, lot, status, raw, at).book, lot.symbol)
  {
    SaneBasics(d, terms, b);
    hide Sane, CloseLot, FreshBut, Sale, RealizedPnl, ExitProceeds, Remove;
    var k := IndexOf(b.open, lot.id);
    CloseBook(d, terms, b, lot, k, status, raw, at);
    var after := CloseLot(d, b, lot, status, raw, at).book;
    var t := after.trades[|after.trades| - 1];
    assert SameLot(b.lots[lot.id], b.open[k]);
    SoldLeavesOthers(d, b, after, k, after.lots[lot.id], t, d.fees.sell(raw, lot.quantity));
  }

  lemma {:induction false} ExitsLeaveOthers(d: Desk, terms: Terms, o: Out, c: Candle, lots: seq<Lot>, n: nat)
    requires d.market.NSE? && DeskOk(d, terms) && Sane(d, terms, o.book) && o.ok && n <= |lots| && Current(o.book, lots)
    requires SoundInventories(o.book.inventories) && FreshBut(d, o.book, c.symbol)
    requires forall i :: 0 <= i < |lots| ==> lots[i].symbol == c.symbol
    ensures FreshBut(d, ExitScan(d, o, c, lots, n).out.book, c.symbol)
  {
    hide Sane, CloseLot, FreshBut, Current;
    if n > 0 {
      ExitsLeaveOthers(d, terms, o, c, lots, n - 1);
      ExitScanKeeps(d, terms, o, c, lots, n - 1);
      var before := ExitScan(d, o, c, lots, n - 1);
      var exit := ExitOf(lots[n - 1], c, before.exited);
      if exit.Some? {
        assert CurrentFrom(before.out.book, lots, n - 1);
        CloseLeavesOthers(d, terms, before.out.book, lots[n - 1], exit.value.0, exit.value.1, c.at);
      }
    }
  }

  /** Until the first exit of a candle, nothing has changed. */
  lemma {:induction false} UntouchedBeforeExit(d: Desk, o: Out, c: Candle, lots: seq<Lot>, n: nat)
    requires d.market.NSE? && n <= |lots| && SoundInventories(o.book.inventories)
    requires ExitScan(d, o, c, lots, n).out.ok && !ExitScan(d, o, c, lots, n).exited
    ensures ExitScan(d, o, c, lots, n).out == o
  {
    hide CloseLot, ExitOf;
    if n > 0 { UntouchedBeforeExit(d, o, c, lots, n - 1); }
  }

  /** A sale at this price nets the lot's percentage over the cost and entry fees of the first units of the queue,
      as many as the lot has. */
  ghost predicate Earns(d: Desk, inventories: map<string, seq<Slice>>, lot: Lot, price: real) {
    var queue := QueueOf(inventories, lot.symbol);
    && Sound(queue) && Sale(queue, lot.quantity).Ok? && lot.config.targetPct.Some?
    && var units := Taken(queue, lot.quantity);
       Proceeds(d.fees, price, lot.quantity)
       >= (AllocatedCost(units) + AllocatedFees(units)) * (1.0 + lot.config.targetPct.value / 100.0)
  }

  /** Every target exit of the candle earns. */
  ghost predicate CandleEarns(d: Desk, b: Book, c: Candle)
    requires SoundInventories(b.inventories)
  {
    var filled := FillQueue(d, b, c);
    var lots := LotsFor(filled.book.open, c.symbol, c.lotTimeframe);
    filled.ok ==>
      forall n :: 0 <= n < |lots| ==>
        var before := ExitScan(d, filled, c, lots, n);
        var exit := ExitOf(lots[n], c, before.exited);
        before.out.ok && exit.Some? && exit.value.0 == TARGET_HIT ==>
          Earns(d, before.out.book.inventories, lots[n], exit.value.1)
  }

  lemma FreshEarns(d: Desk, inventories: map<string, seq<Slice>>, lot: Lot)
    requires ProceedsGrow(d.fees) && FreshIn(d, inventories, lot) && lot.quantity > 0.0 && Whole(lot.quantity)
    requires WholeUnits(QueueOf(inventories, lot.symbol))
    ensures Earns(d, inventories, lot, lot.target)
  {
    var queue := QueueOf(inventories, lot.symbol);
    hide Sale, NetTarget, ProceedsGrow, Proceeds, AllocatedCost, AllocatedFees, Taken;
    SaleExact(queue, lot.quantity);
    TargetSuffices(d.fees, Sale(queue, lot.quantity).value.0, lot.config.targetPct.value, d.floatLimit);
  }

  lemma FreshCandleEarns(d: Desk, terms: Terms, b: Book, c: Candle)
    requires d.market.NSE? && DeskOk(d, terms) && ProceedsGrow(d.fees) && Clean(d, c.open) && Sane(d, terms, b)
    requires AllFresh(d, b) && SoundInventories(b.inventories)
    ensures CandleEarns(d, b, c)
  {
    hide Sane, FillQueue, LotsFor, ExitScan, AllFresh, Clean, DeskOk, ProceedsGrow, Earns;
    FillQueueKeeps(d, terms, b, c);
    var filled := FillQueue(d, b, c);
    if filled.ok {
      FillQueueFresh(d, terms, b, c);
      var lots := LotsFor(filled.book.open, c.symbol, c.lotTimeframe);
      SaneBasics(d, terms, filled.book);
      LotsForIs(filled.book.open, c.symbol, c.lotTimeframe);
      forall n | 0 <= n < |lots|
        ensures var before := ExitScan(d, filled, c, lots, n);
                var exit := ExitOf(lots[n], c, before.exited);
                before.out.ok && exit.Some? && exit.value.0 == TARGET_HIT ==>
                  Earns(d, before.out.book.inventories, lots[n], exit.value.1)
      {
        var before := ExitScan(d, filled, c, lots, n);
        var exit := ExitOf(lots[n], c, before.exited);
        if before.out.ok && exit.Some? && exit.value.0 == TARGET_HIT {
          assert !before.exited && exit.value.1 == lots[n].target;
          UntouchedBeforeExit(d, filled, c, lots, n);
          assert lots[n] in filled.book.open;
          OpenLotEarns(d, terms, filled.book, lots[n]);
        }
      }
    }
  }

  lemma OpenLotEarns(d: Desk, terms: Terms, b: Book, lot: Lot)
    requires d.market.NSE? && ProceedsGrow(d.fees) && Sane(d, terms, b) && AllFresh(d, b) && lot in b.open
    ensures Earns(d, b.inventories, lot, lot.target)
  {
    hide Tables, Sizes, Configs, Limited, ProceedsGrow, Earns, QueueAfter, Quantity, OpenQuantity;
    assert StockedIn(b, lot.symbol);
    FreshEarns(d, b.inventories, lot);
  }

  // ---- runs -----------------------------------------------------------------------------------------------

  /** The operation of the event went through without raising. */
  ghost predicate GoesThrough(d: Desk, b: Book, e: Event)
    requires SoundInventories(b.inventories)
  {
    match e
    case SignalEvent(sig, now) => OnSignal(d, b, sig, now).ok
    case CandleEvent(c) => OnCandle(d, b, c).ok
    case ManualCloseEvent(k, at) => k < |b.open| ==> OnManualClose(d, b, k, at).ok
  }

  /** The candle's exits and marks concern this lot. */
  predicate Concerns(c: Candle, lot: Lot) {
    lot.symbol == c.symbol && (c.lotTimeframe.None? || lot.timeframe == c.lotTimeframe.value)
  }

  /** The candle concerns every open lot of its symbol, or closes none; the lots are those open once its pending
      entries have been filled. Always so for `on_market_candle`. */
  ghost predicate LeavesNoneStale(d: Desk, b: Book, e: Event)
    requires SoundInventories(b.inventories)
  {
    e.CandleEvent? ==>
      var c := e.candle;
      var open := FillQueue(d, b, c).book.open;
      || (forall x :: x in open && x.symbol == c.symbol ==> Concerns(c, x))
      || (forall x :: x in open && Concerns(c, x) ==> ExitOf(x, c, false).None?)
  }

  lemma MarketWideLeavesNoneStale(d: Desk, b: Book, e: Event)
    requires SoundInventories(b.inventories) && (e.CandleEvent? ==> e.candle.lotTimeframe.None?)
    ensures LeavesNoneStale(d, b, e)
  {
    hide FillQueue;
  }

  lemma {:induction false} RemovedFrom(open: seq<Lot>, id: nat)
    ensures forall x :: x in Remove(open, id) ==> x in open
  {
    if open != [] {
      var n := |open| - 1;
      RemovedFrom(open[..n], id);
      assert open == open[..n] + [open[n]];
    }
  }

  lemma {:induction false} ExitsOnlyClose(d: Desk, o: Out, c: Candle, lots: seq<Lot>, n: nat)
    requires n <= |lots| && SoundInventories(o.book.inventories)
    ensures forall x :: x in ExitScan(d, o, c, lots, n).out.book.open ==> x in o.book.open
    ensures (forall i :: 0 <= i < n ==> ExitOf(lots[i], c, false).None?) ==>
              ExitScan(d, o, c, lots, n) == Scan(o, false)
  {
    hide Basis, ClosedRow, ExitProceeds, ExitOf, Remove, Sound;
    if n > 0 {
      ExitsOnlyClose(d, o, c, lots, n - 1);
      RemovedFrom(ExitScan(d, o, c, lots, n - 1).out.book.open, lots[n - 1].id);
    }
  }

  lemma {:induction false} LotsForConcerned(open: seq<Lot>, c: Candle)
    ensures (forall x :: x in open && x.symbol == c.symbol ==> Concerns(c, x)) ==>
              LotsFor(open, c.symbol, c.lotTimeframe) == LotsFor(open, c.symbol, None)
    ensures forall x :: x in LotsFor(open, c.symbol, c.lotTimeframe) ==> x in open && Concerns(c, x)
  {
    if open != [] {
      var n := |open| - 1;
      LotsForConcerned(open[..n], c);
      assert open == open[..n] + [open[n]];
    }
  }

  /** Marking some lots of a fresh book leaves it fresh. */
  lemma MarkedStaysFresh(d: Desk, terms: Terms, o: Out, lots: seq<Lot>, close: real)
    requires d.market.NSE? && Sane(d, terms, o.book) && AllFresh(d, o.book) && Current(o.book, lots)
    requires SoundInventories(o.book.inventories) && MarkLots(d, o, lots, close, |lots|).ok
    ensures AllFresh(d, MarkLots(d, o, lots, close, |lots|).book)
  {
    hide Sane, FreshIn, MarkLots, Current;
    MarkingFreshens(d, terms, o, lots, close, |lots|);
  }

  lemma OnSignalFresh(d: Desk, terms: Terms, b: Book, sig: Signal, now: int)
    requires d.market.NSE? && DeskOk(d, terms) && Sane(d, terms, b) && Admissible(d, terms, SignalEvent(sig, now))
    requires AllFresh(d, b) && SoundInventories(b.inventories) && OnSignal(d, b, sig, now).ok
    ensures AllFresh(d, OnSignal(d, b, sig, now).book)
  {
    hide Sane, FillEntry, Clean, Allowed, AllFresh, LotsOfKey, PendingConflict, DeskOk;
    SameIsFresh(d, b, Persist(b, Pending(sig, None, now)));
    if !sig.config.policy.nextOpen && FillEntry(d, b, sig, sig.price, sig.at).ok {
      FillEntryFresh(d, terms, b, sig, sig.price, sig.at);
    }
  }

  lemma OnManualCloseFresh(d: Desk, terms: Terms, b: Book, k: nat, at: int)
    requires d.market.NSE? && DeskOk(d, terms) && Sane(d, terms, b) && k < |b.open|
    requires AllFresh(d, b) && SoundInventories(b.inventories) && OnManualClose(d, b, k, at).ok
    ensures AllFresh(d, OnManualClose(d, b, k, at).book)
  {
    var lot := b.open[k];
    SaneBasics(d, terms, b);
    assert SameLot(b.lots[lot.id], lot) && lot.id in Ids(b.open);
    assert FreshBut(d, b, lot.symbol);
    hide Sane, CloseLot, MarkLots, LotsFor, AllFresh, FreshBut, DeskOk, Mirrors, Ids;
    var closed := CloseLot(d, b, lot, CLOSED, lot.lastPrice, at);
    CloseLeavesOthers(d, terms, b, lot, CLOSED, lot.lastPrice, at);
    assert Sane(d, terms, closed.book) by { ManualCloseKeeps(d, terms, b, k, at); }
    RemarkedIsFresh(d, terms, closed, lot.symbol, lot.lastPrice);
  }

  lemma ManualCloseKeeps(d: Desk, terms: Terms, b: Book, k: nat, at: int)
    requires DeskOk(d, terms) && Sane(d, terms, b) && k < |b.open|
    ensures SoundInventories(b.inventories)
    ensures Sane(d, terms, CloseLot(d, b, b.open[k], CLOSED, b.open[k].lastPrice, at).book)
  {
    SaneBasics(d, terms, b);
    hide Sane, CloseLot, DeskOk;
    assert SameLot(b.lots[b.open[k].id], b.open[k]);
    CloseLotKeeps(d, terms, b, [b.open[k]], 0, CLOSED, b.open[k].lastPrice, at);
  }

  lemma OnCandleFresh(d: Desk, terms: Terms, b: Book, c: Candle)
    requires d.market.NSE? && DeskOk(d, terms) && Clean(d, c.open) && Sane(d, terms, b)
    requires AllFresh(d, b) && SoundInventories(b.inventories) && OnCandle(d, b, c).ok
    requires LeavesNoneStale(d, b, CandleEvent(c))
    ensures AllFresh(d, OnCandle(d, b, c).book)
  {
    hide Sane, FillQueue, ExitScan, MarkLots, QueueLadders, LotsFor, Clean, AllFresh, FreshBut, DeskOk, Current,
         Mirrors, Concerns, ExitOf;
    FillQueueKeeps(d, terms, b, c);
    var filled := FillQueue(d, b, c);
    FillQueueFresh(d, terms, b, c);
    var lots := LotsFor(filled.book.open, c.symbol, c.lotTimeframe);
    SaneBasics(d, terms, filled.book);
    LotsForCurrent(filled.book, c.symbol, c.lotTimeframe);
    ExitScanKeeps(d, terms, filled, c, lots, |lots|);
    var exits := ExitScan(d, filled, c, lots, |lots|).out;
    var remaining := LotsFor(exits.book.open, c.symbol, c.lotTimeframe);
    var marked := MarkLots(d, exits, remaining, c.close, |remaining|);
    LaddersOnlyQueue(d, marked, c, remaining, |remaining|);
    LaddersOk(d, marked, c, remaining, |remaining|);
    ExitsOnlyClose(d, filled, c, lots, |lots|);
    LotsForConcerned(filled.book.open, c);
    LotsForConcerned(exits.book.open, c);
    SaneBasics(d, terms, exits.book);
    LotsForCurrent(exits.book, c.symbol, c.lotTimeframe);
    if forall x :: x in filled.book.open && x.symbol == c.symbol ==> Concerns(c, x) {
      assert FreshBut(d, filled.book, c.symbol) by { FreshButAny(d, filled.book, c.symbol); }
      ExitsLeaveOthers(d, terms, filled, c, lots, |lots|);
      RemarkedIsFresh(d, terms, exits, c.symbol, c.close);
    } else {
      MarkedStaysFresh(d, terms, exits, remaining, c.close);
    }
    SameIsFresh(d, marked.book, OnCandle(d, b, c).book);
  }

  lemma FreshButAny(d: Desk, b: Book, symbol: string)
    requires AllFresh(d, b)
    ensures FreshBut(d, b, symbol)
  {}

  lemma {:induction false} LaddersOk(d: Desk, o: Out, c: Candle, lots: seq<Lot>, n: nat)
    requires n <= |lots| && QueueLadders(d, o, c, lots, n).ok
    ensures o.ok
  {
    hide LotsOfKey, CycleLots, First, Latest, HasPending, Persist;
    if n > 0 { LaddersOk(d, o, c, lots, n - 1); }
  }

  /** Every event was admissible, left no target stale, and went through. */
  ghost predicate WentWell(d: Desk, terms: Terms, balance: real, events: seq<Event>) {
    && AllAdmissible(d, terms, events)
    && forall i :: 0 <= i < |events| ==>
         var b := Run(d, Opening(balance), events[..i]);
         SoundInventories(b.inventories) && LeavesNoneStale(d, b, events[i]) && GoesThrough(d, b, events[i])
  }

  lemma WellBefore(d: Desk, terms: Terms, balance: real, events: seq<Event>, n: nat)
    requires WentWell(d, terms, balance, events) && n <= |events|
    ensures WentWell(d, terms, balance, events[..n])
  {
    hide Run, Admissible, GoesThrough, LeavesNoneStale;
    assert forall i :: 0 <= i < n ==> events[..n][..i] == events[..i];
  }

  /** Over every such run all targets are fresh. */
  lemma {:induction false} RunIsFresh(d: Desk, terms: Terms, balance: real, events: seq<Event>)
    requires d.market.NSE? && DeskOk(d, terms) && balance >= 0.0 && WentWell(d, terms, balance, events)
    ensures AllFresh(d, Run(d, Opening(balance), events))
  {
    if events != [] {
      hide Sane, OnCandle, OnSignal, OnManualClose, AllFresh, DeskOk, Clean, Allowed, LeavesNoneStale;
      var n := |events| - 1;
      var front, e := events[..n], events[n];
      WellBefore(d, terms, balance, events, n);
      RunIsFresh(d, terms, balance, front);
      RunIsSane(d, terms, balance, front);
      var b := Run(d, Opening(balance), front);
      assert GoesThrough(d, b, e) && LeavesNoneStale(d, b, e);
      match e
      case SignalEvent(sig, now) => OnSignalFresh(d, terms, b, sig, now);
      case CandleEvent(c) => OnCandleFresh(d, terms, b, c);
      case ManualCloseEvent(k, at) => if k < |b.open| { OnManualCloseFresh(d, terms, b, k, at); }
    }
  }

  /** The target guarantee: after any run in which every event went through and left no target stale, every
      TARGET_HIT of the next candle, whichever it is, nets the lot's percentage over the FIFO cost of the units
      it consumes. */
  lemma TargetExitsEarn(d: Desk, terms: Terms, balance: real, events: seq<Event>, c: Candle)
    requires d.market.NSE? && DeskOk(d, terms) && ProceedsGrow(d.fees) && balance >= 0.0 && Clean(d, c.open)
    requires WentWell(d, terms, balance, events)
    ensures var b := Run(d, Opening(balance), events);
            SoundInventories(b.inventories) && CandleEarns(d, b, c)
  {
    hide Sane, Run, CandleEarns, AllFresh, DeskOk, Clean, ProceedsGrow;
    RunIsFresh(d, terms, balance, events);
    assert AllAdmissible(d, terms, events);
    RunIsSane(d, terms, balance, events);
    SaneBasics(d, terms, Run(d, Opening(balance), events));
    FreshCandleEarns(d, terms, Run(d, Opening(balance), events), c);
  }

  /** The lot's result so far is what it would bring at its last price, less the cost and entry fees of the first units
      of the queue, as many as it has. */
  ghost predicate MarkedRight(d: Desk, terms: Terms, queue: seq<Slice>, lot: Lot) {
    && Sound(queue)
    && var units := Taken(queue, lot.quantity);
       Abs(lot.unrealized - (Worth(lot.lastPrice, lot.quantity) - AllocatedCost(units) - AllocatedFees(units)))
       <= terms.e2 + terms.e4 * lot.quantity
  }

  lemma FreshIsMarked(d: Desk, terms: Terms, queue: seq<Slice>, lot: Lot)
    requires DeskOk(d, terms) && Fresh(d, queue, lot) && lot.quantity > 0.0 && Whole(lot.quantity) && WholeUnits(queue)
    ensures MarkedRight(d, terms, queue, lot)
  {
    hide Sale, NetTarget, AllocatedCost, AllocatedFees, Taken, Worth, DeskOk, MarkedAs;
    SaleExact(queue, lot.quantity);
    MarkedWithin(d, terms, Sale(queue, lot.quantity).value.0, lot);
  }

  lemma MarkedWithin(d: Desk, terms: Terms, m: Match, lot: Lot)
    requires DeskOk(d, terms) && MarkedAs(d, m, lot) && lot.quantity > 0.0
    ensures var q := lot.quantity;
            Abs(lot.unrealized - (Worth(lot.lastPrice, q) - Worth(m.costBasis, q) - m.entryFees))
            <= terms.e2 + terms.e4 * q
  {
    hide Worth;
    WorthApart(lot.costBasis, m.costBasis, lot.quantity, terms.e4);
    WorthMinus(lot.lastPrice, lot.costBasis, lot.quantity);
  }

  /** Over every such run all marks are right: what the limit on a day's loss adds up is what the open lots would
      bring, each sold first. */
  lemma RunMarksRight(d: Desk, terms: Terms, balance: real, events: seq<Event>, k: nat)
    requires d.market.NSE? && DeskOk(d, terms) && balance >= 0.0 && WentWell(d, terms, balance, events)
    requires k < |Run(d, Opening(balance), events).open|
    ensures var b := Run(d, Opening(balance), events);
            MarkedRight(d, terms, QueueOf(b.inventories, b.open[k].symbol), b.open[k])
  {
    RunIsFresh(d, terms, balance, events);
    assert AllAdmissible(d, terms, events);
    RunIsSane(d, terms, balance, events);
    var b := Run(d, Opening(balance), events);
    hide Run, WentWell, Tables, Sizes, Configs, Limited, ValidTrades, QueueAfter, Quantity, OpenQuantity, Fresh, DeskOk,
         MarkedRight;
    assert StockedIn(b, b.open[k].symbol) && b.open[k] in b.open && FreshIn(d, b.inventories, b.open[k]);
    FreshIsMarked(d, terms, QueueOf(b.inventories, b.open[k].symbol), b.open[k]);
  }
}
