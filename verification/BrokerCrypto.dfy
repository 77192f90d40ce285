/** Ledger conservation on CRYPTO, where a lot is sold at its own cost: cash and what the open lots cost with their
    entry fees add up to the starting balance plus all realized results, up to the rounding of each recorded trade.
    */
module BrokerCrypto {
  import opened Common
  import opened Fifo
  import opened Fees
  import opened LotPolicy
  import opened Broker
  import opened BrokerCore
  import opened BrokerLedger
  import opened BrokerRisk
  import opened BrokerRuns
  import opened BrokerEvents
  import opened BrokerSafety
  import BrokerTargets

  /** What a lot cost, as stored. */
  ghost function Own(lot: Lot): real { Worth(lot.entryPrice, lot.quantity) + lot.fees }

  ghost function OwnHeld(open: seq<Lot>): real {
    if open == [] then 0.0 else OwnHeld(open[..|open| - 1]) + Own(open[|open| - 1])
  }

  ghost predicate OwnConserved(b: Book, terms: Terms) {
    Abs(b.cash + OwnHeld(b.open) - b.starting - TotalRealized(b.lots)) <= Drift(b.trades, terms.e2, terms.e4)
  }

  /** Lots read earlier still have the entry fees they were read with. */
  ghost predicate SameFees(open: seq<Lot>, lots: seq<Lot>) {
    forall x, y :: x in open && y in lots && x.id == y.id ==> x.fees == y.fees
  }

  // ---- sums ---------------------------------------------------------------------------------------------------

  lemma HeldAppend(open: seq<Lot>, lot: Lot)
    ensures OwnHeld(open + [lot]) == OwnHeld(open) + Own(lot)
  {
    assert (open + [lot])[..|open|] == open;
  }

  lemma {:induction false} HeldUpdate(open: seq<Lot>, k: nat, lot: Lot)
    requires k < |open|
    ensures OwnHeld(open[k := lot]) == OwnHeld(open) - Own(open[k]) + Own(lot)
  {
    hide Own;
    var n := |open| - 1;
    if k < n {
      HeldUpdate(open[..n], k, lot);
      assert open[k := lot][..n] == open[..n][k := lot];
    } else {
      assert open[k := lot][..n] == open[..n];
    }
  }

  lemma {:induction false} NoneRemoved(open: seq<Lot>, id: nat)
    requires id !in Ids(open)
    ensures Remove(open, id) == open
  {
    if open != [] {
      var n := |open| - 1;
      assert open == open[..n] + [open[n]];
      IdsAppend(open[..n], open[n]);
      hide Ids;
      NoneRemoved(open[..n], id);
    }
  }

  lemma {:induction false} HeldRemove(open: seq<Lot>, k: nat)
    requires Ascending(open) && k < |open|
    ensures OwnHeld(Remove(open, open[k].id)) == OwnHeld(open) - Own(open[k])
  {
    hide Own;
    var n, id := |open| - 1, open[k].id;
    if k < n {
      HeldRemove(open[..n], k);
      HeldAppend(Remove(open[..n], id), open[n]);
    } else {
      assert id !in Ids(open[..n]);
      NoneRemoved(open[..n], id);
      assert open[..n] + [] == open[..n];
    }
  }

  // ---- marks --------------------------------------------------------------------------------------------------

  lemma MarkOwn(d: Desk, terms: Terms, o: Out, lot: Lot, close: real)
    requires d.market.CRYPTO? && Sane(d, terms, o.book) && OwnConserved(o.book, terms)
    requires lot.id in Ids(o.book.open) && lot.id < |o.book.lots| && SameTerms(o.book.lots[lot.id], lot)
    requires SameFees(o.book.open, [lot])
    ensures var r := MarkOne(d, o, lot, close).book;
            && OwnConserved(r, terms)
            && forall x :: x in r.open ==> x in o.book.open || (x.id == lot.id && x.fees == lot.fees)
  {
    hide Paired, Covers, Accounted, Limited, Configs, Sizes, Sale, Worth, UnrealizedPnl, OwnHeld, TotalRealized, Drift,
         Replace;
    var b := o.book;
    if o.ok {
      var mark := Remark(d, QueueOf(b.inventories, lot.symbol), lot, close).value.0;
      var k := IndexOf(b.open, lot.id);
      assert SameLot(b.lots[lot.id], b.open[k]) && b.open[k] in b.open;
      ReplaceIs(b.open, mark, k);
      HeldUpdate(b.open, k, mark);
      RealizedUpdate(b.lots, lot.id, MarkOne(d, o, lot, close).book.lots[lot.id]);
    }
  }

  lemma {:induction false} MarksOwn(d: Desk, terms: Terms, o: Out, lots: seq<Lot>, close: real, n: nat)
    requires d.market.CRYPTO? && Sane(d, terms, o.book) && OwnConserved(o.book, terms)
    requires n <= |lots| && Current(o.book, lots) && SameFees(o.book.open, lots)
    ensures SoundInventories(o.book.inventories)
    ensures var r := MarkLots(d, o, lots, close, n).book;
            OwnConserved(r, terms) && SameFees(r.open, lots)
  {
    hide Sane, MarkOne, OwnConserved, Ids, SameFees, Current, Mirrors, SameTerms;
    SaneBasics(d, terms, o.book);
    if n > 0 {
      MarksOwn(d, terms, o, lots, close, n - 1);
      MarkLotsKeeps(d, terms, o, lots, close, n - 1);
      var p, lot := MarkLots(d, o, lots, close, n - 1), lots[n - 1];
      CurrentOne(p.book, lots, n - 1);
      MarkOwn(d, terms, p, lot, close);
      SameFeesNext(p.book.open, MarkOne(d, p, lot, close).book.open, lots, lot);
    }
  }

  lemma CurrentOne(b: Book, lots: seq<Lot>, i: nat)
    requires Current(b, lots) && i < |lots| && SameFees(b.open, lots)
    ensures lots[i].id in Ids(b.open) && lots[i].id < |b.lots| && SameTerms(b.lots[lots[i].id], lots[i])
    ensures SameFees(b.open, [lots[i]]) && Ascending(lots) && lots[i] in lots
  {}

  lemma SameFeesNext(open: seq<Lot>, after: seq<Lot>, lots: seq<Lot>, lot: Lot)
    requires SameFees(open, lots) && Ascending(lots) && lot in lots
    requires forall x :: x in after ==> x in open || (x.id == lot.id && x.fees == lot.fees)
    ensures SameFees(after, lots)
  {
    OneOfEach(lots);
  }

  lemma OneOfEach(lots: seq<Lot>)
    requires Ascending(lots)
    ensures forall x, y :: x in lots && y in lots && x.id == y.id ==> x == y
  {
    forall x, y | x in lots && y in lots && x.id == y.id ensures x == y {
      var i :| 0 <= i < |lots| && lots[i] == x;
      var j :| 0 <= j < |lots| && lots[j] == y;
    }
  }

  lemma LotsForSameFees(open: seq<Lot>, symbol: string, timeframe: Option<string>)
    requires Ascending(open)
    ensures SameFees(open, LotsFor(open, symbol, timeframe))
  {
    LotsForIs(open, symbol, timeframe);
    OneOfEach(open);
  }

  // ---- entries ------------------------------------------------------------------------------------------------

  lemma EnterOwn(d: Desk, terms: Terms, b: Book, sig: Signal, reference: real, at: int)
    requires d.market.CRYPTO? && DeskOk(d, terms) && Clean(d, reference) && Sane(d, terms, b) && OwnConserved(b, terms)
    requires Allowed(d, terms, sig.config) && Judge(d, b, sig, reference, at).Accept?
    ensures OwnConserved(Enter(d, b, sig, at, Judge(d, b, sig, reference, at)).book, terms)
  {
    hide Judge, NewLot, Clean, ValidSlice, Sane, OwnHeld, TotalRealized, Drift, Worth;
    var v := Judge(d, b, sig, reference, at);
    if !TargetPctRaises(sig) {
      EntryFacts(d, b, sig, reference, at);
      EnterBook(d, b, sig, reference, at, v);
      var lot, after := NewLot(d, b, sig, at, v), Enter(d, b, sig, at, v).book;
      hide Enter;
      HeldAppend(b.open, lot);
      RealizedAppend(b.lots, lot);
      DriftAppend(b.trades, PurchaseOf(lot), terms.e2, terms.e4);
      PurchaseDrift(d, v.fill, v.quantity, terms.e2, terms.e4);
    }
  }

  lemma FillOwn(d: Desk, terms: Terms, b: Book, sig: Signal, reference: real, at: int)
    requires d.market.CRYPTO? && DeskOk(d, terms) && Clean(d, reference) && Sane(d, terms, b) && OwnConserved(b, terms)
    requires Allowed(d, terms, sig.config)
    ensures SoundInventories(b.inventories)
    ensures OwnConserved(FillEntry(d, b, sig, reference, at).book, terms)
  {
    hide Judge, MarkLots, NewLot, Sane, DeskOk, Clean, Allowed, LotsFor, Mirrors, OwnConserved, Enter, Sound, Ascending;
    SaneBasics(d, terms, b);
    var v := Judge(d, b, sig, reference, at);
    match v
    case Refuse(reason) => OwnSame(b, b.(orders := b.orders + [Rejected(sig.id, reason)]), terms);
    case Accept(_, _, _, fill, _) =>
      EnterOwn(d, terms, b, sig, reference, at);
      EnterKeeps(d, terms, b, sig, reference, at);
      RemarkOwn(d, terms, Enter(d, b, sig, at, v), sig.symbol, d.rounding.four(fill.price));
    case _ =>
  }

  lemma OwnSame(b: Book, after: Book, terms: Terms)
    requires OwnConserved(b, terms) && after.cash == b.cash && after.starting == b.starting
    requires after.open == b.open && after.lots == b.lots && after.trades == b.trades
    ensures OwnConserved(after, terms)
  {}

  /** Re-marking all lots of a symbol keeps the balance. */
  lemma RemarkOwn(d: Desk, terms: Terms, o: Out, symbol: string, close: real)
    requires d.market.CRYPTO? && Sane(d, terms, o.book) && OwnConserved(o.book, terms)
    ensures SoundInventories(o.book.inventories)
    ensures var lots := LotsFor(o.book.open, symbol, None);
            OwnConserved(MarkLots(d, o, lots, close, |lots|).book, terms)
  {
    hide Sane, MarkLots, LotsFor, Mirrors, OwnConserved, SameFees, Current;
    SaneBasics(d, terms, o.book);
    var lots := LotsFor(o.book.open, symbol, None);
    LotsForCurrent(o.book, symbol, None);
    LotsForSameFees(o.book.open, symbol, None);
    MarksOwn(d, terms, o, lots, close, |lots|);
  }

  lemma {:induction false} FillsOwn(d: Desk, terms: Terms, o: Out, c: Candle, queue: seq<Pending>, n: nat)
    requires d.market.CRYPTO? && DeskOk(d, terms) && Clean(d, c.open) && Sane(d, terms, o.book) && n <= |queue|
    requires AllAllowed(d, terms, queue) && OwnConserved(o.book, terms)
    ensures SoundInventories(o.book.inventories)
    ensures OwnConserved(FillPendings(d, o, c, queue, n).book, terms)
  {
    hide Sane, FillEntry, Executable, Allowed, Clean, DeskOk, OwnConserved, Mirrors;
    SaneBasics(d, terms, o.book);
    if n > 0 {
      FillsOwn(d, terms, o, c, queue, n - 1);
      FillPendingsKeeps(d, terms, o, c, queue, n - 1);
      var before := FillPendings(d, o, c, queue, n - 1).book;
      OwnSame(before, before.(pending := before.pending + [queue[n - 1]]), terms);
      FillOwn(d, terms, before, queue[n - 1].signal, c.open, c.at);
    }
  }

  // ---- closes -------------------------------------------------------------------------------------------------

  /** The result booked against the cash received and the lot's own cost. */
  lemma OwnSaleDrift(d: Desk, fill: Fill, lot: Lot, e2: real, e4: real)
    requires d.rounding.Within(e2, e4) && lot.quantity >= 0.0 && e4 >= 0.0
    ensures var booked := d.rounding.four(lot.fees + fill.fees);
            var result := RealizedPnl(d, lot.entryPrice, d.rounding.four(fill.price), lot.quantity, booked);
            Abs(ExitProceeds(fill, lot.quantity) - Own(lot) - result) <= 2.0 * e4 * lot.quantity + e4 + e2
  {
    hide Worth, ExitProceeds, RealizedPnl, Rounding.Within;
    BookedDrift(d, fill, lot.entryPrice, lot.entryPrice, lot.fees, lot.quantity, e2, e4);
  }

  lemma CloseResult(d: Desk, b: Book, lot: Lot, status: Status, raw: real, at: int)
    requires d.market.CRYPTO? && SoundInventories(b.inventories) && lot.id < |b.lots| && b.lots[lot.id].status == OPEN
    ensures var r := CloseLot(d, b, lot, status, raw, at).book;
            var fill := d.fees.sell(raw, lot.quantity);
            && lot.id < |r.lots|
            && r.lots[lot.id].realized == RealizedPnl(d, lot.entryPrice, d.rounding.four(fill.price), lot.quantity,
                                                      d.rounding.four(lot.fees + fill.fees))
  {
    hide RealizedPnl, Remove, ExitProceeds;
  }

  /** Selling an open lot books what it brought less what it cost. */
  lemma CloseOwn(d: Desk, terms: Terms, b: Book, lot: Lot, status: Status, raw: real, at: int)
    requires d.market.CRYPTO? && DeskOk(d, terms) && Sane(d, terms, b) && OwnConserved(b, terms) && status != OPEN
    requires lot.id in Ids(b.open) && lot.id < |b.lots| && SameTerms(b.lots[lot.id], lot) && SameFees(b.open, [lot])
    ensures SoundInventories(b.inventories)
    ensures var r := CloseLot(d, b, lot, status, raw, at).book;
            OwnConserved(r, terms) && forall x :: x in r.open ==> x in b.open
  {
    hide Sane, CloseLot, RealizedPnl, Own, OwnHeld, TotalRealized, Drift, ExitProceeds, SoldFrom, SameTerms,
         SameFees, Ids;
    var k := IndexOf(b.open, lot.id);
    SaneBasics(d, terms, b);
    OpenFacts(d, terms, b, lot, k);
    CloseBook(d, terms, b, lot, k, status, raw, at);
    CloseResult(d, b, lot, status, raw, at);
    var after, fill := CloseLot(d, b, lot, status, raw, at).book, d.fees.sell(raw, lot.quantity);
    HeldRemove(b.open, k);
    OwnSaleDrift(d, fill, lot, terms.e2, terms.e4);
    SoldParts(d, b, after, k, after.lots[lot.id], after.trades[|after.trades| - 1], fill);
    SoldOwn(d, terms, b, after, k, after.lots[lot.id], after.trades[|after.trades| - 1], fill);
    BrokerTargets.RemovedFrom(b.open, lot.id);
  }

  /** The cached lot a close is for. */
  lemma OpenFacts(d: Desk, terms: Terms, b: Book, lot: Lot, k: nat)
    requires Sane(d, terms, b) && k < |b.open| && b.open[k].id == lot.id && lot.id < |b.lots|
    requires SameTerms(b.lots[lot.id], lot) && SameFees(b.open, [lot])
    ensures Own(lot) == Own(b.open[k]) && lot.quantity == b.open[k].quantity && lot.quantity > 0.0
    ensures b.lots[lot.id].status == OPEN && b.lots[lot.id].realized == 0.0
  {
    hide Paired, Covers, OncePerSignal, Accounted, Limited, Configs, Worth;
    assert SameLot(b.lots[lot.id], b.open[k]) && b.open[k] in b.open;
  }

  lemma SoldParts(d: Desk, b: Book, after: Book, k: nat, row: Lot, t: Trade, fill: Fill)
    requires SoldFrom(d, b, after, k, row, t, fill)
    ensures k < |b.open| && row.id == b.open[k].id < |b.lots| && row.quantity == b.open[k].quantity
    ensures after.open == Remove(b.open, b.open[k].id)
  {
    hide Sale, RealizedPnl, ExitProceeds, Remove;
  }

  lemma SoldOwn(d: Desk, terms: Terms, b: Book, after: Book, k: nat, row: Lot, t: Trade, fill: Fill)
    requires OwnConserved(b, terms) && SoldFrom(d, b, after, k, row, t, fill)
    requires row.id < |b.lots| && b.lots[row.id].realized == 0.0
    requires OwnHeld(after.open) == OwnHeld(b.open) - Own(b.open[k])
    requires Abs(ExitProceeds(fill, row.quantity) - Own(b.open[k]) - row.realized)
               <= 2.0 * terms.e4 * row.quantity + terms.e4 + terms.e2
    ensures OwnConserved(after, terms)
  {
    hide Sale, RealizedPnl, ExitProceeds, Own, OwnHeld, TotalRealized, Drift, Remove;
    RealizedUpdate(b.lots, row.id, row);
    DriftAppend(b.trades, t, terms.e2, terms.e4);
  }

  lemma {:induction false} ExitsOwn(d: Desk, terms: Terms, o: Out, c: Candle, lots: seq<Lot>, n: nat)
    requires d.market.CRYPTO? && DeskOk(d, terms) && Sane(d, terms, o.book) && o.ok && OwnConserved(o.book, terms)
    requires n <= |lots| && Current(o.book, lots) && SameFees(o.book.open, lots)
    ensures SoundInventories(o.book.inventories)
    ensures var r := ExitScan(d, o, c, lots, n).out.book;
            OwnConserved(r, terms) && SameFees(r.open, lots)
  {
    hide Sane, CloseLot, DeskOk, OwnConserved, SameFees, Current, CurrentFrom, Mirrors, Ids;
    SaneBasics(d, terms, o.book);
    if n > 0 {
      ExitsOwn(d, terms, o, c, lots, n - 1);
      ExitScanKeeps(d, terms, o, c, lots, n - 1);
      var before := ExitScan(d, o, c, lots, n - 1);
      var exit := ExitOf(lots[n - 1], c, before.exited);
      if exit.Some? {
        FromOne(before.out.book, lots, n - 1);
        CloseOwn(d, terms, before.out.book, lots[n - 1], exit.value.0, exit.value.1, c.at);
        FewerSameFees(before.out.book.open, ExitScan(d, o, c, lots, n).out.book.open, lots);
      }
    }
  }

  lemma FromOne(b: Book, lots: seq<Lot>, i: nat)
    requires CurrentFrom(b, lots, i) && i < |lots| && SameFees(b.open, lots)
    ensures lots[i].id in Ids(b.open) && lots[i].id < |b.lots| && SameTerms(b.lots[lots[i].id], lots[i])
    ensures SameFees(b.open, [lots[i]])
  {
    assert lots[i] in lots;
  }

  lemma FewerSameFees(open: seq<Lot>, after: seq<Lot>, lots: seq<Lot>)
    requires SameFees(open, lots) && forall x :: x in after ==> x in open
    ensures SameFees(after, lots)
  {}

  // ---- events -------------------------------------------------------------------------------------------------

  lemma FillQueueOwn(d: Desk, terms: Terms, b: Book, c: Candle)
    requires d.market.CRYPTO? && DeskOk(d, terms) && Clean(d, c.open) && Sane(d, terms, b) && OwnConserved(b, terms)
    ensures SoundInventories(b.inventories) && OwnConserved(FillQueue(d, b, c).book, terms)
  {
    hide Tables, Accounted, Limited, Sizes, FillPendings, Clean, Allowed, OwnConserved, DeskOk;
    PendingKeeps(d, terms, b, []);
    var start := Out(b.(pending := []), true);
    OwnSame(b, start.book, terms);
    FillsOwn(d, terms, start, c, b.pending, |b.pending|);
    var r := FillPendings(d, start, c, b.pending, |b.pending|);
    OwnSame(r.book, r.book.(pending := OtherSymbols(b.pending, c.symbol)), terms);
  }

  lemma CandleOwn(d: Desk, terms: Terms, b: Book, c: Candle)
    requires d.market.CRYPTO? && DeskOk(d, terms) && Clean(d, c.open) && Sane(d, terms, b) && OwnConserved(b, terms)
    ensures SoundInventories(b.inventories) && OwnConserved(OnCandle(d, b, c).book, terms)
  {
    hide Sane, DeskOk, Clean, FillQueue, ExitScan, MarkLots, QueueLadders, LotsFor, OwnConserved, SameFees, Current,
         Mirrors, CurrentFrom;
    FillQueueKeeps(d, terms, b, c);
    FillQueueOwn(d, terms, b, c);
    var filled := FillQueue(d, b, c);
    if filled.ok {
      SaneBasics(d, terms, filled.book);
      var lots := LotsFor(filled.book.open, c.symbol, c.lotTimeframe);
      LotsForCurrent(filled.book, c.symbol, c.lotTimeframe);
      LotsForSameFees(filled.book.open, c.symbol, c.lotTimeframe);
      ExitScanKeeps(d, terms, filled, c, lots, |lots|);
      ExitsOwn(d, terms, filled, c, lots, |lots|);
      var exits := ExitScan(d, filled, c, lots, |lots|).out;
      SaneBasics(d, terms, exits.book);
      var remaining := LotsFor(exits.book.open, c.symbol, c.lotTimeframe);
      LotsForCurrent(exits.book, c.symbol, c.lotTimeframe);
      LotsForSameFees(exits.book.open, c.symbol, c.lotTimeframe);
      MarksOwn(d, terms, exits, remaining, c.close, |remaining|);
      var marked := MarkLots(d, exits, remaining, c.close, |remaining|);
      LaddersOwn(d, terms, marked, c, remaining, |remaining|);
    }
  }

  lemma {:induction false} LaddersOwn(d: Desk, terms: Terms, o: Out, c: Candle, lots: seq<Lot>, n: nat)
    requires n <= |lots| && OwnConserved(o.book, terms)
    ensures OwnConserved(QueueLadders(d, o, c, lots, n).book, terms)
  {
    hide LotsOfKey, CycleLots, First, Latest, PendingConflict, HasPending, OwnHeld, TotalRealized, Drift;
    if n > 0 { LaddersOwn(d, terms, o, c, lots, n - 1); }
  }

  lemma StepOwn(d: Desk, terms: Terms, b: Book, e: Event)
    requires d.market.CRYPTO? && DeskOk(d, terms) && Sane(d, terms, b) && Admissible(d, terms, e)
    requires OwnConserved(b, terms)
    ensures SoundInventories(b.inventories) && OwnConserved(Step(d, b, e), terms)
  {
    hide Sane, Clean, OnSignal, OnCandle, OnManualClose, OwnConserved, Mirrors, DeskOk, Admissible;
    SaneBasics(d, terms, b);
    match e
    case SignalEvent(sig, now) => SignalOwn(d, terms, b, sig, now);
    case CandleEvent(c) => CandleOwn(d, terms, b, c) by { AdmissibleIsClean(d, terms, c); }
    case ManualCloseEvent(k, at) => ManualOwn(d, terms, b, k, at);
  }

  lemma AdmissibleIsClean(d: Desk, terms: Terms, c: Candle)
    requires Admissible(d, terms, CandleEvent(c))
    ensures Clean(d, c.open)
  {
    hide Clean;
  }

  lemma SignalOwn(d: Desk, terms: Terms, b: Book, sig: Signal, now: int)
    requires d.market.CRYPTO? && DeskOk(d, terms) && Sane(d, terms, b) && Admissible(d, terms, SignalEvent(sig, now))
    requires OwnConserved(b, terms)
    ensures SoundInventories(b.inventories) && OwnConserved(OnSignal(d, b, sig, now).book, terms)
  {
    hide Sane, Clean, FillEntry, LotsOfKey, PendingConflict, OwnConserved, Mirrors, Allowed, DeskOk;
    SaneBasics(d, terms, b);
    OwnSame(b, Persist(b, Pending(sig, None, now)), terms);
    if !sig.config.policy.nextOpen { FillOwn(d, terms, b, sig, sig.price, sig.at); }
  }

  /** An open lot is listed in the table under its own terms. */
  lemma OpenIsListed(b: Book, k: nat)
    requires Mirrors(b.lots, b.open) && k < |b.open|
    ensures var lot := b.open[k];
            && lot.id in Ids(b.open) && lot.id < |b.lots| && SameTerms(b.lots[lot.id], lot)
            && SameFees(b.open, [lot])
  {
    assert SameLot(b.lots[b.open[k].id], b.open[k]) && b.open[k] in b.open;
    OneOfEach(b.open);
  }

  lemma ManualOwn(d: Desk, terms: Terms, b: Book, k: nat, at: int)
    requires d.market.CRYPTO? && DeskOk(d, terms) && Sane(d, terms, b) && OwnConserved(b, terms)
    ensures SoundInventories(b.inventories)
    ensures k < |b.open| ==> OwnConserved(OnManualClose(d, b, k, at).book, terms)
  {
    hide Sane, CloseLot, MarkLots, LotsFor, OwnConserved, Mirrors, Ids, DeskOk, SameTerms, SameFees;
    SaneBasics(d, terms, b);
    if k < |b.open| && b.open[k].lastPrice > 0.0 {
      var lot := b.open[k];
      OpenIsListed(b, k);
      CloseOwn(d, terms, b, lot, CLOSED, lot.lastPrice, at);
      BrokerTargets.ManualCloseKeeps(d, terms, b, k, at);
      RemarkOwn(d, terms, CloseLot(d, b, lot, CLOSED, lot.lastPrice, at), lot.symbol, lot.lastPrice);
    }
  }

  lemma {:induction false} RunOwn(d: Desk, terms: Terms, balance: real, events: seq<Event>)
    requires d.market.CRYPTO? && DeskOk(d, terms) && balance >= 0.0 && AllAdmissible(d, terms, events)
    ensures OwnConserved(Run(d, Opening(balance), events), terms)
  {
    if events != [] {
      hide Sane, Step, Admissible, Opening, DeskOk, OwnConserved;
      var n := |events| - 1;
      RunOwn(d, terms, balance, events[..n]);
      RunIsSane(d, terms, balance, events[..n]);
      StepOwn(d, terms, Run(d, Opening(balance), events[..n]), events[n]);
    }
  }

  /** Over every CRYPTO run: cash plus what the open lots cost with their entry fees is the opening balance plus all
      realized results, exactly in exact arithmetic and otherwise within the rounding of each recorded trade. */
  lemma CryptoLedgerBalances(d: Desk, terms: Terms, balance: real, events: seq<Event>)
    requires d.market.CRYPTO? && DeskOk(d, terms) && balance >= 0.0 && AllAdmissible(d, terms, events)
    ensures var b := Run(d, Opening(balance), events);
            && Abs(b.cash + OwnHeld(b.open) - balance - TotalRealized(b.lots)) <= Drift(b.trades, terms.e2, terms.e4)
            && (terms.e2 == 0.0 && terms.e4 == 0.0 ==> b.cash + OwnHeld(b.open) == balance + TotalRealized(b.lots))
  {
    hide Run, OwnHeld, TotalRealized, Drift, DeskOk, AllAdmissible, Opening;
    RunOwn(d, terms, balance, events);
    RunKeepsStart(d, balance, events);
    ExactDrift(Run(d, Opening(balance), events).trades);
  }
}
