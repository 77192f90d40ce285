/** What every open lot of the broker carries, over every run: the stop and the expiry its policy asks for, on
    CRYPTO the target of its entry, its own price as basis, and what it would bring at its last price. */
module BrokerTerms {
  import opened Common
  import opened Fifo
  import opened Fees
  import opened LotPolicy
  import opened Broker
  import opened BrokerCore
  import opened BrokerLedger
  import opened BrokerRuns
  import opened BrokerEvents
  import opened BrokerTargets

  /** The price this percentage above another, or below it. */
  ghost function Above(price: real, pct: real): real { price + price * pct / 100.0 }

  ghost predicate Stops(d: Desk, lot: Lot) {
    var policy := lot.config.policy;
    && (policy.stopLossPct.Some? ==>
          lot.stop == Some(d.rounding.four(Above(lot.entryPrice, -policy.stopLossPct.value))))
    && lot.expires == (if policy.maximumHoldingBars.Some? && policy.maximumHoldingBars.value > 0
                       then Some(lot.entryAt + d.barSeconds(lot.timeframe) * policy.maximumHoldingBars.value)
                       else None)
  }

  ghost predicate Aims(d: Desk, lot: Lot) {
    lot.config.targetPct.Some? && lot.config.targetPct.value != 0.0 ==>
      lot.target == d.rounding.four(Above(lot.entryPrice, lot.config.targetPct.value))
  }

  /** A lot worth this much at its last price, less its own cost and fees. */
  ghost predicate OwnMark(lot: Lot, e: real) {
    && lot.costBasis == lot.entryPrice
    && Abs(lot.unrealized - (Worth(lot.lastPrice, lot.quantity) - Worth(lot.entryPrice, lot.quantity) - lot.fees)) <= e
  }

  ghost predicate Carries(d: Desk, terms: Terms, lot: Lot) {
    Stops(d, lot) && (d.market.CRYPTO? ==> Aims(d, lot) && OwnMark(lot, terms.e2 + terms.e4))
  }

  ghost predicate AllCarry(d: Desk, terms: Terms, lots: seq<Lot>) { forall x :: x in lots ==> Carries(d, terms, x) }

  lemma UnrealizedIs(d: Desk, terms: Terms, entry: real, last: real, q: real, fees: real)
    requires DeskOk(d, terms)
    ensures Abs(UnrealizedPnl(d, entry, last, q, fees) - (Worth(last, q) - Worth(entry, q) - fees)) <= terms.e2
  {
    hide Worth;
    WorthMinus(last, entry, q);
  }

  lemma MovedIs(price: real, pct: real)
    ensures Lower(price, pct) == Above(price, -pct) && Higher(price, pct) == Above(price, pct)
  {}

  lemma NewLotCarries(d: Desk, terms: Terms, b: Book, sig: Signal, at: int, v: Verdict)
    requires DeskOk(d, terms) && v.Accept?
    ensures Carries(d, terms, NewLot(d, b, sig, at, v))
  {
    var lot := NewLot(d, b, sig, at, v);
    NewLotStops(d, b, sig, at, v);
    NewLotAims(d, b, sig, at, v);
    UnrealizedIs(d, terms, lot.entryPrice, lot.entryPrice, v.quantity, v.fill.fees);
    assert Abs(d.rounding.four(v.fill.fees) - v.fill.fees) <= terms.e4;
    hide Worth, Above, UnrealizedPnl, Stops, Aims;
  }

  lemma NewLotStops(d: Desk, b: Book, sig: Signal, at: int, v: Verdict)
    requires v.Accept?
    ensures Stops(d, NewLot(d, b, sig, at, v))
  {
    hide Above, UnrealizedPnl, TargetPct, Lower, Higher;
    if sig.config.policy.stopLossPct.Some? {
      var price, pct := d.rounding.four(v.fill.price), sig.config.policy.stopLossPct.value;
      MovedIs(price, pct);
    }
  }

  lemma NewLotAims(d: Desk, b: Book, sig: Signal, at: int, v: Verdict)
    requires v.Accept?
    ensures Aims(d, NewLot(d, b, sig, at, v))
  {
    hide Above, UnrealizedPnl, Lower, Higher;
    if sig.config.targetPct.Some? && sig.config.targetPct.value != 0.0 {
      var price, pct := d.rounding.four(v.fill.price), sig.config.targetPct.value;
      MovedIs(price, pct);
    }
  }

  /** The percentage an entry aims at: the snapshot's, else the distance of the signal's target from its price, else one
      percent. A value of zero counts as missing. */
  ghost predicate AimsAt(sig: Signal, pct: real) {
    if sig.config.targetPct.Some? && sig.config.targetPct.value != 0.0 then pct == sig.config.targetPct.value
    else if sig.targetPrice.Some? && sig.targetPrice.value != 0.0
    then pct * sig.price == (sig.targetPrice.value - sig.price) * 100.0
    else pct == 1.0
  }

  /** What an entry takes from its signal: the target, and the stop where the policy has none. */
  lemma SignalTerms(d: Desk, b: Book, sig: Signal, at: int, v: Verdict) returns (pct: real)
    requires v.Accept? && !TargetPctRaises(sig)
    ensures var lot := NewLot(d, b, sig, at, v);
            && AimsAt(sig, pct) && lot.target == d.rounding.four(Above(lot.entryPrice, pct))
            && (sig.config.policy.stopLossPct.None? ==> lot.stop == sig.stopPrice)
  {
    pct := TargetPct(sig);
    MovedIs(d.rounding.four(v.fill.price), pct);
    if sig.price != 0.0 && sig.targetPrice.Some? {
      assert sig.targetPrice.value / sig.price * sig.price == sig.targetPrice.value;
    }
    hide Above, Lower, Higher, UnrealizedPnl;
  }

  lemma RemarkCarries(d: Desk, terms: Terms, queue: seq<Slice>, lot: Lot, close: real)
    requires DeskOk(d, terms) && Sound(queue) && Carries(d, terms, lot) && Remark(d, queue, lot, close).Some?
    ensures Carries(d, terms, Remark(d, queue, lot, close).value.0)
  {
    hide Worth, Above, UnrealizedPnl, Sale, TargetPrice.NetTarget;
    UnrealizedIs(d, terms, lot.entryPrice, close, lot.quantity, lot.fees);
  }

  lemma {:induction false} ReplacedFrom(open: seq<Lot>, mark: Lot)
    ensures forall x :: x in Replace(open, mark) ==> x in open || x == mark
  {
    if open != [] && open[0].id != mark.id { ReplacedFrom(open[1..], mark); }
  }

  lemma {:induction false} MarkingCarries(d: Desk, terms: Terms, o: Out, lots: seq<Lot>, close: real, n: nat)
    requires DeskOk(d, terms) && n <= |lots| && SoundInventories(o.book.inventories)
    requires AllCarry(d, terms, o.book.open) && AllCarry(d, terms, lots)
    ensures AllCarry(d, terms, MarkLots(d, o, lots, close, n).book.open)
  {
    hide Carries, Remark, DeskOk;
    if n > 0 {
      MarkingCarries(d, terms, o, lots, close, n - 1);
      var p, lot := MarkLots(d, o, lots, close, n - 1), lots[n - 1];
      var queue := QueueOf(p.book.inventories, lot.symbol);
      if Remark(d, queue, lot, close).Some? {
        assert lot in lots;
        RemarkCarries(d, terms, queue, lot, close);
        ReplacedFrom(p.book.open, Remark(d, queue, lot, close).value.0);
      }
    }
  }

  lemma {:induction false} LotsForCarry(
    d: Desk, terms: Terms, open: seq<Lot>, symbol: string, timeframe: Option<string>)
    requires AllCarry(d, terms, open)
    ensures AllCarry(d, terms, LotsFor(open, symbol, timeframe))
  {
    hide Carries;
    if open != [] {
      var n := |open| - 1;
      assert open == open[..n] + [open[n]] && open[n] in open;
      LotsForCarry(d, terms, open[..n], symbol, timeframe);
    }
  }

  lemma FillCarries(d: Desk, terms: Terms, b: Book, sig: Signal, reference: real, at: int)
    requires DeskOk(d, terms) && SoundInventories(b.inventories) && AllCarry(d, terms, b.open)
    ensures AllCarry(d, terms, FillEntry(d, b, sig, reference, at).book.open)
  {
    hide Judge, MarkLots, LotsFor, NewLot, Carries, DeskOk;
    var v := Judge(d, b, sig, reference, at);
    if v.Accept? && Enter(d, b, sig, at, v).ok {
      NewLotCarries(d, terms, b, sig, at, v);
      var entered := Enter(d, b, sig, at, v);
      var lots := LotsFor(entered.book.open, sig.symbol, None);
      LotsForCarry(d, terms, entered.book.open, sig.symbol, None);
      MarkingCarries(d, terms, entered, lots, d.rounding.four(v.fill.price), |lots|);
    }
  }

  lemma {:induction false} FillsCarry(d: Desk, terms: Terms, o: Out, c: Candle, queue: seq<Pending>, n: nat)
    requires DeskOk(d, terms) && n <= |queue| && SoundInventories(o.book.inventories)
    requires AllCarry(d, terms, o.book.open)
    ensures AllCarry(d, terms, FillPendings(d, o, c, queue, n).book.open)
  {
    hide FillEntry, Executable, AllCarry, DeskOk;
    if n > 0 {
      FillsCarry(d, terms, o, c, queue, n - 1);
      FillCarries(d, terms, FillPendings(d, o, c, queue, n - 1).book, queue[n - 1].signal, c.open, c.at);
    }
  }

  lemma CandleCarries(d: Desk, terms: Terms, b: Book, c: Candle)
    requires DeskOk(d, terms) && SoundInventories(b.inventories) && AllCarry(d, terms, b.open)
    ensures AllCarry(d, terms, OnCandle(d, b, c).book.open)
  {
    FillsCarry(d, terms, Out(b.(pending := []), true), c, b.pending, |b.pending|);
    hide FillPendings, ExitScan, MarkLots, QueueLadders, LotsFor, OtherSymbols, Carries, DeskOk;
    var filled := FillQueue(d, b, c);
    var lots := LotsFor(filled.book.open, c.symbol, c.lotTimeframe);
    ExitsOnlyClose(d, filled, c, lots, |lots|);
    var exits := ExitScan(d, filled, c, lots, |lots|).out;
    var remaining := LotsFor(exits.book.open, c.symbol, c.lotTimeframe);
    LotsForCarry(d, terms, exits.book.open, c.symbol, c.lotTimeframe);
    MarkingCarries(d, terms, exits, remaining, c.close, |remaining|);
    LaddersOnlyQueue(d, MarkLots(d, exits, remaining, c.close, |remaining|), c, remaining, |remaining|);
  }

  lemma StepCarries(d: Desk, terms: Terms, b: Book, e: Event)
    requires DeskOk(d, terms) && SoundInventories(b.inventories) && AllCarry(d, terms, b.open)
    ensures AllCarry(d, terms, Step(d, b, e).open)
  {
    hide OnCandle, FillEntry, MarkLots, LotsFor, LotsOfKey, PendingConflict, Basis, ClosedRow, ExitProceeds, Remove,
         Carries, DeskOk;
    match e
    case SignalEvent(sig, now) => FillCarries(d, terms, b, sig, sig.price, sig.at);
    case CandleEvent(c) => CandleCarries(d, terms, b, c);
    case ManualCloseEvent(k, at) =>
      if k < |b.open| {
        var lot := b.open[k];
        var closed := CloseLot(d, b, lot, CLOSED, lot.lastPrice, at);
        RemovedFrom(b.open, lot.id);
        var lots := LotsFor(closed.book.open, lot.symbol, None);
        LotsForCarry(d, terms, closed.book.open, lot.symbol, None);
        MarkingCarries(d, terms, closed, lots, lot.lastPrice, |lots|);
      }
  }

  /** Over every run, whatever the events: every open lot has the stop its policy's percentage below its entry, and
      expires as many bars after it as the policy says; on CRYPTO its target is its percentage above the entry,
      its basis its own price, and its mark what it would bring at its last price less its cost and fees. */
  lemma {:induction false} RunCarries(d: Desk, terms: Terms, balance: real, events: seq<Event>)
    requires DeskOk(d, terms)
    ensures AllCarry(d, terms, Run(d, Opening(balance), events).open)
  {
    hide Step, DeskOk, Carries;
    if events != [] {
      var n := |events| - 1;
      RunCarries(d, terms, balance, events[..n]);
      var before := Run(d, Opening(balance), events[..n]);
      if SoundInventories(before.inventories) { StepCarries(d, terms, before, events[n]); }
    }
  }

  // ---- what a mark and a close store ------------------------------------------------------------------------------

  /** Cost and entry fees of the units a sale of this lot takes: the first of the queue on NSE, its own on CRYPTO. */
  ghost function UnitCost(d: Desk, queue: seq<Slice>, lot: Lot): real
    requires Sound(queue)
  {
    if d.market.NSE? then AllocatedCost(Taken(queue, lot.quantity)) else Worth(lot.entryPrice, lot.quantity)
  }

  ghost function UnitFees(d: Desk, queue: seq<Slice>, lot: Lot): real
    requires Sound(queue)
  {
    if d.market.NSE? then AllocatedFees(Taken(queue, lot.quantity)) else lot.fees
  }

  /** The row a close leaves: its status and time, nothing unrealized, all fees, and as its result what the sale brought
      less what the units had cost, up to rounding. */
  ghost predicate ClosedRight(
    d: Desk, terms: Terms, queue: seq<Slice>, lot: Lot, row: Lot, status: Status, raw: real, at: int)
    requires Sound(queue)
  {
    var q, fill := lot.quantity, d.fees.sell(raw, lot.quantity);
    && row.status == status && row.exitAt == Some(at) && row.unrealized == 0.0
    && Abs(row.lastPrice - fill.price) <= terms.e4
    && Abs(row.fees - (UnitFees(d, queue, lot) + fill.fees)) <= terms.e4
    && Abs(row.realized - (Proceeds(d.fees, raw, q) - UnitCost(d, queue, lot) - UnitFees(d, queue, lot)))
       <= 2.0 * terms.e4 * q + terms.e4 + terms.e2
  }

  lemma ClosedRowFields(
    d: Desk, terms: Terms, row: Lot, basis: (real, real), fill: Fill, q: real, status: Status, at: int)
    requires DeskOk(d, terms) && row.status == OPEN
    ensures var r := ClosedRow(d, row, basis, fill, q, status, at);
            && r.status == status && r.exitAt == Some(at) && r.unrealized == 0.0
            && Abs(r.lastPrice - fill.price) <= terms.e4 && Abs(r.fees - (basis.1 + fill.fees)) <= terms.e4
            && r.realized == RealizedPnl(d, basis.0, d.rounding.four(fill.price), q,
                                         d.rounding.four(basis.1 + fill.fees))
  {
    hide RealizedPnl;
  }

  lemma BasisIs(d: Desk, terms: Terms, queue: seq<Slice>, lot: Lot)
    requires DeskOk(d, terms) && Sound(queue) && Basis(d, queue, lot).Some? && lot.quantity > 0.0
    requires d.market.NSE? ==> WholeUnits(queue) && Whole(lot.quantity)
    ensures UnitFees(d, queue, lot) == Basis(d, queue, lot).value.1
    ensures exists exact :: Worth(exact, lot.quantity) == UnitCost(d, queue, lot)
                            && Abs(Basis(d, queue, lot).value.0 - exact) <= terms.e4
  {
    hide Sale, Taken, AllocatedCost, AllocatedFees, Worth;
    if d.market.NSE? {
      SaleExact(queue, lot.quantity);
      var m := Sale(queue, lot.quantity).value.0;
      assert Worth(m.costBasis, lot.quantity) == UnitCost(d, queue, lot);
    } else {
      assert Worth(lot.entryPrice, lot.quantity) == UnitCost(d, queue, lot);
    }
  }

  /** Closing any open lot of any sane account goes through and leaves the right row. */
  lemma CloseIsRight(d: Desk, terms: Terms, b: Book, k: nat, status: Status, raw: real, at: int)
    requires DeskOk(d, terms) && Sane(d, terms, b) && k < |b.open| && status != OPEN
    ensures SoundInventories(b.inventories)
    ensures var lot, r := b.open[k], CloseLot(d, b, b.open[k], status, raw, at);
            && r.ok && lot.id < |r.book.lots|
            && ClosedRight(d, terms, QueueOf(b.inventories, lot.symbol), lot, r.book.lots[lot.id], status, raw, at)
  {
    hide Sane, DeskOk, Mirrors, SoldFrom, SameTerms, ClosedRow, Basis, UnitCost, UnitFees, Proceeds, Worth, RealizedPnl,
         CloseLot;
    SaneBasics(d, terms, b);
    var lot := b.open[k];
    OpenLotFacts(d, terms, b, k);
    CloseBook(d, terms, b, lot, k, status, raw, at);
    var queue, fill := QueueOf(b.inventories, lot.symbol), d.fees.sell(raw, lot.quantity);
    CloseRowIs(d, b, lot, status, raw, at);
    var basis := Basis(d, queue, lot).value;
    BasisIs(d, terms, queue, lot);
    ClosedRowFields(d, terms, b.lots[lot.id], basis, fill, lot.quantity, status, at);
    var exact :| Worth(exact, lot.quantity) == UnitCost(d, queue, lot) && Abs(basis.0 - exact) <= terms.e4;
    ResultIs(d, terms, fill, exact, basis.0, basis.1, raw, lot.quantity);
  }

  lemma CloseRowIs(d: Desk, b: Book, lot: Lot, status: Status, raw: real, at: int)
    requires SoundInventories(b.inventories) && CloseLot(d, b, lot, status, raw, at).ok
    ensures var r := CloseLot(d, b, lot, status, raw, at).book;
            var basis := Basis(d, QueueOf(b.inventories, lot.symbol), lot);
            && basis.Some? && lot.id < |b.lots| && |r.lots| == |b.lots|
            && r.lots[lot.id] == ClosedRow(d, b.lots[lot.id], basis.value, d.fees.sell(raw, lot.quantity), lot.quantity,
                                           status, at)
  {
    hide Basis, ClosedRow, Remove, ExitProceeds, Sale;
  }

  lemma ResultIs(d: Desk, terms: Terms, fill: Fill, exact: real, cost: real, fees: real, raw: real, q: real)
    requires DeskOk(d, terms) && q > 0.0 && Abs(cost - exact) <= terms.e4 && fill == d.fees.sell(raw, q)
    ensures var booked := d.rounding.four(fees + fill.fees);
            var result := RealizedPnl(d, cost, d.rounding.four(fill.price), q, booked);
            Abs(result - (Proceeds(d.fees, raw, q) - Worth(exact, q) - fees))
            <= 2.0 * terms.e4 * q + terms.e4 + terms.e2
  {
    hide RealizedPnl, Worth;
    BookedDrift(d, fill, exact, cost, fees, q, terms.e2, terms.e4);
  }

  lemma OpenLotFacts(d: Desk, terms: Terms, b: Book, k: nat)
    requires Sane(d, terms, b) && k < |b.open|
    ensures var lot := b.open[k];
            && lot.id < |b.lots| && SameTerms(b.lots[lot.id], lot) && b.lots[lot.id].status == OPEN
            && lot.quantity > 0.0
            && (d.market.NSE? ==> WholeUnits(QueueOf(b.inventories, lot.symbol)) && Whole(lot.quantity))
  {
    hide Paired, Covers, Limited, Configs, QueueAfter, Quantity, OpenQuantity, ValidTrades;
    assert SameLot(b.lots[b.open[k].id], b.open[k]);
    if d.market.NSE? { assert StockedIn(b, b.open[k].symbol); }
  }

  /** A mark that goes through stores the cached lot's new marks in its row, and there the entry fees of the units
      the lot would sell. */
  lemma MarkStores(d: Desk, terms: Terms, o: Out, lot: Lot, close: real)
    requires Sane(d, terms, o.book) && lot.id < |o.book.lots| && o.book.lots[lot.id].status == OPEN
    requires SameTerms(o.book.lots[lot.id], lot) && lot.quantity > 0.0 && MarkOne(d, o, lot, close).ok
    requires d.market.NSE? ==> WholeUnits(QueueOf(o.book.inventories, lot.symbol)) && Whole(lot.quantity)
    ensures var row := MarkOne(d, o, lot, close).book.lots[lot.id];
            var queue := QueueOf(o.book.inventories, lot.symbol);
            && row.lastPrice == close && row.fees == UnitFees(d, queue, lot)
            && exists mark :: mark in MarkOne(d, o, lot, close).book.open && SameLot(row, mark) && mark.fees == lot.fees
  {
    hide Paired, Covers, Limited, Configs, Accounted, Sizes, Mirrors, Sale, Taken, AllocatedCost,
         AllocatedFees, UnrealizedPnl, TargetPrice.NetTarget, Replace;
    var queue := QueueOf(o.book.inventories, lot.symbol);
    var mark := Remark(d, queue, lot, close).value.0;
    if d.market.NSE? { SaleExact(queue, lot.quantity); }
    ReplacesWith(o.book.open, mark);
  }

  lemma {:induction false} ReplacesWith(open: seq<Lot>, mark: Lot)
    ensures mark in Replace(open, mark)
  {
    if open != [] && open[0].id != mark.id { ReplacesWith(open[1..], mark); }
  }

  // ---- closing by hand, and the price of a mark -----------------------------------------------------------------

  /** Closing an open lot by hand raises, and changes nothing, exactly when there is no positive mark; otherwise
      it sells the lot at its last price, whatever the re-mark that follows does. */
  lemma ClosedByHandExactlyWhen(d: Desk, terms: Terms, b: Book, k: nat, at: int)
    requires DeskOk(d, terms) && Sane(d, terms, b) && k < |b.open|
    ensures SoundInventories(b.inventories)
    ensures var lot, r := b.open[k], OnManualClose(d, b, k, at);
            var fill := d.fees.sell(lot.lastPrice, lot.quantity);
            if lot.lastPrice <= 0.0 then r == Out(b, false)
            else
              && r.book.trades ==
                   b.trades + [Trade(lot.id, lot.symbol, false, lot.quantity, d.rounding.four(fill.price),
                                     d.rounding.four(fill.fees), at)]
              && r.book.cash == b.cash + Worth(fill.price, lot.quantity) - fill.fees
              && lot.id < |r.book.lots| && r.book.lots[lot.id].status == CLOSED
  {
    SaneBasics(d, terms, b);
    var lot := b.open[k];
    if lot.lastPrice > 0.0 {
      OpenLotFacts(d, terms, b, k);
      hide Sane, DeskOk, Mirrors, SameTerms, CloseLot, MarkLots, LotsFor, Worth;
      CloseBook(d, terms, b, lot, k, CLOSED, lot.lastPrice, at);
      var closed := CloseLot(d, b, lot, CLOSED, lot.lastPrice, at);
      CloseIsRight(d, terms, b, k, CLOSED, lot.lastPrice, at);
      var lots := LotsFor(closed.book.open, lot.symbol, None);
      MarkingLeaves(d, closed, lots, lot.lastPrice, |lots|);
    }
  }

  lemma {:induction false} MarkingLeaves(d: Desk, o: Out, lots: seq<Lot>, close: real, n: nat)
    requires n <= |lots| && SoundInventories(o.book.inventories)
    ensures var r := MarkLots(d, o, lots, close, n).book;
            && r.trades == o.book.trades && r.cash == o.book.cash && |r.lots| == |o.book.lots|
            && forall i :: 0 <= i < |r.lots| ==> r.lots[i].status == o.book.lots[i].status
  {
    hide Remark, Replace;
    if n > 0 { MarkingLeaves(d, o, lots, close, n - 1); }
  }

  /** The first n of these lots, where still open, were last marked at this price. */
  ghost predicate LastAt(open: seq<Lot>, lots: seq<Lot>, n: nat, close: real)
    requires n <= |lots|
  {
    forall x, i :: x in open && 0 <= i < n && x.id == lots[i].id ==> x.lastPrice == close
  }

  lemma LastAtNext(open: seq<Lot>, mark: Lot, lots: seq<Lot>, n: nat, close: real)
    requires n < |lots| && LastAt(open, lots, n, close) && Ascending(open) && mark.id in Ids(open)
    requires mark.id == lots[n].id && mark.lastPrice == close
    ensures LastAt(Replace(open, mark), lots, n + 1, close)
  {
    var k := IndexOf(open, mark.id);
    ReplaceIs(open, mark, k);
    hide Replace, Ids;
    var after := open[k := mark];
    forall x, i | x in after && 0 <= i < n + 1 && x.id == lots[i].id ensures x.lastPrice == close {
      var m :| 0 <= m < |after| && after[m] == x;
      if m != k { assert x == open[m] && x in open && x.id != mark.id; }
    }
  }

  lemma {:induction false} MarkedAtPrice(d: Desk, terms: Terms, o: Out, lots: seq<Lot>, close: real, n: nat)
    requires Sane(d, terms, o.book) && n <= |lots| && Current(o.book, lots)
    requires SoundInventories(o.book.inventories) && MarkLots(d, o, lots, close, n).ok
    ensures LastAt(MarkLots(d, o, lots, close, n).book.open, lots, n, close)
  {
    hide Sane, MarkOne, LastAt, Current, Ids, Ascending, Mirrors;
    if n == 0 {
      NoneYet(o.book.open, lots, close);
    } else {
      var p := MarkLots(d, o, lots, close, n - 1);
      assert p.ok by { MarkOneOk(d, p, lots[n - 1], close); }
      MarkedAtPrice(d, terms, o, lots, close, n - 1);
      MarkLotsKeeps(d, terms, o, lots, close, n - 1);
      SaneBasics(d, terms, p.book);
      assert lots[n - 1].id in Ids(p.book.open) by { CurrentIsOpen(p.book, lots, n - 1); }
      MarkOneAtPrice(d, p, lots, n - 1, close);
    }
  }

  lemma NoneYet(open: seq<Lot>, lots: seq<Lot>, close: real)
    ensures LastAt(open, lots, 0, close)
  {}

  lemma MarkOneAtPrice(d: Desk, o: Out, lots: seq<Lot>, n: nat, close: real)
    requires n < |lots| && SoundInventories(o.book.inventories) && LastAt(o.book.open, lots, n, close)
    requires Ascending(o.book.open) && lots[n].id in Ids(o.book.open) && MarkOne(d, o, lots[n], close).ok
    ensures LastAt(MarkOne(d, o, lots[n], close).book.open, lots, n + 1, close)
  {
    hide LastAt, Ascending, Ids, Replace, Sale, TargetPrice.NetTarget, UnrealizedPnl;
    var mark := Remark(d, QueueOf(o.book.inventories, lots[n].symbol), lots[n], close).value.0;
    LastAtNext(o.book.open, mark, lots, n, close);
  }

  /** A candle that goes through leaves every open lot it concerns marked at its close. */
  lemma CandleMarksAtClose(d: Desk, terms: Terms, b: Book, c: Candle)
    requires DeskOk(d, terms) && Clean(d, c.open) && Sane(d, terms, b)
    ensures SoundInventories(b.inventories)
    ensures OnCandle(d, b, c).ok ==>
              forall x :: x in OnCandle(d, b, c).book.open && Concerns(c, x) ==> x.lastPrice == c.close
  {
    hide Sane, FillQueue, ExitScan, MarkLots, QueueLadders, LotsFor, Clean, DeskOk, Current, Mirrors, LastAt,
         CurrentFrom;
    SaneBasics(d, terms, b);
    FillQueueKeeps(d, terms, b, c);
    var filled := FillQueue(d, b, c);
    if OnCandle(d, b, c).ok {
      var lots := LotsFor(filled.book.open, c.symbol, c.lotTimeframe);
      SaneBasics(d, terms, filled.book);
      LotsForCurrent(filled.book, c.symbol, c.lotTimeframe);
      ExitScanKeeps(d, terms, filled, c, lots, |lots|);
      var exits := ExitScan(d, filled, c, lots, |lots|).out;
      SaneBasics(d, terms, exits.book);
      var remaining := LotsFor(exits.book.open, c.symbol, c.lotTimeframe);
      LotsForCurrent(exits.book, c.symbol, c.lotTimeframe);
      var marked := MarkLots(d, exits, remaining, c.close, |remaining|);
      LaddersOk(d, marked, c, remaining, |remaining|);
      LaddersOnlyQueue(d, marked, c, remaining, |remaining|);
      MarkedAtPrice(d, terms, exits, remaining, c.close, |remaining|);
      ListedAreMarked(d, terms, exits, c.symbol, c.lotTimeframe, c.close);
    }
  }

  ghost predicate IsOf(x: Lot, symbol: string, timeframe: Option<string>) {
    x.symbol == symbol && (timeframe.None? || x.timeframe == timeframe.value)
  }

  /** Marking the listed lots marks all that are listed. */
  lemma ListedAreMarked(d: Desk, terms: Terms, o: Out, symbol: string, timeframe: Option<string>, close: real)
    requires Sane(d, terms, o.book) && SoundInventories(o.book.inventories)
    requires var lots := LotsFor(o.book.open, symbol, timeframe);
             LastAt(MarkLots(d, o, lots, close, |lots|).book.open, lots, |lots|, close)
    ensures var lots := LotsFor(o.book.open, symbol, timeframe);
            forall x :: x in MarkLots(d, o, lots, close, |lots|).book.open && IsOf(x, symbol, timeframe) ==>
              x.lastPrice == close
  {
    var lots := LotsFor(o.book.open, symbol, timeframe);
    var open := MarkLots(d, o, lots, close, |lots|).book.open;
    hide Sane, MarkLots, LotsFor, Mirrors, LastAt;
    SaneBasics(d, terms, o.book);
    LotsForIs(o.book.open, symbol, timeframe);
    MarkingKeys(d, o, lots, close, |lots|);
    forall x | x in open && IsOf(x, symbol, timeframe) ensures x.lastPrice == close {
      var y :| y in o.book.open && y.id == x.id && y.symbol == x.symbol && y.timeframe == x.timeframe;
      IsListed(o.book.open, symbol, timeframe, y);
      ListedIsMarked(open, lots, close, x, y);
    }
  }

  lemma ListedIsMarked(open: seq<Lot>, lots: seq<Lot>, close: real, x: Lot, y: Lot)
    requires LastAt(open, lots, |lots|, close) && x in open && y in lots && y.id == x.id
    ensures x.lastPrice == close
  {
    var i :| 0 <= i < |lots| && lots[i] == y;
  }

  lemma {:induction false} IsListed(open: seq<Lot>, symbol: string, timeframe: Option<string>, x: Lot)
    requires x in open && IsOf(x, symbol, timeframe)
    ensures x in LotsFor(open, symbol, timeframe)
  {
    var n := |open| - 1;
    if x != open[n] {
      assert x in open[..n];
      IsListed(open[..n], symbol, timeframe, x);
    }
  }

  /** An entry that goes through leaves every open lot of its symbol marked at the stored price of its fill. */
  lemma EntryMarksAtFill(d: Desk, terms: Terms, b: Book, sig: Signal, reference: real, at: int)
    requires DeskOk(d, terms) && Clean(d, reference) && Sane(d, terms, b) && Allowed(d, terms, sig.config)
    ensures SoundInventories(b.inventories)
    ensures var v, r := Judge(d, b, sig, reference, at), FillEntry(d, b, sig, reference, at);
            v.Accept? && r.ok ==>
              forall x :: x in r.book.open && x.symbol == sig.symbol ==> x.lastPrice == d.rounding.four(v.fill.price)
  {
    hide Sane, Judge, MarkLots, LotsFor, NewLot, Clean, DeskOk, Allowed, Current, Mirrors, LastAt, Enter;
    SaneBasics(d, terms, b);
    var v := Judge(d, b, sig, reference, at);
    if v.Accept? && FillEntry(d, b, sig, reference, at).ok {
      EnterKeeps(d, terms, b, sig, reference, at);
      var entered := Enter(d, b, sig, at, v);
      SaneBasics(d, terms, entered.book);
      LotsForCurrent(entered.book, sig.symbol, None);
      var lots, price := LotsFor(entered.book.open, sig.symbol, None), d.rounding.four(v.fill.price);
      if entered.ok {
        MarkedAtPrice(d, terms, entered, lots, price, |lots|);
        ListedAreMarked(d, terms, entered, sig.symbol, None, price);
      }
    }
  }

  /** Marking makes no new lot: each one has the key of one that was open or was marked. */
  lemma {:induction false} MarkingKeys(d: Desk, o: Out, lots: seq<Lot>, close: real, n: nat)
    requires n <= |lots| && SoundInventories(o.book.inventories) && forall y :: y in lots ==> y in o.book.open
    ensures forall x :: x in MarkLots(d, o, lots, close, n).book.open ==>
              exists y :: y in o.book.open && y.id == x.id && y.symbol == x.symbol && y.timeframe == x.timeframe
  {
    hide Sale, TargetPrice.NetTarget, UnrealizedPnl, Replace;
    if n > 0 {
      MarkingKeys(d, o, lots, close, n - 1);
      var p, lot := MarkLots(d, o, lots, close, n - 1), lots[n - 1];
      assert lot in lots;
      var marked := Remark(d, QueueOf(p.book.inventories, lot.symbol), lot, close);
      if marked.Some? { ReplacedFrom(p.book.open, marked.value.0); }
    }
  }
}
