/** Safety over whole broker runs: one invariant over tables, caches, inventories, limits and ledger
    that every operation keeps, whatever the signals, candles and manual closes, and also when
    an operation raises part way. */
module BrokerRuns {
  import opened Common
  import opened Fifo
  import opened Fees
  import opened LotPolicy
  import opened Broker
  import opened BrokerCore
  import opened BrokerCycles
  import opened BrokerLedger
  import opened BrokerRisk

  /** Upper bounds on the policies in use and on rounding errors. */
  datatype Terms = Terms(positions: nat, daily: nat, e2: real, e4: real)

  ghost predicate DeskOk(d: Desk, terms: Terms) {
    d.rounding.Within(terms.e2, terms.e4) && terms.e2 >= 0.0 && terms.e4 >= 0.0
  }

  ghost predicate Allowed(d: Desk, terms: Terms, config: Config) {
    && ConfigOk(d, config)
    && config.policy.maximumOpenPositions <= terms.positions
    && config.policy.maximumDailyTrades <= terms.daily
  }

  /** Fills at this reference price have a positive stored price and no negative stored fees. */
  ghost predicate Clean(d: Desk, reference: real) {
    forall q :: q > 0.0 ==>
      d.rounding.four(d.fees.buy(reference, q).price) > 0.0 && d.rounding.four(d.fees.buy(reference, q).fees) >= 0.0
  }

  ghost predicate Tables(b: Book) {
    && Mirrors(b.lots, b.open) && Paired(b.trades) && Covers(b.trades, b.lots)
    && Cycles(b.lots) && OncePerSignal(b.orders)
    && (forall i :: 0 <= i < |b.lots| && b.lots[i].status == OPEN ==> b.lots[i].realized == 0.0)
  }

  ghost predicate Sizes(b: Book) {
    && (forall i :: 0 <= i < |b.open| ==> b.open[i].quantity > 0.0)
    && (forall i :: 0 <= i < |b.trades| ==> b.trades[i].quantity > 0.0)
  }

  ghost predicate Configs(d: Desk, terms: Terms, b: Book) {
    && (forall i :: 0 <= i < |b.lots| ==> Allowed(d, terms, b.lots[i].config))
    && (forall i :: 0 <= i < |b.pending| ==> Allowed(d, terms, b.pending[i].signal.config))
  }

  /** The limits: positions, purchases per day within the log read, cash up to recorded shortfalls. */
  ghost predicate Limited(d: Desk, terms: Terms, b: Book) {
    && |Positions(b.open)| <= terms.positions
    && DailyWithin(b.trades, d.day, terms.daily)
    && b.cash + Shortfall(b.trades, terms.e4) >= 0.0
  }

  /** NSE accounting: inventories are the FIFO replay of the log and hold the open lots' units, and
      cash, inventory and results balance. */
  ghost predicate Accounted(d: Desk, terms: Terms, b: Book) {
    d.market.NSE? ==>
      WholeLots(b.open) && ValidTrades(b.trades) && AllStocked(b) && Conserved(b, terms.e2, terms.e4)
  }

  ghost predicate Sane(d: Desk, terms: Terms, b: Book) {
    && SoundInventories(b.inventories)
    && Tables(b) && Sizes(b) && Configs(d, terms, b) && Limited(d, terms, b) && Accounted(d, terms, b)
  }

  lemma SaneBasics(d: Desk, terms: Terms, b: Book)
    requires Sane(d, terms, b)
    ensures Ascending(b.open) && Mirrors(b.lots, b.open) && SoundInventories(b.inventories)
  {}

  lemma AllowedIsOk(d: Desk, terms: Terms, config: Config)
    requires Allowed(d, terms, config)
    ensures ConfigOk(d, config)
  {}

  // ---- entering -----------------------------------------------------------------------------------

  /** The row a purchase adds to the trade log. */
  ghost function PurchaseOf(lot: Lot): Trade {
    Trade(lot.id, lot.symbol, true, lot.quantity, lot.entryPrice, lot.fees, lot.entryAt)
  }

  /** An accepted entry and the lot row it makes. */
  ghost predicate Entry(d: Desk, b: Book, sig: Signal, reference: real, at: int, v: Verdict, lot: Lot) {
    && v.Accept? && v.fill == d.fees.buy(reference, v.quantity) && v.cost == EntryCost(v.fill, v.quantity) <= b.cash
    && lot.id == |b.lots| && KeyOf(lot) == (sig.symbol, sig.strategy, sig.timeframe)
    && lot.cycle == v.cycle && lot.number == v.number && lot.entryAt == at && lot.quantity == v.quantity
    && lot.entryPrice == d.rounding.four(v.fill.price) && lot.fees == d.rounding.four(v.fill.fees)
    && lot.config == sig.config && lot.status == OPEN && lot.realized == 0.0
    && lot.quantity > 0.0 && (d.market.NSE? ==> Whole(lot.quantity))
  }

  lemma EntryFacts(d: Desk, b: Book, sig: Signal, reference: real, at: int)
    requires ConfigOk(d, sig.config) && Judge(d, b, sig, reference, at).Accept?
    ensures var v := Judge(d, b, sig, reference, at); Entry(d, b, sig, reference, at, v, NewLot(d, b, sig, at, v))
  {
    AcceptedChecks(d, b, sig, reference, at);
    hide Judge, PortfolioRejection, EntryQuantity, AlreadyFilled, EntryCost;
    var v := Judge(d, b, sig, reference, at);
    FilledSize(d, sig, reference, v.quantity);
  }

  lemma FilledSize(d: Desk, sig: Signal, reference: real, q: real)
    requires ConfigOk(d, sig.config)
    requires exists entry: nat, first :: EntryQuantity(d, sig.config, entry, first, reference) == Some(q)
    ensures q > 0.0 && (d.market.NSE? ==> Whole(q))
  {
    var entry: nat, first :| EntryQuantity(d, sig.config, entry, first, reference) == Some(q);
    AcceptedQuantity(d, sig.config, entry, first, reference);
  }

  lemma EnterTables(d: Desk, b: Book, sig: Signal, reference: real, at: int, lot: Lot)
    requires Tables(b) && Entry(d, b, sig, reference, at, Judge(d, b, sig, reference, at), lot)
    ensures Mirrors(b.lots + [lot], b.open + [lot])
    ensures Paired(b.trades + [PurchaseOf(lot)]) && Covers(b.trades + [PurchaseOf(lot)], b.lots + [lot])
    ensures Cycles(b.lots + [lot]) && OncePerSignal(b.orders + [Filled(sig.id)])
  {
    hide Judge, Mirrors, Paired, Covers, Cycles, OncePerSignal, PortfolioRejection, EntryQuantity, AlreadyFilled,
         CycleLots, CycleFits, EntryCost;
    AcceptedCycle(d, b, sig, reference, at);
    AcceptedChecks(d, b, sig, reference, at);
    EnterMirrors(b.lots, b.open, lot);
    EnterPairs(b.trades, b.lots, lot, PurchaseOf(lot));
    EnterCycles(b.lots, lot, sig);
    AppendOrder(b.orders, Filled(sig.id));
  }

  lemma EnterLimited(d: Desk, terms: Terms, b: Book, sig: Signal, reference: real, at: int, lot: Lot)
    requires DeskOk(d, terms) && Limited(d, terms, b) && Sizes(b) && Allowed(d, terms, sig.config)
    requires Entry(d, b, sig, reference, at, Judge(d, b, sig, reference, at), lot)
    ensures |Positions(b.open + [lot])| <= terms.positions
    ensures DailyWithin(b.trades + [PurchaseOf(lot)], d.day, terms.daily)
    ensures b.cash - Judge(d, b, sig, reference, at).cost + Shortfall(b.trades + [PurchaseOf(lot)], terms.e4) >= 0.0
  {
    hide Judge, EntryQuantity, AlreadyFilled, EntryCost, Recent, Exposure, Unrealized, RealizedOn, Shortfall,
         DailyWithin, BuysOn, Positions;
    AcceptedChecks(d, b, sig, reference, at);
    var isNew := LotsOfKey(b.open, sig.symbol, sig.strategy, sig.timeframe) == [];
    if !isNew {
      LotsOfKeyAre(b.open, sig.symbol, sig.strategy, sig.timeframe);
      var one := LotsOfKey(b.open, sig.symbol, sig.strategy, sig.timeframe)[0];
      assert one in b.open && KeyOf(one) == KeyOf(lot);
    }
    EnterPositions(b.open, lot, terms.positions, isNew);
    AppendDaily(b.trades, PurchaseOf(lot), d.day, terms.daily);
    ShortfallAppend(b.trades, PurchaseOf(lot), terms.e4);
    ShortfallNonNegative(b.trades, terms.e4);
  }

  /** The book after the writes of an entry. */
  ghost predicate Entered(d: Desk, b: Book, after: Book, lot: Lot, cost: real) {
    && after.starting == b.starting && after.cash == b.cash - cost
    && after.lots == b.lots + [lot] && after.open == b.open + [lot]
    && after.trades == b.trades + [PurchaseOf(lot)] && after.pending == b.pending
    && after.inventories == (if d.market.NSE?
                             then b.inventories[lot.symbol := QueueOf(b.inventories, lot.symbol) + [SliceOf(lot)]]
                             else b.inventories)
  }

  lemma EnterStock(d: Desk, b: Book, after: Book, lot: Lot, cost: real)
    requires d.market.NSE? && AllStocked(b) && Entered(d, b, after, lot, cost)
    requires ValidSlice(SliceOf(lot)) && Whole(lot.quantity)
    ensures AllStocked(after)
  {
    hide Stocked, ValidSlice, SliceOf;
    forall symbol: string ensures Stocked(after.inventories, after.open, after.trades, symbol) {
      assert StockedIn(b, symbol) && StockedIn(b, lot.symbol);
      EnterStocked(b, after, lot, PurchaseOf(lot), symbol);
    }
  }

  lemma EnterBalance(d: Desk, terms: Terms, b: Book, after: Book, lot: Lot, fill: Fill)
    requires d.market.NSE? && DeskOk(d, terms) && Conserved(b, terms.e2, terms.e4)
    requires Entered(d, b, after, lot, EntryCost(fill, lot.quantity)) && lot.quantity > 0.0 && lot.realized == 0.0
    requires lot.entryPrice == d.rounding.four(fill.price) && lot.fees == d.rounding.four(fill.fees)
    ensures Conserved(after, terms.e2, terms.e4)
  {
    hide Conserved, Worth;
    PurchaseDrift(d, fill, lot.quantity, terms.e2, terms.e4);
    EnterConserves(b, after, lot, PurchaseOf(lot), SliceOf(lot), EntryCost(fill, lot.quantity), terms.e2, terms.e4);
  }

  lemma EnterBook(d: Desk, b: Book, sig: Signal, reference: real, at: int, v: Verdict)
    requires v.Accept? && !TargetPctRaises(sig) && Clean(d, reference)
    requires Entry(d, b, sig, reference, at, v, NewLot(d, b, sig, at, v))
    ensures var lot := NewLot(d, b, sig, at, v);
            && ValidSlice(SliceOf(lot))
            && Entered(d, b, Enter(d, b, sig, at, v).book, lot, v.cost)
            && Enter(d, b, sig, at, v).book.orders == b.orders + [Filled(sig.id)]
            && Enter(d, b, sig, at, v).ok
  {
    hide NewLot;
  }

  lemma EnterAssembles(d: Desk, terms: Terms, b: Book, after: Book, lot: Lot, cost: real)
    requires Sane(d, terms, b) && Entered(d, b, after, lot, cost) && Allowed(d, terms, lot.config)
    requires lot.quantity > 0.0 && (d.market.NSE? ==> Whole(lot.quantity) && ValidSlice(SliceOf(lot)))
    requires lot.realized == 0.0
    requires Mirrors(after.lots, after.open) && Paired(after.trades) && Covers(after.trades, after.lots)
    requires Cycles(after.lots) && OncePerSignal(after.orders) && Limited(d, terms, after)
    requires d.market.NSE? ==> AllStocked(after) && Conserved(after, terms.e2, terms.e4)
    ensures Sane(d, terms, after)
  {
    hide Mirrors, Paired, Covers, Cycles, OncePerSignal, Conserved, AllStocked, Limited, Allowed;
    assert d.market.NSE? ==> ValidTrade(PurchaseOf(lot));
    assert Sizes(after);
    assert Configs(d, terms, after);
    assert SoundInventories(after.inventories);
  }

  lemma EnterKeeps(d: Desk, terms: Terms, b: Book, sig: Signal, reference: real, at: int)
    requires DeskOk(d, terms) && Clean(d, reference) && Sane(d, terms, b)
    requires Allowed(d, terms, sig.config) && Judge(d, b, sig, reference, at).Accept?
    ensures Sane(d, terms, Enter(d, b, sig, at, Judge(d, b, sig, reference, at)).book)
  {
    var v := Judge(d, b, sig, reference, at);
    EntryFacts(d, b, sig, reference, at);
    EnterTables(d, b, sig, reference, at, NewLot(d, b, sig, at, v));
    if TargetPctRaises(sig) {
      OrdersKeep(d, terms, b, b.orders + [Filled(sig.id)]);
    } else {
      hide Judge, NewLot, Mirrors, Paired, Covers, Cycles, OncePerSignal, Conserved, AllStocked, DailyWithin,
           Shortfall, Positions, Enter, Clean, ValidSlice, EntryCost;
      var lot := NewLot(d, b, sig, at, v);
      var after := Enter(d, b, sig, at, v).book;
      EnterBook(d, b, sig, reference, at, v);
      EnterLimited(d, terms, b, sig, reference, at, lot);
      if d.market.NSE? {
        EnterStock(d, b, after, lot, v.cost);
        EnterBalance(d, terms, b, after, lot, v.fill);
      }
      EnterAssembles(d, terms, b, after, lot, v.cost);
    }
  }

  lemma OrdersKeep(d: Desk, terms: Terms, b: Book, orders: seq<Order>)
    requires Sane(d, terms, b) && OncePerSignal(orders)
    ensures Sane(d, terms, b.(orders := orders))
  {
    hide Mirrors, Paired, Covers, Cycles, OncePerSignal, Conserved, AllStocked, WholeLots, DailyWithin;
    var after := b.(orders := orders);
    StockedSame(b, after);
    assert Conserved(b, terms.e2, terms.e4) ==> Conserved(after, terms.e2, terms.e4) by {
      ConservedSame(b, after, terms);
    }
  }

  lemma StockedSame(b: Book, after: Book)
    requires after.inventories == b.inventories && after.open == b.open && after.trades == b.trades
    ensures AllStocked(b) ==> AllStocked(after)
  {}

  lemma ConservedSame(b: Book, after: Book, terms: Terms)
    requires after.inventories == b.inventories && after.lots == b.lots && after.trades == b.trades
    requires after.cash == b.cash && after.starting == b.starting
    ensures Conserved(b, terms.e2, terms.e4) ==> Conserved(after, terms.e2, terms.e4)
  {}

  // ---- closing ---------------------------------------------------------------------------------------

  ghost function SoldRow(lot: Lot, price: real, fees: real, at: int): Trade {
    Trade(lot.id, lot.symbol, false, lot.quantity, price, fees, at)
  }

  /** Rows of the same lot: everything but marks, status and result agrees. */
  ghost predicate SameOrigin(row: Lot, lot: Lot) {
    && row.id == lot.id && KeyOf(row) == KeyOf(lot) && row.cycle == lot.cycle && row.number == lot.number
    && row.config == lot.config && row.quantity == lot.quantity && row.entryAt == lot.entryAt
  }

  /** The book after the k-th open lot was sold. */
  ghost predicate SoldFrom(d: Desk, b: Book, after: Book, k: nat, row: Lot, t: Trade, fill: Fill) {
    && k < |b.open| && b.open[k].id < |b.lots|
    && SameOrigin(row, b.lots[b.open[k].id]) && SameOrigin(row, b.open[k]) && row.status != OPEN
    && t == SoldRow(b.open[k], d.rounding.four(fill.price), d.rounding.four(fill.fees), t.at)
    && after.starting == b.starting && after.cash == b.cash + ExitProceeds(fill, row.quantity)
    && after.lots == b.lots[row.id := row] && after.open == Remove(b.open, row.id)
    && after.trades == b.trades + [t] && after.pending == b.pending && after.orders == b.orders
    && SoundInventories(b.inventories)
    && (d.market.CRYPTO? ==> after.inventories == b.inventories)
    && (d.market.NSE? ==>
          var queue := QueueOf(b.inventories, t.symbol);
          && Sale(queue, t.quantity).Ok?
          && after.inventories == b.inventories[t.symbol := Sale(queue, t.quantity).value.1]
          && var m := Sale(queue, t.quantity).value.0;
             row.realized == RealizedPnl(d, d.rounding.four(m.costBasis), d.rounding.four(fill.price), t.quantity,
                                         d.rounding.four(m.entryFees + fill.fees)))
  }

  lemma IndexOf(open: seq<Lot>, id: nat) returns (k: nat)
    requires id in Ids(open)
    ensures k < |open| && open[k].id == id
  {
    k :| 0 <= k < |open| && open[k].id == id;
  }

  /** Closing a lot that is still open never fails, and does what `SoldFrom` says. */
  lemma CloseBook(d: Desk, terms: Terms, b: Book, lot: Lot, k: nat, status: Status, raw: real, at: int)
    requires Sane(d, terms, b) && status != OPEN && k < |b.open| && b.open[k].id == lot.id
    requires lot.id < |b.lots| && SameTerms(b.lots[lot.id], lot)
    ensures var r := CloseLot(d, b, lot, status, raw, at);
            && r.ok
            && r.book.trades != [] && r.book.trades[|r.book.trades| - 1].at == at
            && lot.id < |r.book.lots|
            && SoldFrom(d, b, r.book, k, r.book.lots[lot.id], r.book.trades[|r.book.trades| - 1],
                        d.fees.sell(raw, lot.quantity))
  {
    hide Paired, Covers, Cycles, OncePerSignal, Conserved, Limited, Configs, Sale, Worth, Remove, RealizedPnl,
         ExitProceeds, QueueAfter, Quantity, OpenQuantity, ValidTrades;
    var row := b.lots[lot.id];
    assert SameLot(row, b.open[k]);
    if d.market.NSE? {
      assert StockedIn(b, lot.symbol);
      CloseCovered(b, k);
    }
    hide Stocked, AllStocked, WholeLots, Mirrors;
  }

  lemma CloseTables(d: Desk, b: Book, after: Book, k: nat, row: Lot, t: Trade, fill: Fill)
    requires Tables(b) && SoldFrom(d, b, after, k, row, t, fill)
    ensures Tables(after)
  {
    hide Paired, Covers, Cycles, OncePerSignal, RealizedPnl, Sale, ExitProceeds;
    var id := row.id;
    assert b.lots[id].status == OPEN && b.lots[id].id == id;
    CloseMirrors(b.lots, b.open, id, row);
    ClosePairs(b.trades, b.lots, id, row, t);
    UpdateCycles(b.lots, id, row);
    assert forall i :: 0 <= i < |after.lots| && i != id ==> after.lots[i] == b.lots[i];
  }

  lemma CloseLimited(d: Desk, terms: Terms, b: Book, after: Book, k: nat, row: Lot, t: Trade, fill: Fill)
    requires DeskOk(d, terms) && Limited(d, terms, b) && Sizes(b) && Ascending(b.open)
    requires SoldFrom(d, b, after, k, row, t, fill)
    ensures Limited(d, terms, after) && Sizes(after)
  {
    hide RealizedPnl, Sale, Positions, DailyWithin, Shortfall, SaleGap, Worth, Remove;
    RemoveIs(b.open, row.id);
    forall i | 0 <= i < |after.open| ensures exists j :: 0 <= j < |b.open| && KeyOf(b.open[j]) == KeyOf(after.open[i]) {
      var j :| 0 <= j < |b.open| && b.open[j] == after.open[i];
    }
    PositionsWithin(after.open, b.open);
    AppendDaily(b.trades, t, d.day, terms.daily);
    ShortfallAppend(b.trades, t, terms.e4);
    SaleShortfall(d, fill, t.quantity, t, terms.e2, terms.e4);
  }

  lemma CloseStock(d: Desk, b: Book, after: Book, k: nat, row: Lot, t: Trade, fill: Fill)
    requires d.market.NSE? && AllStocked(b) && WholeLots(b.open) && Ascending(b.open)
    requires SoldFrom(d, b, after, k, row, t, fill)
    ensures AllStocked(after) && WholeLots(after.open) && ValidTrade(t)
  {
    hide Stocked, RealizedPnl, Sale, ExitProceeds, Remove;
    forall symbol: string ensures Stocked(after.inventories, after.open, after.trades, symbol) {
      assert StockedIn(b, symbol) && StockedIn(b, t.symbol);
      CloseStocked(b, after, k, t, symbol);
    }
    RemoveIs(b.open, row.id);
  }

  lemma CloseBalance(d: Desk, terms: Terms, b: Book, after: Book, k: nat, row: Lot, t: Trade, fill: Fill)
    requires d.market.NSE? && DeskOk(d, terms) && Conserved(b, terms.e2, terms.e4)
    requires AllStocked(b) && WholeLots(b.open) && SoldFrom(d, b, after, k, row, t, fill)
    requires b.lots[row.id].realized == 0.0
    ensures Conserved(after, terms.e2, terms.e4)
  {
    hide Conserved, Worth, Sale, RealizedPnl, Held, ExitProceeds, Remove;
    var queue := QueueOf(b.inventories, t.symbol);
    assert StockedIn(b, t.symbol);
    var m := Sale(queue, t.quantity).value.0;
    SaleReleases(queue, t.quantity);
    SaleDrift(d, fill, m.costBasis, m.entryFees, t.quantity, terms.e2, terms.e4);
    CloseConserves(b, after, row.id, row, t, Sale(queue, t.quantity).value.1, ExitProceeds(fill, t.quantity),
                   terms.e2, terms.e4);
  }

  lemma CloseInventories(d: Desk, b: Book, after: Book, k: nat, row: Lot, t: Trade, fill: Fill)
    requires SoldFrom(d, b, after, k, row, t, fill)
    ensures SoundInventories(after.inventories)
  {
    if d.market.NSE? { DrainSound(QueueOf(b.inventories, t.symbol), t.quantity); }
  }

  lemma CloseKeeps(d: Desk, terms: Terms, b: Book, after: Book, k: nat, row: Lot, t: Trade, fill: Fill)
    requires DeskOk(d, terms) && Sane(d, terms, b) && SoldFrom(d, b, after, k, row, t, fill)
    ensures Sane(d, terms, after)
  {
    hide Stocked, RealizedPnl, Sale, ExitProceeds, Remove, Paired, Covers, Cycles, OncePerSignal, Conserved, Limited,
         Worth;
    CloseTables(d, b, after, k, row, t, fill);
    CloseLimited(d, terms, b, after, k, row, t, fill);
    CloseInventories(d, b, after, k, row, t, fill);
    assert b.lots[row.id].status == OPEN by { assert SameLot(b.lots[row.id], b.open[k]); }
    if d.market.NSE? {
      CloseStock(d, b, after, k, row, t, fill);
      CloseBalance(d, terms, b, after, k, row, t, fill);
    }
    assert Configs(d, terms, after);
  }
}
