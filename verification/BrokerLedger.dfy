/** Ledger conservation on NSE: cash, inventory cost and unallocated entry fees add up to the
    starting balance plus all realized profit and loss. With exact arithmetic the identity is
    exact; with rounding that is within e2 and e4 it drifts by at most an explicit sum over the
    trades. */
module BrokerLedger {
  import opened Common
  import opened Fifo
  import opened Fees
  import opened LotPolicy
  import opened Broker

  ghost function Held(queue: seq<Slice>): real { Cost(queue) + EntryFees(queue) }

  ghost function TotalHeld(inventories: map<string, seq<Slice>>): real
    decreases |inventories|
  {
    if inventories == map[] then 0.0
    else
      var k :| k in inventories;
      Held(inventories[k]) + TotalHeld(inventories - {k})
  }

  ghost function TotalRealized(lots: seq<Lot>): real {
    if lots == [] then 0.0 else TotalRealized(lots[..|lots| - 1]) + lots[|lots| - 1].realized
  }

  /** What rounding may have misplaced: per purchase one rounding of the price and one of the fees,
      per sale the roundings of exit price, cost basis, total fees and result. */
  ghost function Drift(trades: seq<Trade>, e2: real, e4: real): real {
    if trades == [] then 0.0
    else
      var t := trades[|trades| - 1];
      Drift(trades[..|trades| - 1], e2, e4)
      + (if t.buy then e4 * t.quantity + e4 else 2.0 * e4 * t.quantity + e4 + e2)
  }

  ghost predicate Conserved(b: Book, e2: real, e4: real) {
    Abs(b.cash + TotalHeld(b.inventories) - b.starting - TotalRealized(b.lots)) <= Drift(b.trades, e2, e4)
  }

  // ---- sums ------------------------------------------------------------------------------------

  /** The total does not depend on the order in which the symbols are visited. */
  lemma {:induction false} TotalHeldSplit(m: map<string, seq<Slice>>, k: string)
    requires k in m
    ensures TotalHeld(m) == Held(m[k]) + TotalHeld(m - {k})
    decreases |m|
  {
    hide Held;
    var p :| p in m && TotalHeld(m) == Held(m[p]) + TotalHeld(m - {p});
    if p != k {
      TotalHeldSplit(m - {p}, k);
      TotalHeldSplit(m - {k}, p);
      assert m - {p} - {k} == m - {k} - {p};
    }
  }

  lemma TotalHeldUpdate(m: map<string, seq<Slice>>, k: string, queue: seq<Slice>)
    ensures TotalHeld(m[k := queue]) == TotalHeld(m) - Held(QueueOf(m, k)) + Held(queue)
  {
    TotalHeldSplit(m[k := queue], k);
    assert Held([]) == 0.0;
    hide Held;
    if k in m {
      TotalHeldSplit(m, k);
      assert m[k := queue] - {k} == m - {k};
    } else {
      assert m[k := queue] - {k} == m;
    }
  }

  lemma {:induction false} RealizedUpdate(lots: seq<Lot>, id: nat, row: Lot)
    requires id < |lots|
    ensures TotalRealized(lots[id := row]) == TotalRealized(lots) - lots[id].realized + row.realized
  {
    var n := |lots| - 1;
    if id < n {
      RealizedUpdate(lots[..n], id, row);
      assert lots[id := row][..n] == lots[..n][id := row];
    } else {
      assert lots[id := row][..n] == lots[..n];
    }
  }

  lemma RealizedAppend(lots: seq<Lot>, lot: Lot)
    ensures TotalRealized(lots + [lot]) == TotalRealized(lots) + lot.realized
  {
    assert (lots + [lot])[..|lots|] == lots;
  }

  lemma DriftAppend(trades: seq<Trade>, t: Trade, e2: real, e4: real)
    ensures Drift(trades + [t], e2, e4) == Drift(trades, e2, e4)
              + (if t.buy then e4 * t.quantity + e4 else 2.0 * e4 * t.quantity + e4 + e2)
  {
    assert (trades + [t])[..|trades|] == trades;
  }

  // ---- one trade ---------------------------------------------------------------------------------

  /** Cash paid against what the ledger books. */
  lemma PurchaseDrift(d: Desk, fill: Fill, q: real, e2: real, e4: real)
    requires d.rounding.Within(e2, e4) && q >= 0.0
    ensures var price, fees := d.rounding.four(fill.price), d.rounding.four(fill.fees);
            Abs(Worth(price, q) + fees - EntryCost(fill, q)) <= e4 * q + e4
  {
    WorthApart(d.rounding.four(fill.price), fill.price, q, e4);
    assert Abs(d.rounding.four(fill.fees) - fill.fees) <= e4;
    hide Worth;
  }

  /** Cash received, less the inventory released, against the result booked at this cost. */
  lemma BookedDrift(d: Desk, fill: Fill, basis: real, cost: real, entryFees: real, q: real, e2: real, e4: real)
    requires d.rounding.Within(e2, e4) && q >= 0.0 && Abs(cost - basis) <= e4
    ensures var booked := d.rounding.four(entryFees + fill.fees);
            var result := RealizedPnl(d, cost, d.rounding.four(fill.price), q, booked);
            Abs(ExitProceeds(fill, q) - (Worth(basis, q) + entryFees) - result) <= 2.0 * e4 * q + e4 + e2
  {
    var exit := d.rounding.four(fill.price);
    var booked := d.rounding.four(entryFees + fill.fees);
    WorthApart(exit, fill.price, q, e4);
    WorthApart(cost, basis, q, e4);
    WorthMinus(exit, cost, q);
    assert Abs(booked - (entryFees + fill.fees)) <= e4;
    var exact := Worth(exit - cost, q) - booked;
    assert Abs(d.rounding.two(exact) - exact) <= e2;
    hide Worth;
  }

  lemma SaleDrift(d: Desk, fill: Fill, basis: real, entryFees: real, q: real, e2: real, e4: real)
    requires d.rounding.Within(e2, e4) && q >= 0.0
    ensures var booked := d.rounding.four(entryFees + fill.fees);
            var result := RealizedPnl(d, d.rounding.four(basis), d.rounding.four(fill.price), q, booked);
            Abs(ExitProceeds(fill, q) - (Worth(basis, q) + entryFees) - result) <= 2.0 * e4 * q + e4 + e2
  {
    BookedDrift(d, fill, basis, d.rounding.four(basis), entryFees, q, e2, e4);
  }

  // ---- steps ---------------------------------------------------------------------------------------

  lemma EnterConserves(b: Book, after: Book, lot: Lot, t: Trade, slice: Slice, cost: real, e2: real, e4: real)
    requires Conserved(b, e2, e4)
    requires after.starting == b.starting && after.cash == b.cash - cost
    requires lot.realized == 0.0 && after.lots == b.lots + [lot]
    requires t.buy && after.trades == b.trades + [t]
    requires after.inventories == b.inventories[lot.symbol := QueueOf(b.inventories, lot.symbol) + [slice]]
    requires Abs(Worth(slice.price, slice.quantity) + slice.fees - cost) <= e4 * t.quantity + e4
    ensures Conserved(after, e2, e4)
  {
    var queue := QueueOf(b.inventories, lot.symbol);
    TotalHeldUpdate(b.inventories, lot.symbol, queue + [slice]);
    SumsAppend(queue, slice);
    RealizedAppend(b.lots, lot);
    DriftAppend(b.trades, t, e2, e4);
    assert Held(queue + [slice]) - Held(queue) == Worth(slice.price, slice.quantity) + slice.fees;
    hide Worth, TotalHeld, TotalRealized, Drift, Held;
  }

  lemma CloseConserves(
    b: Book, after: Book, id: nat, row: Lot, t: Trade, left: seq<Slice>, proceeds: real, e2: real, e4: real)
    requires Conserved(b, e2, e4) && id < |b.lots| && b.lots[id].realized == 0.0
    requires after.starting == b.starting && after.cash == b.cash + proceeds
    requires after.lots == b.lots[id := row]
    requires !t.buy && after.trades == b.trades + [t]
    requires after.inventories == b.inventories[t.symbol := left]
    requires Abs(proceeds - (Held(QueueOf(b.inventories, t.symbol)) - Held(left)) - row.realized)
               <= 2.0 * e4 * t.quantity + e4 + e2
    ensures Conserved(after, e2, e4)
  {
    TotalHeldUpdate(b.inventories, t.symbol, left);
    RealizedUpdate(b.lots, id, row);
    DriftAppend(b.trades, t, e2, e4);
    hide TotalHeld, TotalRealized, Drift, Held;
  }

  /** What a sale releases from inventory is its matched cost and entry fees. */
  lemma SaleReleases(queue: seq<Slice>, q: real)
    requires Sound(queue) && WholeUnits(queue) && Whole(q) && Sale(queue, q).Ok?
    ensures var (m, left) := Sale(queue, q).value;
            Held(queue) - Held(left) == Worth(m.costBasis, q) + m.entryFees
  {
    hide Sale, Worth, Cost, EntryFees;
    SaleSucceeds(queue, q);
    SaleExact(queue, q);
    TakenCost(queue, q);
    TakenFees(queue, q);
  }

  lemma MarkConserves(b: Book, after: Book, id: nat, row: Lot, e2: real, e4: real)
    requires Conserved(b, e2, e4) && id < |b.lots| && row.realized == b.lots[id].realized
    requires after.starting == b.starting && after.cash == b.cash && after.lots == b.lots[id := row]
    requires after.trades == b.trades && after.inventories == b.inventories
    ensures Conserved(after, e2, e4)
  {
    RealizedUpdate(b.lots, id, row);
  }
}
