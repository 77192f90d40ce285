/** What every bar of a replay keeps on NSE: the FIFO queue holds exactly the open lots' units,
    every open lot's target is the one its present FIFO match needs, and so every target exit
    earns its percentage. */
module ReplayInventory {
  import opened Common
  import opened Fifo
  import opened Fees
  import opened TargetPrice
  import opened LotPolicy
  import opened Replay

  ghost function LotsQuantity(lots: seq<Lot>): real {
    if lots == [] then 0.0 else LotsQuantity(lots[..|lots| - 1]) + lots[|lots| - 1].quantity
  }

  ghost predicate WholeLots(lots: seq<Lot>) {
    forall i :: 0 <= i < |lots| ==> lots[i].quantity > 0.0 && Whole(lots[i].quantity)
  }

  /** The queue consists of positive whole slices holding as many units as the lots. */
  ghost predicate Balanced(lots: seq<Lot>, queue: seq<Slice>) {
    Sound(queue) && WholeUnits(queue) && WholeLots(lots) && Quantity(queue) == LotsQuantity(lots)
  }

  /** Every lot's target is what its FIFO match in this queue asks for. */
  ghost predicate Fresh(s: Setup, lots: seq<Lot>, queue: seq<Slice>)
    requires Sound(queue)
  {
    forall i :: 0 <= i < |lots| ==> FreshTarget(s, lots[i], queue) == Ok(lots[i].target)
  }

  /** A target exit netted its percentage over the cost and entry fees of the units it consumed. */
  ghost predicate EarnsTarget(s: Setup, row: Row) {
    row.Status() == TARGET_HIT ==>
      && row.fifo.Some?
      && var units := row.fifo.value.allocations;
         Proceeds(s.fees, row.exit.value.price, row.lot.quantity)
         >= (AllocatedCost(units) + AllocatedFees(units)) * (1.0 + row.lot.targetPct / 100.0)
  }

  ghost predicate AllEarn(s: Setup, rows: seq<Row>) { forall i :: 0 <= i < |rows| ==> EarnsTarget(s, rows[i]) }

  // ---- sums over lots ---------------------------------------------------------------------

  lemma LotsQuantityAppend(lots: seq<Lot>, lot: Lot)
    ensures LotsQuantity(lots + [lot]) == LotsQuantity(lots) + lot.quantity
  {
    assert (lots + [lot])[..|lots|] == lots;
  }

  lemma {:induction false} LotsQuantityPrefix(lots: seq<Lot>, n: nat)
    requires n <= |lots| && WholeLots(lots)
    ensures 0.0 <= LotsQuantity(lots[..n]) <= LotsQuantity(lots)
  {
    if |lots| == 0 {
    } else if n == |lots| {
      LotsQuantityPrefix(lots[..n - 1], n - 1);
      assert lots[..n] == lots && lots[..n - 1][..n - 1] == lots[..n - 1];
    } else {
      LotsQuantityPrefix(lots[..|lots| - 1], n);
      assert lots[..|lots| - 1][..n] == lots[..n];
    }
  }

  lemma {:induction false} SameQuantities(a: seq<Lot>, b: seq<Lot>)
    requires |a| == |b| && forall i :: 0 <= i < |a| ==> a[i].quantity == b[i].quantity
    ensures LotsQuantity(a) == LotsQuantity(b)
    ensures WholeLots(a) ==> WholeLots(b)
  {
    if a != [] { SameQuantities(a[..|a| - 1], b[..|b| - 1]); }
  }

  // ---- refreshing ---------------------------------------------------------------------------

  /** A refresh changes targets only; on NSE it makes every one of them fresh. */
  lemma {:induction false} RefreshKeeps(s: Setup, lots: seq<Lot>, queue: seq<Slice>)
    requires Sound(queue) && Refresh(s, lots, queue).Ok?
    ensures var r := Refresh(s, lots, queue).value;
            && |r| == |lots|
            && (forall i :: 0 <= i < |lots| ==> r[i] == lots[i].(target := r[i].target))
            && (s.market.NSE? ==> Fresh(s, r, queue))
  {
    hide FreshTarget;
    if s.market.NSE? && lots != [] {
      var n := |lots| - 1;
      RefreshKeeps(s, lots[..n], queue);
      var r := Refresh(s, lots, queue).value;
      var done := Refresh(s, lots[..n], queue).value;
      assert r == done + [lots[n].(target := r[n].target)];
      FreshIgnoresTarget(s, lots[n], r[n].target, queue);
      assert FreshTarget(s, lots[n], queue) == Ok(r[n].target);
    }
  }

  lemma FreshIgnoresTarget(s: Setup, lot: Lot, target: real, queue: seq<Slice>)
    requires Sound(queue)
    ensures FreshTarget(s, lot.(target := target), queue) == FreshTarget(s, lot, queue)
  {}

  // ---- entering -----------------------------------------------------------------------------

  /** What the rest of the proof needs of `_enter`. */
  lemma EnterFacts(s: Setup, bars: seq<Bar>, bar: nat, order: Order, first: Option<real>, capital: real)
    requires s.Valid()
    ensures var r := Enter(s, bars, bar, order, first, capital);
            r.Ok? && r.value.Some? ==>
              var lot := r.value.value;
              && lot.cycle == order.cycle && lot.number == order.entry + 1 && lot.entryBar == bar
              && (s.market.NSE? ==> lot.quantity > 0.0 && Whole(lot.quantity))
  {
    if s.market.NSE? {
      var raw := s.settings.Raw(order.entry);
      WholeInt(raw.Floor, raw.Floor as real);
    }
  }

  lemma BalancedEntry(s: Setup, lots: seq<Lot>, queue: seq<Slice>, lot: Lot)
    requires Balanced(lots, queue) && lot.quantity > 0.0 && Whole(lot.quantity) && ValidSlice(SliceOf(s, lot))
    ensures Balanced(lots + [lot], queue + [SliceOf(s, lot)])
  {
    SumsAppend(queue, SliceOf(s, lot));
    LotsQuantityAppend(lots, lot);
  }

  lemma BalancedSame(a: seq<Lot>, b: seq<Lot>, queue: seq<Slice>)
    requires Balanced(a, queue)
    requires |a| == |b| && forall i :: 0 <= i < |a| ==> a[i].quantity == b[i].quantity
    ensures Balanced(b, queue)
  {
    SameQuantities(a, b);
  }

  ghost predicate Good(s: Setup, st: State) {
    && Balanced(st.lots, st.queue) && Fresh(s, st.lots, st.queue)
    && AllEarn(s, st.written + st.batch)
  }

  lemma FillPendingGood(s: Setup, bars: seq<Bar>, bar: nat, st: State)
    requires s.Valid() && s.market.NSE? && Good(s, st)
    ensures FillPending(s, bars, bar, st).Going? ==> Good(s, FillPending(s, bars, bar, st).st)
  {
    hide Enter, FreshTarget, SliceOf, ValidSlice;
    EnterFacts(s, bars, bar, if st.pending.Some? then st.pending.value else Order(0, 0, 0), st.firstPrice,
      Cost(st.queue));
    var r := FillPending(s, bars, bar, st);
    if r.Going? && st.pending.Some? {
      var e := Enter(s, bars, bar, st.pending.value, st.firstPrice, Cost(st.queue)).value;
      if e.Some? {
        var lots, queue := st.lots + [e.value], st.queue + [SliceOf(s, e.value)];
        BalancedEntry(s, st.lots, st.queue, e.value);
        RefreshKeeps(s, lots, queue);
        BalancedSame(lots, r.st.lots, queue);
      }
    }
  }

  // ---- the exit loop ------------------------------------------------------------------------

  /** After n lots: nothing raised, the queue still matches the lots kept and to come, it is
      untouched until the first exit, and every row so far earns its target. */
  ghost predicate PassGood(s: Setup, st: State, p: Pass, n: nat)
    requires n <= |st.lots|
  {
    && p.Passing?
    && Sound(p.queue) && WholeUnits(p.queue) && WholeLots(p.kept) && |p.kept| <= n
    && Quantity(p.queue) == LotsQuantity(p.kept) + LotsQuantity(st.lots) - LotsQuantity(st.lots[..n])
    && (!p.exited ==> p.queue == st.queue && |p.kept| == n)
    && (!p.exited ==> forall i :: 0 <= i < |p.kept| ==>
          p.kept[i] == st.lots[i].(lowest := p.kept[i].lowest, highest := p.kept[i].highest))
    && AllEarn(s, p.written + p.batch)
  }

  /** The first exit of a bar, taken at a fresh target, earns the target. */
  lemma FirstTargetEarns(s: Setup, lot: Lot, queue: seq<Slice>, exit: Exit)
    requires ProceedsGrow(s.fees) && Sound(queue) && WholeUnits(queue) && lot.quantity > 0.0 && Whole(lot.quantity)
    requires FreshTarget(s, lot, queue) == Ok(lot.target) && exit.price == lot.target
    ensures Sale(queue, lot.quantity).Ok?
    ensures EarnsTarget(s, ClosedRow(s, lot, exit, Some(Sale(queue, lot.quantity).value.0)))
  {
    hide Sale, NetTarget, Proceeds, ProceedsGrow, AllocatedCost, AllocatedFees;
    var m := Sale(queue, lot.quantity).value.0;
    SaleExact(queue, lot.quantity);
    TargetSuffices(s.fees, m, lot.targetPct, s.floatLimit);
  }

  lemma KeepOneGood(s: Setup, st: State, p: Pass, n: nat, lot: Lot)
    requires n < |st.lots| && PassGood(s, st, p, n) && WholeLots(st.lots)
    requires lot == st.lots[n].(lowest := lot.lowest, highest := lot.highest)
    ensures PassGood(s, st, p.(kept := p.kept + [lot]), n + 1)
  {
    hide EarnsTarget, Quantity, Fresh;
    assert st.lots[..n + 1] == st.lots[..n] + [st.lots[n]];
    LotsQuantityAppend(st.lots[..n], st.lots[n]);
    LotsQuantityAppend(p.kept, lot);
  }

  /** There is always enough inventory for the next exit, and selling keeps the balance. */
  lemma SellOneGood(s: Setup, st: State, p: Pass, n: nat, q: real)
    requires n < |st.lots| && PassGood(s, st, p, n) && WholeLots(st.lots) && q == st.lots[n].quantity
    ensures Sale(p.queue, q).Ok?
    ensures var left := Sale(p.queue, q).value.1;
            && Sound(left) && WholeUnits(left)
            && Quantity(left) == LotsQuantity(p.kept) + LotsQuantity(st.lots) - LotsQuantity(st.lots[..n + 1])
  {
    hide Sale, EarnsTarget, Quantity, Fresh;
    assert st.lots[..n + 1] == st.lots[..n] + [st.lots[n]];
    LotsQuantityAppend(st.lots[..n], st.lots[n]);
    LotsQuantityPrefix(st.lots, n + 1);
    LotsQuantityPrefix(p.kept, |p.kept|);
    assert p.kept[..|p.kept|] == p.kept;
    SaleSucceeds(p.queue, q);
    SaleExact(p.queue, q);
    TakenQuantity(p.queue, q);
  }

  lemma ExitOneGood(s: Setup, bar: nat, b: Bar, st: State, p: Pass, n: nat)
    requires s.market.NSE? && ProceedsGrow(s.fees) && Good(s, st)
    requires n < |st.lots| && PassGood(s, st, p, n)
    ensures PassGood(s, st, ExitOne(s, bar, b, p, st.lots[n]), n + 1)
  {
    hide Fresh, Sale, ClosedRow, EarnsTarget, MaybeExit, Quantity, ProceedsGrow, LotsQuantity;
    var lot := Watch(st.lots[n], bar, b);
    var exit := Decide(lot, bar, b, p.exited);
    if exit.None? {
      KeepOneGood(s, st, p, n, lot);
    } else {
      SellOneGood(s, st, p, n, lot.quantity);
      var sale := Sale(p.queue, lot.quantity).value;
      var row := ClosedRow(s, lot, exit.value, Some(sale.0));
      EmitAppends(p.(queue := sale.1, exited := true), row, s.settings.batchSize);
      RowEarns(s, bar, b, st, p, n, row);
    }
  }

  lemma RowEarns(s: Setup, bar: nat, b: Bar, st: State, p: Pass, n: nat, row: Row)
    requires s.market.NSE? && ProceedsGrow(s.fees) && Good(s, st)
    requires n < |st.lots| && PassGood(s, st, p, n)
    requires var lot := Watch(st.lots[n], bar, b);
             var exit := Decide(lot, bar, b, p.exited);
             && exit.Some? && Sale(p.queue, lot.quantity).Ok?
             && row == ClosedRow(s, lot, exit.value, Some(Sale(p.queue, lot.quantity).value.0))
    ensures EarnsTarget(s, row)
  {
    hide Sale, NetTarget, ProceedsGrow;
    var lot := Watch(st.lots[n], bar, b);
    var exit := Decide(lot, bar, b, p.exited);
    if exit.value.status == TARGET_HIT {
      assert !p.exited;
      assert FreshTarget(s, lot, p.queue) == FreshTarget(s, st.lots[n], st.queue);
      FirstTargetEarns(s, lot, p.queue, exit.value);
    }
  }

  lemma PassStartsGood(s: Setup, st: State)
    requires Good(s, st)
    ensures PassGood(s, st, PassOf(st), 0)
  {
    hide FreshTarget, EarnsTarget;
    assert st.lots[..0] == [];
  }

  lemma {:induction false} ExitLotsGood(s: Setup, bar: nat, b: Bar, st: State, n: nat)
    requires s.market.NSE? && ProceedsGrow(s.fees) && Good(s, st) && n <= |st.lots|
    ensures PassGood(s, st, ExitLots(s, bar, b, PassOf(st), st.lots, n), n)
  {
    hide PassGood, Fresh, AllEarn, ExitOne, ProceedsGrow;
    if n == 0 {
      PassStartsGood(s, st);
    } else {
      ExitLotsGood(s, bar, b, st, n - 1);
      ExitOneGood(s, bar, b, st, ExitLots(s, bar, b, PassOf(st), st.lots, n - 1), n - 1);
    }
  }

  lemma ExitBarGood(s: Setup, bar: nat, b: Bar, st: State)
    requires s.market.NSE? && ProceedsGrow(s.fees) && Good(s, st)
    ensures var r := ExitBar(s, bar, b, st);
            && (r.Going? ==> Good(s, r.st))
            && (r.Stopped? ==> r.error.Target? && AllEarn(s, r.written))
  {
    hide FreshTarget, EarnsTarget, ProceedsGrow, ExitLots;
    ExitLotsGood(s, bar, b, st, |st.lots|);
    var p := ExitLots(s, bar, b, PassOf(st), st.lots, |st.lots|);
    assert st.lots[..|st.lots|] == st.lots;
    EarnedBefore(s, p.written, p.batch);
    if p.exited {
      RefreshOnlyTargets(s, p.kept, p.queue);
      if Refresh(s, p.kept, p.queue).Ok? {
        RefreshKeeps(s, p.kept, p.queue);
        BalancedSame(p.kept, Refresh(s, p.kept, p.queue).value, p.queue);
      }
    } else {
      BalancedSame(st.lots, p.kept, p.queue);
      FreshAfterWatch(s, st.lots, p.kept, p.queue);
    }
  }

  lemma EarnedBefore(s: Setup, written: seq<Row>, batch: seq<Row>)
    requires AllEarn(s, written + batch)
    ensures AllEarn(s, written)
  {
    hide EarnsTarget;
    forall i | 0 <= i < |written| ensures EarnsTarget(s, written[i]) {
      assert (written + batch)[i] == written[i];
    }
  }

  /** With enough inventory a refresh can only fail for want of a representable target. */
  lemma {:induction false} RefreshOnlyTargets(s: Setup, lots: seq<Lot>, queue: seq<Slice>)
    requires Sound(queue) && WholeUnits(queue) && WholeLots(lots) && LotsQuantity(lots) <= Quantity(queue)
    ensures Refresh(s, lots, queue).Err? ==> Refresh(s, lots, queue).error.Target?
  {
    hide Sale, NetTarget, Quantity;
    if lots != [] {
      var n := |lots| - 1;
      RefreshOnlyTargets(s, lots[..n], queue);
      LotsQuantityPrefix(lots, n);
      SaleSucceeds(queue, lots[n].quantity);
    }
  }

  lemma FreshAfterWatch(s: Setup, a: seq<Lot>, b: seq<Lot>, queue: seq<Slice>)
    requires Sound(queue) && Fresh(s, a, queue) && |a| == |b|
    requires forall i :: 0 <= i < |a| ==> b[i] == a[i].(lowest := b[i].lowest, highest := b[i].highest)
    ensures Fresh(s, b, queue)
  {
    forall i | 0 <= i < |b| ensures FreshTarget(s, b[i], queue) == Ok(b[i].target) {
      assert FreshTarget(s, a[i], queue) == Ok(a[i].target);
    }
  }

  // ---- whole runs -----------------------------------------------------------------------------

  /** Over every NSE replay, whatever the bars: while it goes on, the queue's units are exactly
      the open lots', every target is fresh, and every target exit so far earned its
      percentage net of all fees; an abort is never for lack of inventory, and the rows it leaves
      written earned theirs too. */
  lemma {:induction false} NseReplayIsGood(s: Setup, bars: seq<Bar>, n: nat)
    requires s.Valid() && s.market.NSE? && ProceedsGrow(s.fees) && n <= |bars|
    ensures Run(s, bars, n).Going? ==> Good(s, Run(s, bars, n).st)
    ensures Run(s, bars, n).Stopped? ==>
              var e := Run(s, bars, n).error; e.Ledger? ==> e.fifo == BadAcquisition
    ensures Run(s, bars, n).Stopped? ==> AllEarn(s, Run(s, bars, n).written)
  {
    hide FreshTarget, EarnsTarget, ProceedsGrow, Enter, ExitBar, FillPending, PlaceOrder;
    if n > 0 {
      NseReplayIsGood(s, bars, n - 1);
      var p := Run(s, bars, n - 1);
      if p.Going? {
        EarnedBefore(s, p.st.written, p.st.batch);
        FillPendingGood(s, bars, n - 1, p.st);
        FillPendingStops(s, bars, n - 1, p.st);
        var filled := FillPending(s, bars, n - 1, p.st);
        if filled.Going? {
          ExitBarGood(s, n - 1, bars[n - 1], filled.st);
          var exited := ExitBar(s, n - 1, bars[n - 1], filled.st);
          if exited.Going? { PlaceOrderKeeps(s, n - 1, bars[n - 1], n < |bars|, exited.st); }
        }
      }
    } else {
      assert Balanced([], []);
    }
  }

  lemma PlaceOrderKeeps(s: Setup, bar: nat, b: Bar, more: bool, st: State)
    ensures var r := PlaceOrder(s, bar, b, more, st);
            r.lots == st.lots && r.queue == st.queue && r.batch == st.batch && r.written == st.written
  {}

  lemma FillPendingStops(s: Setup, bars: seq<Bar>, bar: nat, st: State)
    requires s.Valid() && s.market.NSE? && Balanced(st.lots, st.queue)
    ensures var r := FillPending(s, bars, bar, st);
            r.Stopped? ==> (!r.error.Ledger? || r.error.fifo == BadAcquisition) && r.written == st.written
  {
    hide FreshTarget, ValidSlice, SliceOf, Quantity;
    if st.pending.Some? {
      EnterFacts(s, bars, bar, st.pending.value, st.firstPrice, Cost(st.queue));
      EnterErrors(s, bars, bar, st.pending.value, st.firstPrice, Cost(st.queue));
      hide Enter;
      var e := Enter(s, bars, bar, st.pending.value, st.firstPrice, Cost(st.queue));
      if e.Ok? && e.value.Some? && ValidSlice(SliceOf(s, e.value.value)) {
        BalancedEntry(s, st.lots, st.queue, e.value.value);
        RefreshOnlyTargets(s, st.lots + [e.value.value], st.queue + [SliceOf(s, e.value.value)]);
      }
    }
  }

  lemma EnterErrors(s: Setup, bars: seq<Bar>, bar: nat, order: Order, first: Option<real>, capital: real)
    ensures var r := Enter(s, bars, bar, order, first, capital); r.Err? ==> !r.error.Ledger?
  {}
}
