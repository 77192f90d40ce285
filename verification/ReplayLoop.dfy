/** The replay as the engine runs it: loops over bars and lots that update local variables and a
    FIFO ledger object, proved to compute the state machine of module Replay. */
module ReplayLoop {
  import opened Common
  import opened Fifo
  import opened Fees
  import opened TargetPrice
  import opened LotPolicy
  import opened Replay

  lemma PreviewOne(queue: seq<Slice>, q: real)
    requires Sound(queue)
    ensures Sale(queue, q).Err? ==> Preview(queue, [q]) == Err(Sale(queue, q).error)
    ensures Sale(queue, q).Ok? ==> Preview(queue, [q]) == Ok([Sale(queue, q).value.0])
  {
    hide Sale;
    if Sale(queue, q).Ok? {
      SaleLeavesSound(queue, q);
      var left := Sale(queue, q).value.1;
      assert [q][1..] == [] && Preview(left, []) == Ok([]);
      assert [Sale(queue, q).value.0] + [] == [Sale(queue, q).value.0];
    }
  }

  lemma {:induction false} RefreshFails(s: Setup, lots: seq<Lot>, queue: seq<Slice>, n: nat)
    requires Sound(queue) && n <= |lots| && Refresh(s, lots[..n], queue).Err?
    ensures Refresh(s, lots, queue) == Refresh(s, lots[..n], queue)
    decreases |lots|
  {
    hide FreshTarget;
    if n == |lots| {
      assert lots[..n] == lots;
    } else {
      var m := |lots| - 1;
      assert lots[..m][..n] == lots[..n];
      RefreshFails(s, lots[..m], queue, n);
    }
  }

  method RefreshTargets(s: Setup, lots: seq<Lot>, inventory: FifoInventory) returns (r: Result<seq<Lot>, ReplayError>)
    requires inventory.Valid()
    ensures r == Refresh(s, lots, inventory.slices)
  {
    hide NetTarget, Sale, Preview;
    if s.market.CRYPTO? { return Ok(lots); }
    var done: seq<Lot> := [];
    for i := 0 to |lots|
      invariant Refresh(s, lots[..i], inventory.slices) == Ok(done)
    {
      var lot := lots[i];
      assert lots[..i + 1][..i] == lots[..i];
      PreviewOne(inventory.slices, lot.quantity);
      var matched := inventory.PreviewAllocations([lot.quantity]);
      if matched.Err? {
        RefreshFails(s, lots, inventory.slices, i + 1);
        return Err(Ledger(matched.error));
      }
      var target := NetProfitTargetPrice(s.fees, matched.value[0], lot.targetPct, s.floatLimit);
      if target.Err? {
        RefreshFails(s, lots, inventory.slices, i + 1);
        return Err(Target(target.error));
      }
      done := done + [lot.(target := target.value)];
    }
    assert lots[..|lots|] == lots;
    r := Ok(done);
  }

  lemma {:induction false} RaisedStays(s: Setup, bar: nat, b: Bar, start: Pass, lots: seq<Lot>, n: nat, m: nat)
    requires n <= m <= |lots| && PassSound(start) && ExitLots(s, bar, b, start, lots, n).Raised?
    ensures ExitLots(s, bar, b, start, lots, m) == ExitLots(s, bar, b, start, lots, n)
    decreases m
  {
    if n < m { RaisedStays(s, bar, b, start, lots, n, m - 1); }
  }

  method ExitLoop(
    s: Setup, bar: nat, b: Bar, lots: seq<Lot>, inventory: FifoInventory, batch0: seq<Row>, written0: seq<Row>)
    returns (r: Pass)
    requires inventory.Valid()
    modifies inventory
    ensures inventory.Valid()
    ensures r == ExitLots(s, bar, b, Passing([], old(inventory.slices), false, batch0, written0), lots, |lots|)
    ensures r.Passing? ==> inventory.slices == r.queue
  {
    hide Sale, ClosedRow, MaybeExit, Sound;
    ghost var start := Passing([], inventory.slices, false, batch0, written0);
    var stillOpen: seq<Lot> := [];
    var exited := false;
    var batch, written := batch0, written0;
    for i := 0 to |lots|
      invariant inventory.Valid() && PassSound(start)
      invariant ExitLots(s, bar, b, start, lots, i) == Passing(stillOpen, inventory.slices, exited, batch, written)
    {
      var lot := lots[i];
      if bar > lot.entryBar {
        lot := lot.(lowest := Min(lot.lowest, b.low), highest := Max(lot.highest, b.high));
      }
      var closed := MaybeExit(lot, bar, b);
      if closed.Some? && closed.value.status == TARGET_HIT && exited { closed := None; }
      if closed.None? {
        stillOpen := stillOpen + [lot];
      } else {
        var fifo := None;
        if s.market.NSE? {
          var matched := inventory.Consume(lot.quantity);
          if matched.Err? {
            RaisedStays(s, bar, b, start, lots, i + 1, |lots|);
            return Raised(Ledger(matched.error), written);
          }
          fifo := Some(matched.value);
          exited := true;
        }
        batch := batch + [ClosedRow(s, lot, closed.value, fifo)];
        if |batch| >= s.settings.batchSize {
          written := written + batch;
          batch := [];
        }
      }
    }
    r := Passing(stillOpen, inventory.slices, exited, batch, written);
  }

  lemma {:induction false} StoppedStays(s: Setup, bars: seq<Bar>, n: nat, m: nat)
    requires n <= m <= |bars| && Run(s, bars, n).Stopped?
    ensures Run(s, bars, m) == Run(s, bars, n)
    decreases m
  {
    hide FillPending, ExitBar, PlaceOrder, Sound;
    if n < m { StoppedStays(s, bars, n, m - 1); }
  }

  lemma {:induction false} OpenRowsFail(s: Setup, bars: seq<Bar>, st: State, n: nat, m: nat)
    requires n <= m <= |st.lots| && Sound(st.queue) && OpenRows(s, bars, st, n).Err?
    ensures OpenRows(s, bars, st, m) == OpenRows(s, bars, st, n)
    decreases m
  {
    if n < m { OpenRowsFail(s, bars, st, n, m - 1); }
  }

  /** The OPEN rows of the end of the run, each previewed from the front of the queue. */
  method ReportOpen(s: Setup, bars: seq<Bar>, inventory: FifoInventory, ghost st: State, lots: seq<Lot>)
    returns (r: Result<seq<Row>, ReplayError>)
    requires inventory.Valid() && st.queue == inventory.slices && st.lots == lots
    ensures r == OpenRows(s, bars, st, |lots|)
  {
    hide Sale, OpenRow, Preview;
    var rows: seq<Row> := [];
    var close := if |bars| > 0 then bars[|bars| - 1].close else 0.0;
    for i := 0 to |lots|
      invariant OpenRows(s, bars, st, i) == Ok(rows)
    {
      var fifo := None;
      if s.market.NSE? {
        PreviewOne(inventory.slices, lots[i].quantity);
        var matched := inventory.PreviewAllocations([lots[i].quantity]);
        if matched.Err? {
          OpenRowsFail(s, bars, st, i + 1, |lots|);
          return Err(Ledger(matched.error));
        }
        fifo := Some(matched.value[0]);
      }
      rows := rows + [OpenRow(s, lots[i], close, |bars| - 1, fifo)];
    }
    r := Ok(rows);
  }

  /** The end of a bar: the order queued for the next open, with the counters it moves. */
  method NextOrder(s: Setup, bar: nat, b: Bar, more: bool, st: State)
    returns (pending: Option<Order>, cycle: nat, entries: nat)
    ensures PlaceOrder(s, bar, b, more, st) == st.(pending := pending, cycle := cycle, entries := entries)
  {
    pending, cycle, entries := st.pending, st.cycle, st.entries;
    if b.inWindow {
      if s.ladder.Some? && st.lots != [] {
        if && s.settings.allowAdditionalBuys && pending.None? && entries < s.MaximumEntries() && more
           && st.lastPrice.Some? && s.ladder.value.AdditionalEntryAllowed(b.close, st.lastPrice.value)
        {
          pending := Some(Order(bar, entries, st.lots[0].cycle));
          entries := entries + 1;
        }
      } else if b.buy {
        if st.lots == [] && pending.None? {
          cycle := cycle + 1;
          entries := 0;
        }
        if (st.lots == [] || s.settings.allowAdditionalBuys) && entries < s.MaximumEntries() && more {
          pending := Some(Order(bar, entries, cycle));
          entries := entries + 1;
        }
      }
    }
  }

  method RunSymbol(s: Setup, bars: seq<Bar>) returns (out: Outcome)
    ensures out == Replayed(s, bars)
  {
    hide Enter, SliceOf, ExitLots, Refresh, OpenRows, Sound, PlaceOrder;
    var inventory := new FifoInventory();
    var pending: Option<Order> := None;
    var lots: seq<Lot> := [];
    var cycle: nat, entries: nat := 0, 0;
    var firstPrice: Option<real>, lastPrice: Option<real> := None, None;
    var batch: seq<Row>, written: seq<Row> := [], [];
    for bar := 0 to |bars|
      invariant inventory.Valid() && fresh(inventory)
      invariant Run(s, bars, bar)
             == Going(State(pending, lots, inventory.slices, cycle, entries, firstPrice, lastPrice, batch, written))
    {
      ghost var before := State(pending, lots, inventory.slices, cycle, entries, firstPrice, lastPrice, batch, written);
      ghost var next := Step(s, bars, bar, Going(before));
      assert next == Run(s, bars, bar + 1);
      if next.Stopped? { StoppedStays(s, bars, bar + 1, |bars|); }
      if bar % CANCEL_CHECK_BARS == 0 && bars[bar].cancel { return Aborted(Cancelled, written); }
      if pending.Some? {
        var order := pending.value;
        pending := None;
        var entered := Enter(s, bars, bar, order, firstPrice, Cost(inventory.slices));
        if entered.Err? { return Aborted(entered.error, written); }
        if entered.value.Some? {
          var lot := entered.value.value;
          lots := lots + [lot];
          var slice := SliceOf(s, lot);
          var added := inventory.Add(slice.id, slice.at, slice.price, slice.quantity, slice.fees);
          if added.Err? { return Aborted(Ledger(added.error), written); }
          var refreshed := RefreshTargets(s, lots, inventory);
          if refreshed.Err? { return Aborted(refreshed.error, written); }
          lots := refreshed.value;
          firstPrice := Some(Or(firstPrice, lot.entryPrice));
          lastPrice := Some(lot.entryPrice);
        } else {
          entries := Less(entries);
        }
      }
      ghost var filled := State(pending, lots, inventory.slices, cycle, entries, firstPrice, lastPrice, batch, written);
      assert FillPending(s, bars, bar, before) == Going(filled);
      var pass := ExitLoop(s, bar, bars[bar], lots, inventory, batch, written);
      if pass.Raised? { return Aborted(pass.error, pass.lost); }
      lots, batch, written := pass.kept, pass.batch, pass.written;
      if pass.exited {
        var refreshed := RefreshTargets(s, lots, inventory);
        if refreshed.Err? { return Aborted(refreshed.error, written); }
        lots := refreshed.value;
      }
      if lots == [] && pending.None? {
        entries := 0;
        firstPrice := None;
        lastPrice := None;
      }
      var exited := State(pending, lots, inventory.slices, cycle, entries, firstPrice, lastPrice, batch, written);
      assert ExitBar(s, bar, bars[bar], filled) == Going(exited);
      pending, cycle, entries := NextOrder(s, bar, bars[bar], bar + 1 < |bars|, exited);
    }
    ghost var end := State(pending, lots, inventory.slices, cycle, entries, firstPrice, lastPrice, batch, written);
    var rows := ReportOpen(s, bars, inventory, end, lots);
    if rows.Err? { return Aborted(rows.error, written); }
    batch := batch + rows.value;
    if |batch| > 0 { written := written + batch; }
    assert end.written + end.batch + rows.value == end.written + (end.batch + rows.value);
    out := Completed(written);
  }
}
