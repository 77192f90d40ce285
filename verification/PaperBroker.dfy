/** The broker as an object: methods that update tables and caches step by step, each proved to leave
    the book that the functions of module Broker describe, so that the run theorems apply to it. */
module PaperBroker {
  import opened Common
  import opened Fifo
  import opened Fees
  import opened LotPolicy
  import opened Broker
  import opened BrokerCore
  import opened BrokerRecovery

  class PaperBroker {
    const desk: Desk
    const starting: real
    var cash: real
    var orders: seq<Order>
    var lots: seq<Lot>
    var trades: seq<Trade>
    var pending: seq<Pending>
    var open: seq<Lot>
    var inventories: map<string, seq<Slice>>
    var filled: nat
    var rejected: nat

    function View(): Book
      reads this
    {
      Book(starting, cash, orders, lots, trades, pending, open, inventories)
    }

    ghost predicate Valid()
      reads this
    {
      SoundInventories(inventories)
    }

    constructor (desk: Desk, balance: real)
      ensures Valid() && this.desk == desk
      ensures View() == Book(balance, balance, [], [], [], [], [], map[])
    {
      this.desk := desk;
      starting, cash := balance, balance;
      orders, lots, trades, pending, open := [], [], [], [], [];
      inventories := map[];
      filled, rejected := 0, 0;
    }

    /** `_mark_open_lots` over lots read from the cache. */
    method MarkOpenLots(marked: seq<Lot>, close: real) returns (ok: bool)
      requires Valid()
      modifies this`lots, this`open
      ensures Valid()
      ensures Out(View(), ok) == MarkLots(desk, Out(old(View()), true), marked, close, |marked|)
    {
      hide Remark, Replace, Sound;
      EmptyIsSound();
      ghost var start := Out(View(), true);
      ok := true;
      for i := 0 to |marked|
        invariant Valid() && inventories == old(inventories)
        invariant Out(View(), ok) == MarkLots(desk, start, marked, close, i)
      {
        if ok {
          var lot := marked[i];
          var mark := Remark(desk, QueueOf(inventories, lot.symbol), lot, close);
          if mark.None? || lot.id >= |lots| {
            ok := false;
          } else {
            var row := lots[lot.id];
            if row.status == OPEN {
              row := row.(costBasis := mark.value.0.costBasis, lastPrice := mark.value.0.lastPrice,
                          target := mark.value.0.target, unrealized := mark.value.0.unrealized, fees := mark.value.1);
            }
            lots := lots[lot.id := row];
            open := Replace(open, mark.value.0);
          }
        }
      }
    }

    /** `_fill_entry`: refuse with a recorded reason, or write order, lot, trade, ledger and cash, then
        re-mark the symbol. */
    method FillEntry(sig: Signal, reference: real, at: int) returns (ok: bool)
      requires Valid()
      modifies this
      ensures Valid()
      ensures Out(View(), ok) == Broker.FillEntry(desk, old(View()), sig, reference, at)
    {
      hide Judge, MarkLots, NewLot, LotsFor, Sound;
      var before := View();
      var verdict := Judge(desk, before, sig, reference, at);
      match verdict {
        case Raise =>
          ok := false;
        case Refuse(reason) =>
          orders := orders + [Rejected(sig.id, reason)];
          rejected := rejected + 1;
          ok := true;
        case Duplicate =>
          rejected := rejected + 1;
          ok := true;
        case Accept(_, _, _, fill, cost) =>
          orders := orders + [Filled(sig.id)];
          if TargetPctRaises(sig) { return false; }
          var lot := NewLot(desk, before, sig, at, verdict);
          lots := lots + [lot];
          trades := trades + [Trade(lot.id, lot.symbol, true, lot.quantity, lot.entryPrice, lot.fees, at)];
          if desk.market.NSE? {
            if !ValidSlice(SliceOf(lot)) { return false; }
            inventories := inventories[lot.symbol := QueueOf(inventories, lot.symbol) + [SliceOf(lot)]];
          }
          cash := cash - cost;
          open := open + [lot];
          EnteredSound(desk, before, lot, inventories);
          ok := MarkOpenLots(LotsFor(open, sig.symbol, None), desk.rounding.four(fill.price));
          if ok { filled := filled + 1; }
      }
    }

    /** `_close_lot`: match the sale first in, first out, store the result, release the inventory and
        book the proceeds. */
    method CloseLot(lot: Lot, status: Status, raw: real, at: int) returns (ok: bool)
      requires Valid()
      modifies this`cash, this`lots, this`trades, this`open, this`inventories
      ensures Valid()
      ensures Out(View(), ok) == Broker.CloseLot(desk, old(View()), lot, status, raw, at)
    {
      EmptyIsSound();
      hide Sale, Remove, ExitProceeds, Basis, ClosedRow, Sound;
      var queue := QueueOf(inventories, lot.symbol);
      var fill := desk.fees.sell(raw, lot.quantity);
      var basis := Basis(desk, queue, lot);
      if basis.None? || lot.id >= |lots| { return false; }
      var price := desk.rounding.four(fill.price);
      lots := lots[lot.id := ClosedRow(desk, lots[lot.id], basis.value, fill, lot.quantity, status, at)];
      trades := trades + [Trade(lot.id, lot.symbol, false, lot.quantity, price, desk.rounding.four(fill.fees), at)];
      if desk.market.NSE? {
        var sale := Sale(queue, lot.quantity);
        BasisNeedsSale(desk, queue, lot);
        SaleLeavesSound(queue, lot.quantity);
        inventories := inventories[lot.symbol := sale.value.1];
      }
      cash := cash + ExitProceeds(fill, lot.quantity);
      open := Remove(open, lot.id);
      ok := true;
    }

    /** `_process_market_candle`: pending entries, exits, marks and ladder entries, in that order. */
    method ProcessMarketCandle(c: Candle) returns (ok: bool)
      requires Valid()
      modifies this
      ensures Valid()
      ensures Out(View(), ok) == OnCandle(desk, old(View()), c)
    {
      hide Broker.FillEntry, Broker.CloseLot, FillQueue, MarkLots, QueueLadders, LotsFor, ExitOf, Executable, Sound;
      ok := FillPending(c);
      if !ok { return; }
      var timeframeLots := LotsFor(open, c.symbol, c.lotTimeframe);
      ok := CloseHit(c, timeframeLots);
      if !ok { return; }
      var remaining := LotsFor(open, c.symbol, c.lotTimeframe);
      ok := MarkOpenLots(remaining, c.close);
      var queued := QueueLadders(desk, Out(View(), ok), c, remaining, |remaining|);
      LaddersOnlyQueue(desk, Out(View(), ok), c, remaining, |remaining|);
      pending, ok := queued.book.pending, queued.ok;
    }

    /** The pending loop of a candle. The list is popped first; a fill that raises leaves the entries of other
        symbols only. */
    method FillPending(c: Candle) returns (ok: bool)
      requires Valid()
      modifies this
      ensures Valid()
      ensures Out(View(), ok) == FillQueue(desk, old(View()), c)
    {
      hide Broker.FillEntry, Executable, Sound, OtherSymbols;
      var queue := pending;
      pending := [];
      ghost var start := Out(View(), true);
      ok := true;
      for i := 0 to |queue|
        invariant Valid()
        invariant Out(View(), ok) == FillPendings(desk, start, c, queue, i)
      {
        if ok {
          var p := queue[i];
          if p.signal.symbol != c.symbol {
            pending := pending + [p];
          } else if c.allowed(p.signal) {
            if (c.pendingTimeframe.Some? && p.signal.timeframe != c.pendingTimeframe.value) || !Executable(desk, p, c) {
              pending := pending + [p];
            } else {
              ok := FillEntry(p.signal, c.open, c.at);
            }
          }
        }
      }
      if !ok { pending := OtherSymbols(queue, c.symbol); }
    }

    /** The exit loop of a candle over the lots read before it. */
    method CloseHit(c: Candle, watched: seq<Lot>) returns (ok: bool)
      requires Valid()
      modifies this
      ensures Valid()
      ensures Out(View(), ok) == ExitScan(desk, Out(old(View()), true), c, watched, |watched|).out
    {
      hide Broker.CloseLot, ExitOf, Sound;
      ghost var start := Out(View(), true);
      ok := true;
      var nseExit := false;
      for i := 0 to |watched|
        invariant Valid()
        invariant Scan(Out(View(), ok), nseExit) == ExitScan(desk, start, c, watched, i)
      {
        var exit := ExitOf(watched[i], c, nseExit);
        if ok && exit.Some? {
          ok := CloseLot(watched[i], exit.value.0, exit.value.1, c.at);
          if desk.market.NSE? { nseExit := true; }
        }
      }
    }

    /** `_load_fifo_inventories`: one ledger per symbol from the log in chronological order. */
    method LoadInventories() returns (r: Result<map<string, seq<Slice>>, FifoError>)
      ensures r == Load(Chronological(trades))
    {
      hide Apply, Sound;
      var log := Chronological(trades);
      var loaded: map<string, seq<Slice>> := map[];
      for i := 0 to |log|
        invariant Load(log[..i]) == Ok(loaded)
      {
        assert log[..i + 1][..i] == log[..i];
        EmptyIsSound();
        var queue := Apply(QueueOf(loaded, log[i].symbol), LedgerTrade(log[i]));
        if queue.Err? {
          LoadFails(log, i + 1);
          return Err(queue.error);
        }
        loaded := loaded[log[i].symbol := queue.value];
      }
      assert log[..|log|] == log;
      r := Ok(loaded);
    }
  }

  lemma EnteredSound(d: Desk, b: Book, lot: Lot, inventories: map<string, seq<Slice>>)
    requires SoundInventories(b.inventories)
    requires if d.market.NSE? then
               ValidSlice(SliceOf(lot))
               && inventories == b.inventories[lot.symbol := QueueOf(b.inventories, lot.symbol) + [SliceOf(lot)]]
             else inventories == b.inventories
    ensures SoundInventories(inventories)
  {}

  lemma BasisNeedsSale(d: Desk, queue: seq<Slice>, lot: Lot)
    requires Sound(queue) && d.market.NSE? && Basis(d, queue, lot).Some?
    ensures Sale(queue, lot.quantity).Ok?
  {}

  lemma EmptyIsSound()
    ensures Sound([])
  {}

  lemma {:induction false} LoadFails(log: seq<Trade>, n: nat)
    requires n <= |log| && Load(log[..n]).Err?
    ensures Load(log) == Load(log[..n])
    decreases |log|
  {
    hide Apply;
    if n == |log| {
      assert log[..n] == log;
    } else {
      assert log[..|log| - 1][..n] == log[..n];
      LoadFails(log[..|log| - 1], n);
    }
  }
}
