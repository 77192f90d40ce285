/** The replay's bar and the broker's candle, compared: given the same ordered lots, stops, targets
    and prices, both passes close the same lots with the same statuses at the same prices, except
    for an expiring lot whose target was suppressed, which the replay keeps and the broker
    expires. */
module ExitPasses {
  import opened Common
  import opened Fifo
  import opened LotPolicy
  import Replay
  import Broker

  /** The same lot as both programs see it: equal stop and target, and both agree whether this bar may
      close it and whether it has expired. */
  ghost predicate SameLot(e: Replay.Lot, l: Broker.Lot, bar: nat, c: Broker.Candle) {
    && e.stop == l.stop && e.target == l.target
    && (bar > e.entryBar <==> l.entryAt < c.at)
    && (e.expires.Some? && bar >= e.expires.value <==> l.expires.Some? && c.at >= l.expires.value)
  }

  ghost predicate SameBar(b: Replay.Bar, c: Broker.Candle) { b.high == c.high && b.low == c.low && b.close == c.close }

  ghost predicate SameLots(es: seq<Replay.Lot>, ls: seq<Broker.Lot>, bar: nat, c: Broker.Candle) {
    |es| == |ls| && forall i :: 0 <= i < |es| ==> SameLot(es[i], ls[i], bar, c)
  }

  // ---- the decisions of each pass --------------------------------------------------------------

  /** Which of the first n lots the replay closes, in loop order; on NSE an exit blocks later targets. */
  ghost function ReplayExit(market: Market, es: seq<Replay.Lot>, bar: nat, b: Replay.Bar, k: nat): Option<Replay.Exit>
    requires k < |es|
    decreases k, 1
  {
    Replay.Decide(Replay.Watch(es[k], bar, b), bar, b, ReplayBlocked(market, es, bar, b, k))
  }

  ghost predicate ReplayBlocked(market: Market, es: seq<Replay.Lot>, bar: nat, b: Replay.Bar, k: nat)
    requires k <= |es|
    decreases k, 0
  {
    market.NSE? && exists i :: 0 <= i < k && ReplayExit(market, es, bar, b, i).Some?
  }

  ghost function BrokerExit(
    market: Market, ls: seq<Broker.Lot>, c: Broker.Candle, k: nat): Option<(Broker.Status, real)>
    requires k < |ls|
    decreases k, 1
  {
    Broker.ExitOf(ls[k], c, BrokerBlocked(market, ls, c, k))
  }

  ghost predicate BrokerBlocked(market: Market, ls: seq<Broker.Lot>, c: Broker.Candle, k: nat)
    requires k <= |ls|
    decreases k, 0
  {
    market.NSE? && exists i :: 0 <= i < k && BrokerExit(market, ls, c, i).Some?
  }

  /** The loop flags of the two models are these. */
  lemma {:induction false} ReplayFlag(
    s: Replay.Setup, bar: nat, b: Replay.Bar, start: Replay.Pass, es: seq<Replay.Lot>, n: nat)
    requires n <= |es| && Replay.PassSound(start) && start.Passing? && !start.exited
    requires Replay.ExitLots(s, bar, b, start, es, n).Passing?
    ensures Replay.ExitLots(s, bar, b, start, es, n).exited == ReplayBlocked(s.market, es, bar, b, n)
  {
    hide Sale, Replay.ClosedRow, Replay.MaybeExit, Sound;
    if n > 0 {
      var p := Replay.ExitLots(s, bar, b, start, es, n - 1);
      assert p.Passing?;
      ReplayFlag(s, bar, b, start, es, n - 1);
      assert ReplayBlocked(s.market, es, bar, b, n)
        <==> ReplayBlocked(s.market, es, bar, b, n - 1)
             || (s.market.NSE? && ReplayExit(s.market, es, bar, b, n - 1).Some?);
    }
  }

  lemma {:induction false} BrokerFlag(d: Broker.Desk, o: Broker.Out, c: Broker.Candle, ls: seq<Broker.Lot>, n: nat)
    requires n <= |ls| && Broker.SoundInventories(o.book.inventories)
    requires Broker.ExitScan(d, o, c, ls, n).out.ok
    ensures Broker.ExitScan(d, o, c, ls, n).exited == BrokerBlocked(d.market, ls, c, n)
  {
    hide Broker.CloseLot, Broker.ExitOf;
    if n > 0 {
      BrokerFlag(d, o, c, ls, n - 1);
      assert Broker.ExitScan(d, o, c, ls, n - 1).out.ok;
      assert BrokerBlocked(d.market, ls, c, n)
        <==> BrokerBlocked(d.market, ls, c, n - 1) || (d.market.NSE? && BrokerExit(d.market, ls, c, n - 1).Some?);
    }
  }

  // ---- the lots that fire ------------------------------------------------------------------------

  /** A stop, a target or an expiry calls for closing the lot on this candle. */
  ghost predicate Fires(l: Broker.Lot, c: Broker.Candle) {
    && l.entryAt < c.at
    && (|| (l.stop.Some? && c.low <= l.stop.value)
        || c.high >= l.target
        || (l.expires.Some? && c.at >= l.expires.value))
  }

  /** Either pass has an exit behind it exactly when an earlier lot fires: the first that does is
      never blocked. */
  lemma {:induction false} BlockedWhenFired(
    market: Market, es: seq<Replay.Lot>, ls: seq<Broker.Lot>, bar: nat, b: Replay.Bar, c: Broker.Candle, k: nat)
    requires SameBar(b, c) && SameLots(es, ls, bar, c) && k <= |es|
    ensures ReplayBlocked(market, es, bar, b, k) <==> market.NSE? && exists i :: 0 <= i < k && Fires(ls[i], c)
    ensures BrokerBlocked(market, ls, c, k) <==> market.NSE? && exists i :: 0 <= i < k && Fires(ls[i], c)
  {
    if market.NSE? && k > 0 {
      BlockedWhenFired(market, es, ls, bar, b, c, k - 1);
      assert SameLot(es[k - 1], ls[k - 1], bar, c);
      assert ReplayBlocked(market, es, bar, b, k)
        <==> ReplayBlocked(market, es, bar, b, k - 1) || ReplayExit(market, es, bar, b, k - 1).Some?;
      assert BrokerBlocked(market, ls, c, k)
        <==> BrokerBlocked(market, ls, c, k - 1) || BrokerExit(market, ls, c, k - 1).Some?;
    }
  }

  // ---- agreement ----------------------------------------------------------------------------------

  ghost function AsBroker(status: Replay.Status): Broker.Status {
    match status
    case STOPPED => Broker.STOPPED
    case TARGET_HIT => Broker.TARGET_HIT
    case EXPIRED => Broker.EXPIRED
    case OPEN => Broker.OPEN
  }

  /** Both leave the lot open, or both close it with the same status at the same raw price. */
  ghost predicate Agree(e: Option<Replay.Exit>, l: Option<(Broker.Status, real)>) {
    && (e.Some? <==> l.Some?)
    && (e.Some? ==> AsBroker(e.value.status) == l.value.0 && e.value.price == l.value.1)
  }

  /** The lot's target was reached but an earlier NSE exit blocks it, and it has expired. */
  ghost predicate Suppressed(market: Market, ls: seq<Broker.Lot>, c: Broker.Candle, k: nat)
    requires k < |ls|
  {
    var l := ls[k];
    && market.NSE? && l.entryAt < c.at && !(l.stop.Some? && c.low <= l.stop.value) && c.high >= l.target
    && l.expires.Some? && c.at >= l.expires.value
    && exists i :: 0 <= i < k && Fires(ls[i], c)
  }

  /** The passes agree on a lot exactly when it is not an expiring lot with a suppressed target. */
  lemma PassesAgree(
    market: Market, es: seq<Replay.Lot>, ls: seq<Broker.Lot>, bar: nat, b: Replay.Bar, c: Broker.Candle, k: nat)
    requires SameBar(b, c) && SameLots(es, ls, bar, c) && k < |es|
    ensures Agree(ReplayExit(market, es, bar, b, k), BrokerExit(market, ls, c, k)) <==> !Suppressed(market, ls, c, k)
  {
    BlockedWhenFired(market, es, ls, bar, b, c, k);
    assert SameLot(es[k], ls[k], bar, c);
  }

  // ---- what the passes write -----------------------------------------------------------------------

  /** A lot closed by a pass: its place in the loop, its status and the raw price. */
  datatype Closing = Closing(index: nat, status: Broker.Status, price: real)

  ghost function ReplayClosings(market: Market, es: seq<Replay.Lot>, bar: nat, b: Replay.Bar, n: nat): seq<Closing>
    requires n <= |es|
  {
    if n == 0 then []
    else
      var exit := ReplayExit(market, es, bar, b, n - 1);
      ReplayClosings(market, es, bar, b, n - 1)
      + (if exit.Some? then [Closing(n - 1, AsBroker(exit.value.status), exit.value.price)] else [])
  }

  ghost function BrokerClosings(market: Market, ls: seq<Broker.Lot>, c: Broker.Candle, n: nat): seq<Closing>
    requires n <= |ls|
  {
    if n == 0 then []
    else
      var exit := BrokerExit(market, ls, c, n - 1);
      BrokerClosings(market, ls, c, n - 1)
      + (if exit.Some? then [Closing(n - 1, exit.value.0, exit.value.1)] else [])
  }

  /** The rows are those of these closings, one for each and in this order. */
  ghost predicate Reports(rows: seq<Replay.Row>, closings: seq<Closing>, es: seq<Replay.Lot>, bar: nat, b: Replay.Bar) {
    && |rows| == |closings|
    && forall m :: 0 <= m < |rows| ==>
         && closings[m].index < |es| && rows[m].lot == Replay.Watch(es[closings[m].index], bar, b)
         && rows[m].exit.Some? && AsBroker(rows[m].exit.value.status) == closings[m].status
         && rows[m].exit.value.price == closings[m].price
  }

  /** The sale a closing is stored as. */
  ghost function SaleOf(d: Broker.Desk, l: Broker.Lot, price: real, at: int): Broker.Trade {
    var fill := d.fees.sell(price, l.quantity);
    Broker.Trade(l.id, l.symbol, false, l.quantity, d.rounding.four(fill.price), d.rounding.four(fill.fees), at)
  }

  /** The trades are the sales of these closings, one for each and in this order. */
  ghost predicate Sells(
    d: Broker.Desk, trades: seq<Broker.Trade>, closings: seq<Closing>, ls: seq<Broker.Lot>, at: int) {
    && |trades| == |closings|
    && forall m :: 0 <= m < |trades| ==>
         closings[m].index < |ls| && trades[m] == SaleOf(d, ls[closings[m].index], closings[m].price, at)
  }

  ghost predicate Distinct(ls: seq<Broker.Lot>) { forall i, j :: 0 <= i < j < |ls| ==> ls[i].id != ls[j].id }

  /** The lots' rows from n on are open. */
  ghost predicate OpenFrom(ls: seq<Broker.Lot>, lots: seq<Broker.Lot>, n: nat) {
    forall i :: n <= i < |ls| ==> ls[i].id < |lots| && lots[ls[i].id].status == Broker.OPEN
  }

  /** The table has each closing's status on its lot. */
  ghost predicate Marked(lots: seq<Broker.Lot>, closings: seq<Closing>, ls: seq<Broker.Lot>) {
    forall m :: 0 <= m < |closings| ==>
      && closings[m].index < |ls| && ls[closings[m].index].id < |lots|
      && lots[ls[closings[m].index].id].status == closings[m].status
  }

  /** The row one lot adds to a pass, if it is closed. */
  ghost function OneWrites(s: Replay.Setup, bar: nat, b: Replay.Bar, p: Replay.Pass, e: Replay.Lot): seq<Replay.Row>
    requires p.Passing? && Sound(p.queue)
  {
    var lot := Replay.Watch(e, bar, b);
    var exit := Replay.Decide(lot, bar, b, p.exited);
    if exit.None? then []
    else if s.market.CRYPTO? then [Replay.ClosedRow(s, lot, exit.value, None)]
    else if Sale(p.queue, lot.quantity).Ok?
    then [Replay.ClosedRow(s, lot, exit.value, Some(Sale(p.queue, lot.quantity).value.0))]
    else []
  }

  lemma OneAppends(s: Replay.Setup, bar: nat, b: Replay.Bar, p: Replay.Pass, e: Replay.Lot)
    requires p.Passing? && Sound(p.queue) && Replay.ExitOne(s, bar, b, p, e).Passing?
    ensures var r := Replay.ExitOne(s, bar, b, p, e);
            r.written + r.batch == p.written + p.batch + OneWrites(s, bar, b, p, e)
    ensures var exit := Replay.Decide(Replay.Watch(e, bar, b), bar, b, p.exited);
            var rows := OneWrites(s, bar, b, p, e);
            && (exit.None? ==> rows == [])
            && (exit.Some? ==> |rows| == 1 && rows[0].lot == Replay.Watch(e, bar, b) && rows[0].exit == exit)
  {
    hide Sale, Replay.MaybeExit, Replay.Decide, Replay.Emit, Replay.Watch;
    var lot := Replay.Watch(e, bar, b);
    var exit := Replay.Decide(lot, bar, b, p.exited);
    if exit.None? {
      assert p.written + p.batch + [] == p.written + p.batch;
    } else if s.market.CRYPTO? {
      Replay.EmitAppends(p, Replay.ClosedRow(s, lot, exit.value, None), s.settings.batchSize);
    } else {
      var (m, left) := Sale(p.queue, lot.quantity).value;
      Replay.EmitAppends(p.(queue := left, exited := true), Replay.ClosedRow(s, lot, exit.value, Some(m)),
        s.settings.batchSize);
    }
  }

  lemma ReportsNext(
    rows: seq<Replay.Row>, closings: seq<Closing>, more: seq<Replay.Row>, next: seq<Closing>,
    es: seq<Replay.Lot>, bar: nat, b: Replay.Bar)
    requires Reports(rows, closings, es, bar, b) && Reports(more, next, es, bar, b)
    ensures Reports(rows + more, closings + next, es, bar, b)
  {}

  /** The replay's pass appends exactly the rows of its closings, batch flushes or not. */
  lemma {:induction false} ReplayWrites(
    s: Replay.Setup, bar: nat, b: Replay.Bar, start: Replay.Pass, es: seq<Replay.Lot>, n: nat)
    returns (rows: seq<Replay.Row>)
    requires n <= |es| && Replay.PassSound(start) && start.Passing? && !start.exited
    requires Replay.ExitLots(s, bar, b, start, es, n).Passing?
    ensures var r := Replay.ExitLots(s, bar, b, start, es, n);
            r.written + r.batch == start.written + start.batch + rows
    ensures Reports(rows, ReplayClosings(s.market, es, bar, b, n), es, bar, b)
  {
    hide Sound, Replay.ExitOne, Replay.Decide, Replay.Watch, ReplayBlocked, OneWrites;
    rows := [];
    if n > 0 {
      var p := Replay.ExitLots(s, bar, b, start, es, n - 1);
      assert p.Passing? by { RaisedStays(s, bar, b, p, es[n - 1]); }
      var before := ReplayWrites(s, bar, b, start, es, n - 1);
      ReplayFlag(s, bar, b, start, es, n - 1);
      OneAppends(s, bar, b, p, es[n - 1]);
      var more := OneWrites(s, bar, b, p, es[n - 1]);
      rows := before + more;
      var exit := ReplayExit(s.market, es, bar, b, n - 1);
      var next := if exit.Some? then [Closing(n - 1, AsBroker(exit.value.status), exit.value.price)] else [];
      assert Reports(more, next, es, bar, b);
      hide Reports;
      ReportsNext(before, ReplayClosings(s.market, es, bar, b, n - 1), more, next, es, bar, b);
    }
  }

  lemma RaisedStays(s: Replay.Setup, bar: nat, b: Replay.Bar, p: Replay.Pass, e: Replay.Lot)
    requires Replay.PassSound(p) && Replay.ExitOne(s, bar, b, p, e).Passing?
    ensures p.Passing?
  {}

  // ---- what the broker writes ------------------------------------------------------------------------

  /** A close that goes through stores its sale and its status, and nothing else changes in either table. */
  lemma CloseStores(d: Broker.Desk, b: Broker.Book, lot: Broker.Lot, status: Broker.Status, raw: real, at: int)
    requires Broker.SoundInventories(b.inventories) && Broker.CloseLot(d, b, lot, status, raw, at).ok
    ensures var r := Broker.CloseLot(d, b, lot, status, raw, at).book;
            && r.trades == b.trades + [SaleOf(d, lot, raw, at)] && |r.lots| == |b.lots| && lot.id < |b.lots|
            && (b.lots[lot.id].status == Broker.OPEN ==> r.lots[lot.id].status == status)
            && (forall k :: 0 <= k < |b.lots| && k != lot.id ==> r.lots[k] == b.lots[k])
  {
    hide Broker.Basis, Broker.RealizedPnl, Broker.Remove, Broker.ExitProceeds, Sale;
  }

  ghost predicate IndicesBelow(closings: seq<Closing>, n: nat) {
    forall m :: 0 <= m < |closings| ==> closings[m].index < n
  }

  /** What the scan has done to the two tables after the first n lots. */
  ghost predicate Done(
    d: Broker.Desk, start: Broker.Book, b: Broker.Book, sales: seq<Broker.Trade>, closings: seq<Closing>,
    ls: seq<Broker.Lot>, at: int, n: nat)
  {
    && b.trades == start.trades + sales && |b.lots| == |start.lots| && IndicesBelow(closings, n)
    && Sells(d, sales, closings, ls, at) && Marked(b.lots, closings, ls) && OpenFrom(ls, b.lots, n)
  }

  lemma DoneNext(
    d: Broker.Desk, start: Broker.Book, b: Broker.Book, sales: seq<Broker.Trade>, closings: seq<Closing>,
    ls: seq<Broker.Lot>, at: int, next: Closing)
    requires next.index < |ls| && Distinct(ls) && Done(d, start, b, sales, closings, ls, at, next.index)
    requires Broker.SoundInventories(b.inventories)
    requires Broker.CloseLot(d, b, ls[next.index], next.status, next.price, at).ok
    ensures var after := Broker.CloseLot(d, b, ls[next.index], next.status, next.price, at).book;
            var sale := SaleOf(d, ls[next.index], next.price, at);
            Done(d, start, after, sales + [sale], closings + [next], ls, at, next.index + 1)
  {
    hide Broker.CloseLot, SaleOf;
    var sale := SaleOf(d, ls[next.index], next.price, at);
    CloseStores(d, b, ls[next.index], next.status, next.price, at);
    assert start.trades + (sales + [sale]) == start.trades + sales + [sale];
  }

  /** The broker's pass stores exactly the sales of its closings, in order, and their statuses. */
  lemma {:induction false} BrokerWrites(
    d: Broker.Desk, o: Broker.Out, c: Broker.Candle, ls: seq<Broker.Lot>, n: nat) returns (sales: seq<Broker.Trade>)
    requires n <= |ls| && Broker.SoundInventories(o.book.inventories) && Broker.ExitScan(d, o, c, ls, n).out.ok
    requires Distinct(ls) && OpenFrom(ls, o.book.lots, 0)
    ensures var r := Broker.ExitScan(d, o, c, ls, n).out.book;
            Done(d, o.book, r, sales, BrokerClosings(d.market, ls, c, n), ls, c.at, n)
  {
    hide Broker.CloseLot, Broker.ExitOf, BrokerBlocked, SaleOf, Sound;
    sales := [];
    if n == 0 {
      assert o.book.trades + [] == o.book.trades;
    } else {
      hide Done, Distinct, OpenFrom;
      var before := Broker.ExitScan(d, o, c, ls, n - 1);
      var earlier := BrokerClosings(d.market, ls, c, n - 1);
      sales := BrokerWrites(d, o, c, ls, n - 1);
      BrokerFlag(d, o, c, ls, n - 1);
      var exit := BrokerExit(d.market, ls, c, n - 1);
      assert exit == Broker.ExitOf(ls[n - 1], c, before.exited);
      if exit.Some? {
        var next := Closing(n - 1, exit.value.0, exit.value.1);
        DoneNext(d, o.book, before.out.book, sales, earlier, ls, c.at, next);
        sales := sales + [SaleOf(d, ls[n - 1], next.price, c.at)];
      } else {
        assert earlier + [] == earlier;
        DoneSkips(d, o.book, before.out.book, sales, earlier, ls, c.at, n - 1);
      }
    }
  }

  lemma DoneSkips(
    d: Broker.Desk, start: Broker.Book, b: Broker.Book, sales: seq<Broker.Trade>, closings: seq<Closing>,
    ls: seq<Broker.Lot>, at: int, n: nat)
    requires Done(d, start, b, sales, closings, ls, at, n)
    ensures Done(d, start, b, sales, closings, ls, at, n + 1)
  {}

  // ---- the passes write alike --------------------------------------------------------------------------

  /** Both passes close the same lots, with the same statuses at the same raw prices in the same order,
      exactly when no lot is an expiring one with a suppressed target. */
  lemma {:induction false} ClosingsAgree(
    market: Market, es: seq<Replay.Lot>, ls: seq<Broker.Lot>, bar: nat, b: Replay.Bar, c: Broker.Candle, n: nat)
    requires SameBar(b, c) && SameLots(es, ls, bar, c) && n <= |es|
    ensures ReplayClosings(market, es, bar, b, n) == BrokerClosings(market, ls, c, n) <==>
              NoneSuppressed(market, ls, c, n)
    ensures IndicesBelow(ReplayClosings(market, es, bar, b, n), n) && IndicesBelow(BrokerClosings(market, ls, c, n), n)
  {
    if n > 0 {
      assert |es| == |ls|;
      hide ReplayExit, BrokerExit, Suppressed, SameLots, SameBar, NoneSuppressed, IndicesBelow, Agree;
      ClosingsAgree(market, es, ls, bar, b, c, n - 1);
      PassesAgree(market, es, ls, bar, b, c, n - 1);
      var e, l := ReplayExit(market, es, bar, b, n - 1), BrokerExit(market, ls, c, n - 1);
      var a := if e.Some? then Some(Closing(n - 1, AsBroker(e.value.status), e.value.price)) else None;
      var z := if l.Some? then Some(Closing(n - 1, l.value.0, l.value.1)) else None;
      assert a == z <==> Agree(e, l) by { AgreeMeansEqual(e, l, n - 1); }
      assert NoneSuppressed(market, ls, c, n) <==>
        NoneSuppressed(market, ls, c, n - 1) && !Suppressed(market, ls, c, n - 1) by {
        SuppressedNext(market, ls, c, n);
      }
      LastClosing(ReplayClosings(market, es, bar, b, n - 1), a, BrokerClosings(market, ls, c, n - 1), z, n - 1);
    }
  }

  ghost predicate NoneSuppressed(market: Market, ls: seq<Broker.Lot>, c: Broker.Candle, n: nat)
    requires n <= |ls|
  {
    forall k :: 0 <= k < n ==> !Suppressed(market, ls, c, k)
  }

  lemma SuppressedNext(market: Market, ls: seq<Broker.Lot>, c: Broker.Candle, n: nat)
    requires 0 < n <= |ls|
    ensures NoneSuppressed(market, ls, c, n) <==>
              NoneSuppressed(market, ls, c, n - 1) && !Suppressed(market, ls, c, n - 1)
  {
    hide Suppressed;
  }

  lemma AgreeMeansEqual(e: Option<Replay.Exit>, l: Option<(Broker.Status, real)>, n: nat)
    ensures Agree(e, l) <==>
              (if e.Some? then Some(Closing(n, AsBroker(e.value.status), e.value.price)) else None)
              == (if l.Some? then Some(Closing(n, l.value.0, l.value.1)) else None)
  {}

  lemma LastClosing(x: seq<Closing>, a: Option<Closing>, y: seq<Closing>, b: Option<Closing>, n: nat)
    requires IndicesBelow(x, n) && IndicesBelow(y, n) && (a.Some? ==> a.value.index == n)
    requires (b.Some? ==> b.value.index == n)
    ensures x + (if a.Some? then [a.value] else []) == y + (if b.Some? then [b.value] else []) <==> x == y && a == b
    ensures IndicesBelow(x + (if a.Some? then [a.value] else []), n + 1)
    ensures IndicesBelow(y + (if b.Some? then [b.value] else []), n + 1)
  {
    var s, t := x + (if a.Some? then [a.value] else []), y + (if b.Some? then [b.value] else []);
    if s == t {
      if a.Some? { assert s[|s| - 1] == a.value && t[|t| - 1].index == n; }
      if b.Some? { assert t[|t| - 1] == b.value && s[|s| - 1].index == n; }
      assert x == s[..|x|] && y == t[..|y|];
    }
  }

  /** A bar of the replay that goes through and a candle of the broker that goes through, over lots that look the
      same and of which none is suppressed, write the same closings: one row and one sale each, in the same order,
      with the same status and at the same raw price. On either market. */
  lemma PassesWriteAlike(
    s: Replay.Setup, bar: nat, b: Replay.Bar, start: Replay.Pass, es: seq<Replay.Lot>,
    d: Broker.Desk, o: Broker.Out, c: Broker.Candle, ls: seq<Broker.Lot>)
    returns (closings: seq<Closing>, rows: seq<Replay.Row>, sales: seq<Broker.Trade>)
    requires s.market == d.market && SameBar(b, c) && SameLots(es, ls, bar, c)
    requires NoneSuppressed(d.market, ls, c, |ls|)
    requires Replay.PassSound(start) && start.Passing? && !start.exited
    requires Replay.ExitLots(s, bar, b, start, es, |es|).Passing?
    requires Broker.SoundInventories(o.book.inventories) && Broker.ExitScan(d, o, c, ls, |ls|).out.ok
    requires Distinct(ls) && OpenFrom(ls, o.book.lots, 0)
    ensures var r := Replay.ExitLots(s, bar, b, start, es, |es|);
            r.written + r.batch == start.written + start.batch + rows && Reports(rows, closings, es, bar, b)
    ensures var r := Broker.ExitScan(d, o, c, ls, |ls|).out.book;
            r.trades == o.book.trades + sales && Sells(d, sales, closings, ls, c.at) && Marked(r.lots, closings, ls)
  {
    hide Sells, Reports, Marked, Suppressed, NoneSuppressed, Replay.ExitLots, Broker.ExitScan, OpenFrom;
    rows := ReplayWrites(s, bar, b, start, es, |es|);
    sales := BrokerWrites(d, o, c, ls, |ls|);
    ClosingsAgree(d.market, es, ls, bar, b, c, |es|);
    closings := BrokerClosings(d.market, ls, c, |ls|);
  }

  /** A lot without an expiry is never suppressed into a disagreement. */
  lemma NoExpiryNoneSuppressed(market: Market, ls: seq<Broker.Lot>, c: Broker.Candle)
    requires forall i :: 0 <= i < |ls| ==> ls[i].expires.None?
    ensures NoneSuppressed(market, ls, c, |ls|)
  {}

  /** The two rules are not the same: of two lots at their targets, the second expiring, the replay's would keep
      the second and the broker's expires it. No replay lists such lots (see ReplayExpiry). */
  lemma {:induction false} RulesDiffer(es: seq<Replay.Lot>, ls: seq<Broker.Lot>, b: Replay.Bar, c: Broker.Candle)
    requires SameBar(b, c) && SameLots(es, ls, 5, c) && |ls| == 2 && c.at == 5 && c.high == 110.0
    requires ls[0].entryAt == 1 && ls[0].stop.None? && ls[0].target == 105.0
    requires ls[1].entryAt == 2 && ls[1].stop.None? && ls[1].target == 106.0 && ls[1].expires == Some(5)
    ensures ReplayExit(NSE, es, 5, b, 1).None? && BrokerExit(NSE, ls, c, 1) == Some((Broker.EXPIRED, c.close))
  {
    assert SameLot(es[0], ls[0], 5, c) && SameLot(es[1], ls[1], 5, c);
    assert ReplayExit(NSE, es, 5, b, 0).Some? && ReplayBlocked(NSE, es, 5, b, 1);
    assert BrokerExit(NSE, ls, c, 0).Some? && BrokerBlocked(NSE, ls, c, 1);
  }
}
