/** The exits of a replay's bar and of the broker's candle, compared on the states the programs reach: the lots of
    any replay, expiries included, and the open lots of any sane account. Both write the same closings. */
module ExitAgreement {
  import opened Common
  import opened Fifo
  import opened LotPolicy
  import opened ExitPasses
  import Replay
  import ReplayHistory
  import ReplayExpiry
  import ReplayInventory
  import Broker
  import BrokerCore
  import BrokerRuns
  import BrokerEvents

  /** The state whose lots the exits of bar n look at. */
  ghost function FilledAt(s: Replay.Setup, bars: seq<Replay.Bar>, n: nat): Replay.Progress
    requires n < |bars| && Replay.Run(s, bars, n).Going?
  {
    Replay.FillPending(s, bars, n, Replay.Run(s, bars, n).st)
  }

  /** No target of a replay's expiring lot is ever suppressed: whatever lots of the broker look the same on the
      bar, the two passes agree on them. */
  lemma NeverSuppressed(
    s: Replay.Setup, bars: seq<Replay.Bar>, n: nat, market: Market, ls: seq<Broker.Lot>, c: Broker.Candle)
    requires s.Valid() && n < |bars| && Replay.Run(s, bars, n).Going? && FilledAt(s, bars, n).Going?
    requires SameLots(FilledAt(s, bars, n).st.lots, ls, n, c)
    ensures NoneSuppressed(market, ls, c, |ls|)
  {
    hide Replay.Run, Replay.FillPending;
    var es := FilledAt(s, bars, n).st.lots;
    forall k | 0 <= k < |ls| ensures !Suppressed(market, ls, c, k) {
      assert SameLot(es[k], ls[k], n, c);
      if Suppressed(market, ls, c, k) { ReplayExpiry.ExpiredIsFirst(s, bars, n, k); }
    }
  }

  /** What a bar that goes through has passed. */
  lemma BarPasses(s: Replay.Setup, bars: seq<Replay.Bar>, n: nat)
    requires n < |bars| && Replay.Run(s, bars, n + 1).Going?
    ensures Replay.Run(s, bars, n).Going? && FilledAt(s, bars, n).Going?
    ensures var before, filled := Replay.Run(s, bars, n).st, FilledAt(s, bars, n).st;
            var p := Replay.ExitLots(s, n, bars[n], Replay.PassOf(filled), filled.lots, |filled.lots|);
            && Replay.PassSound(Replay.PassOf(filled)) && p.Passing?
            && ReplayHistory.Rows(filled) == ReplayHistory.Rows(before)
            && ReplayHistory.Rows(Replay.Run(s, bars, n + 1).st) == p.written + p.batch
  {
    hide Replay.ExitLots, Replay.Refresh, Replay.Enter, Replay.PlaceOrder, Sound;
    var filled := FilledAt(s, bars, n).st;
    ReplayInventory.PlaceOrderKeeps(s, n, bars[n], n + 1 < |bars|, Replay.ExitBar(s, n, bars[n], filled).st);
  }

  lemma OpenAndDistinct(b: Broker.Book, symbol: string, timeframe: Option<string>)
    requires BrokerCore.Mirrors(b.lots, b.open)
    ensures var ls := Broker.LotsFor(b.open, symbol, timeframe);
            Distinct(ls) && OpenFrom(ls, b.lots, 0)
  {
    var ls := Broker.LotsFor(b.open, symbol, timeframe);
    BrokerCore.LotsForIs(b.open, symbol, timeframe);
    forall i | 0 <= i < |ls| ensures ls[i].id < |b.lots| && b.lots[ls[i].id].status == Broker.OPEN {
      assert ls[i] in b.open;
      var k :| 0 <= k < |b.open| && b.open[k] == ls[i];
      assert BrokerCore.SameLot(b.lots[ls[i].id], b.open[k]);
    }
  }

  /** For every bar of every replay that goes through, and every sane account whose open lots of the symbol look
      the same on a candle with the same prices: the bar and the candle write the same closings, one row
      and one sale each, in the same order, with the same status and at the same raw price. */
  lemma ReplayAndBrokerWriteAlike(
    s: Replay.Setup, bars: seq<Replay.Bar>, n: nat,
    d: Broker.Desk, terms: BrokerRuns.Terms, o: Broker.Out, c: Broker.Candle)
    returns (closings: seq<Closing>, rows: seq<Replay.Row>, sales: seq<Broker.Trade>)
    requires s.Valid() && n < |bars| && Replay.Run(s, bars, n + 1).Going? && s.market == d.market
    requires BrokerRuns.DeskOk(d, terms) && BrokerRuns.Sane(d, terms, o.book) && o.ok
    requires Replay.Run(s, bars, n).Going? && FilledAt(s, bars, n).Going? && SameBar(bars[n], c)
    requires SameLots(FilledAt(s, bars, n).st.lots, Broker.LotsFor(o.book.open, c.symbol, c.lotTimeframe), n, c)
    ensures ReplayHistory.Rows(Replay.Run(s, bars, n + 1).st) == ReplayHistory.Rows(Replay.Run(s, bars, n).st) + rows
    ensures Reports(rows, closings, FilledAt(s, bars, n).st.lots, n, bars[n])
    ensures Broker.SoundInventories(o.book.inventories)
    ensures var ls := Broker.LotsFor(o.book.open, c.symbol, c.lotTimeframe);
            var r := Broker.ExitScan(d, o, c, ls, |ls|).out;
            && r.ok && r.book.trades == o.book.trades + sales
            && Sells(d, sales, closings, ls, c.at) && Marked(r.book.lots, closings, ls)
  {
    hide Replay.Run, FilledAt, Replay.ExitLots, Broker.ExitScan, Broker.LotsFor, BrokerRuns.Sane, BrokerRuns.DeskOk,
         Reports, Sells, Marked, Distinct, OpenFrom, NoneSuppressed, SameLots;
    var filled := FilledAt(s, bars, n).st;
    var ls := Broker.LotsFor(o.book.open, c.symbol, c.lotTimeframe);
    BarPasses(s, bars, n);
    NeverSuppressed(s, bars, n, d.market, ls, c);
    BrokerRuns.SaneBasics(d, terms, o.book);
    OpenAndDistinct(o.book, c.symbol, c.lotTimeframe);
    BrokerCore.LotsForCurrent(o.book, c.symbol, c.lotTimeframe);
    BrokerEvents.ExitScanKeeps(d, terms, o, c, ls, |ls|);
    closings, rows, sales :=
      PassesWriteAlike(s, n, bars[n], Replay.PassOf(filled), filled.lots, d, o, c, ls);
  }
}
