/** The broker's limits over its tables: open positions, purchases per market day, cash, and one
    filled order per signal. */
module BrokerRisk {
  import opened Common
  import opened Fifo
  import opened Fees
  import opened LotPolicy
  import opened Broker

  // ---- what an accepted entry has passed --------------------------------------------------------

  /** An accepted entry is affordable and within every portfolio limit. */
  lemma AcceptedChecks(d: Desk, b: Book, sig: Signal, reference: real, at: int)
    requires Judge(d, b, sig, reference, at).Accept?
    ensures var v := Judge(d, b, sig, reference, at);
            var isNew := LotsOfKey(b.open, sig.symbol, sig.strategy, sig.timeframe) == [];
            && v.fill == d.fees.buy(reference, v.quantity) && v.cost == EntryCost(v.fill, v.quantity) <= b.cash
            && (isNew ==> |Positions(b.open)| < sig.config.policy.maximumOpenPositions)
            && Exposure(b.open) + v.cost <= b.starting * sig.config.policy.maximumExposurePct / 100.0
            && BuysOn(Recent(b.trades, TRADE_READ_LIMIT), d.day, d.day(at)) < sig.config.policy.maximumDailyTrades
            && RealizedOn(b.lots, d.day, d.day(at)) + Unrealized(b.open)
               > -(b.starting * sig.config.policy.maximumDailyLossPct / 100.0)
            && !AlreadyFilled(b.orders, sig.id)
            && (exists entry: nat, first :: EntryQuantity(d, sig.config, entry, first, reference) == Some(v.quantity))
  {
    hide EntryQuantity, AlreadyFilled, EntryCost, EntryValue, Positions, Exposure, BuysOn, Recent, RealizedOn,
         Unrealized;
  }

  /** Configurations this desk accepts: validated, and on NSE with a whole minimum lot. */
  ghost predicate ConfigOk(d: Desk, config: Config) {
    && (config.ladder.Some? ==> config.ladder.value.Valid())
    && config.policy.Minimum(d.market.NSE?) > 0.0
    && (d.market.NSE? ==> Whole(config.policy.Minimum(true)))
  }

  lemma AcceptedQuantity(d: Desk, config: Config, entry: nat, first: real, reference: real)
    requires ConfigOk(d, config)
    ensures var q := EntryQuantity(d, config, entry, first, reference);
            q.Some? ==> q.value > 0.0 && (d.market.NSE? ==> Whole(q.value))
  {
    var raw := config.policy.Raw(entry, reference);
    hide Power;
    if raw.Some? { WholeInt(raw.value.Floor, raw.value.Floor as real); }
  }

  /** `ExecutionPolicy` does not insist on a whole minimum for NSE, so its lots are whole exactly
      when the rounded-down size reaches the minimum or the minimum is whole. */
  lemma NseLotIsWhole(policy: Policy, entry: nat, price: real, round8: real -> real)
    requires policy.Raw(entry, price).Some?
    ensures Whole(policy.LotQuantity(entry, price, true, round8).value)
       <==> policy.Raw(entry, price).value.Floor as real >= policy.Minimum(true) || Whole(policy.Minimum(true))
  {
    var raw := policy.Raw(entry, price).value;
    WholeInt(raw.Floor, raw.Floor as real);
    hide Power;
  }

  /** A minimum of half a share, which validation accepts for NSE, does give half a share: the second lot of a
      policy that takes ten percent of one share. */
  lemma HalfAShare(price: real, round8: real -> real)
    ensures var policy :=
              Policy(true, 1.0, 100.0, true, 10.0, false, Some(0.5), 5, true, None, None, 10, 100, 5.0, 100.0);
            policy.LotQuantity(1, price, true, round8) == Some(0.5) && !Whole(0.5)
  {
    assert (1.0 * (10.0 / 100.0)).Floor == 0 && 0.5.Floor == 0;
  }

  // ---- positions ----------------------------------------------------------------------------------

  lemma PositionsAppend(open: seq<Lot>, lot: Lot)
    ensures Positions(open + [lot]) == Positions(open) + {KeyOf(lot)}
  {
    var next := open + [lot];
    forall k | k in Positions(open) + {KeyOf(lot)} ensures k in Positions(next) {
      if k in Positions(open) {
        var i :| 0 <= i < |open| && KeyOf(open[i]) == k;
        assert KeyOf(next[i]) == k;
      } else {
        assert KeyOf(next[|open|]) == k;
      }
    }
  }

  lemma {:induction false} SubsetSize<T>(a: set<T>, b: set<T>)
    requires a <= b
    ensures |a| <= |b|
  {
    if a != {} {
      var x :| x in a;
      SubsetSize(a - {x}, b - {x});
    }
  }

  lemma PositionsWithin(a: seq<Lot>, b: seq<Lot>)
    requires forall i :: 0 <= i < |a| ==> exists j :: 0 <= j < |b| && KeyOf(b[j]) == KeyOf(a[i])
    ensures |Positions(a)| <= |Positions(b)|
  {
    forall k | k in Positions(a) ensures k in Positions(b) {
      var i :| 0 <= i < |a| && KeyOf(a[i]) == k;
      var j :| 0 <= j < |b| && KeyOf(b[j]) == KeyOf(a[i]);
    }
    SubsetSize(Positions(a), Positions(b));
  }

  /** An accepted entry keeps the number of open positions within the policy's cap. */
  lemma EnterPositions(open: seq<Lot>, lot: Lot, cap: nat, isNew: bool)
    requires |Positions(open)| <= cap && (isNew ==> |Positions(open)| < cap)
    requires !isNew ==> exists i :: 0 <= i < |open| && KeyOf(open[i]) == KeyOf(lot)
    ensures |Positions(open + [lot])| <= cap
  {
    PositionsAppend(open, lot);
    if !isNew { assert Positions(open) + {KeyOf(lot)} == Positions(open); }
  }

  // ---- purchases per day ----------------------------------------------------------------------------

  lemma BuysOnAppend(log: seq<Trade>, t: Trade, day: int -> int, date: int)
    ensures BuysOn(log + [t], day, date) == BuysOn(log, day, date) + (if t.buy && day(t.at) == date then 1 else 0)
  {
    assert (log + [t])[..|log|] == log;
  }

  ghost predicate DailyWithin(log: seq<Trade>, day: int -> int, cap: nat) {
    |log| <= TRADE_READ_LIMIT ==> forall date :: BuysOn(log, day, date) <= cap
  }

  lemma AppendDaily(log: seq<Trade>, t: Trade, day: int -> int, cap: nat)
    requires DailyWithin(log, day, cap)
    requires t.buy ==> BuysOn(Recent(log, TRADE_READ_LIMIT), day, day(t.at)) < cap
    ensures DailyWithin(log + [t], day, cap)
  {
    forall date ensures BuysOn(log + [t], day, date)
                     == BuysOn(log, day, date) + (if t.buy && day(t.at) == date then 1 else 0)
    {
      BuysOnAppend(log, t, day, date);
    }
  }

  // ---- cash ----------------------------------------------------------------------------------------

  /** What a recorded sale may have cost more than it brought in: its fees beyond its turnover, with the
      rounding of both amounts against the account. Nothing, for a sale whose turnover covers them. */
  function SaleGap(t: Trade, e4: real): real {
    if t.buy then 0.0 else Max(0.0, t.fees + e4 + e4 * t.quantity - Worth(t.price, t.quantity))
  }

  function Shortfall(trades: seq<Trade>, e4: real): real {
    if trades == [] then 0.0 else Shortfall(trades[..|trades| - 1], e4) + SaleGap(trades[|trades| - 1], e4)
  }

  lemma ShortfallAppend(trades: seq<Trade>, t: Trade, e4: real)
    ensures Shortfall(trades + [t], e4) == Shortfall(trades, e4) + SaleGap(t, e4)
  {
    assert (trades + [t])[..|trades|] == trades;
  }

  lemma {:induction false} ShortfallNonNegative(trades: seq<Trade>, e4: real)
    ensures Shortfall(trades, e4) >= 0.0
  {
    if trades != [] { ShortfallNonNegative(trades[..|trades| - 1], e4); }
  }

  /** The turnover of every recorded sale covers its fees, and the rounding of both. */
  ghost predicate SalesPay(trades: seq<Trade>, e4: real) {
    forall t :: t in trades && !t.buy ==> t.fees + e4 + e4 * t.quantity <= Worth(t.price, t.quantity)
  }

  lemma {:induction false} NoShortfall(trades: seq<Trade>, e4: real)
    ensures Shortfall(trades, e4) == 0.0 <==> SalesPay(trades, e4)
  {
    hide Worth;
    if trades != [] {
      var n := |trades| - 1;
      NoShortfall(trades[..n], e4);
      ShortfallNonNegative(trades[..n], e4);
      assert trades == trades[..n] + [trades[n]] && trades[n] in trades;
    }
  }

  lemma SaleShortfall(d: Desk, fill: Fill, q: real, t: Trade, e2: real, e4: real)
    requires d.rounding.Within(e2, e4) && q >= 0.0 && !t.buy && t.quantity == q
    requires t.price == d.rounding.four(fill.price) && t.fees == d.rounding.four(fill.fees)
    ensures ExitProceeds(fill, q) >= -SaleGap(t, e4)
  {
    assert Abs(t.price - fill.price) <= e4 && Abs(t.fees - fill.fees) <= e4;
    WorthApart(t.price, fill.price, q, e4);
    GapCovers(Worth(fill.price, q), fill.fees, Worth(t.price, q), t.fees, e4, e4 * q);
  }

  lemma GapCovers(value: real, fees: real, stored: real, storedFees: real, e: real, spread: real)
    requires Abs(stored - value) <= spread && Abs(storedFees - fees) <= e
    ensures value - fees >= -Max(0.0, storedFees + e + spread - stored)
  {}

  // ---- one order per signal -----------------------------------------------------------------------------

  ghost predicate OncePerSignal(orders: seq<Order>) {
    forall i, j :: 0 <= i < j < |orders| && orders[i].Filled? && orders[i].signal.Some? ==> orders[j] != orders[i]
  }

  lemma AppendOrder(orders: seq<Order>, order: Order)
    requires OncePerSignal(orders) && (order.Filled? ==> !AlreadyFilled(orders, order.signal))
    ensures OncePerSignal(orders + [order])
  {}
}
