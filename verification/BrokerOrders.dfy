/** When the broker buys: the verdict on an entry is a refusal exactly for the first limit the entry breaks, and an
    acceptance exactly when it breaks none; every limit is written out over the account's tables. */
module BrokerOrders {
  import opened Common
  import opened Fifo
  import opened Fees
  import opened LotPolicy
  import opened Broker
  import opened BrokerCore
  import opened BrokerCycles
  import opened BrokerRisk
  import opened BrokerRuns
  import opened BrokerEvents
  import BrokerRecovery

  // ---- what the account adds up to ----------------------------------------------------------------------

  ghost function Tally(lots: seq<Lot>, amount: Lot -> real): real {
    if lots == [] then 0.0 else amount(lots[0]) + Tally(lots[1..], amount)
  }

  lemma {:induction false} TallyNext(lots: seq<Lot>, x: Lot, amount: Lot -> real)
    ensures Tally(lots + [x], amount) == Tally(lots, amount) + amount(x)
  {
    if lots == [] {
      assert [] + [x] == [x] && [x][1..] == [];
    } else {
      assert (lots + [x])[1..] == lots[1..] + [x];
      TallyNext(lots[1..], x, amount);
    }
  }

  /** A lot's result, if it was closed on this market day. */
  ghost function ResultOn(day: int -> int, date: int): Lot -> real {
    (x: Lot) => if x.exitAt.Some? && day(x.exitAt.value) == date then x.realized else 0.0
  }

  ghost function MarkedAt(x: Lot): real { x.unrealized }

  ghost function PaidFor(x: Lot): real { Worth(x.entryPrice, x.quantity) }

  /** At its cost basis; one of zero counts as missing. */
  ghost function HeldAt(x: Lot): real { Worth(if x.costBasis == 0.0 then x.entryPrice else x.costBasis, x.quantity) }

  lemma {:induction false} RealizedIs(lots: seq<Lot>, day: int -> int, date: int)
    ensures RealizedOn(lots, day, date) == Tally(lots, ResultOn(day, date))
  {
    if lots != [] {
      var n := |lots| - 1;
      RealizedIs(lots[..n], day, date);
      TallyNext(lots[..n], lots[n], ResultOn(day, date));
      assert lots == lots[..n] + [lots[n]];
    }
  }

  lemma {:induction false} SumsAre(open: seq<Lot>)
    ensures Unrealized(open) == Tally(open, MarkedAt) && EntryValue(open) == Tally(open, PaidFor)
    ensures Exposure(open) == Tally(open, HeldAt)
  {
    hide Worth;
    if open != [] {
      var n := |open| - 1;
      SumsAre(open[..n]);
      TallyNext(open[..n], open[n], MarkedAt);
      TallyNext(open[..n], open[n], PaidFor);
      TallyNext(open[..n], open[n], HeldAt);
      assert open == open[..n] + [open[n]];
    }
  }

  /** The purchases of this market day. */
  ghost function Bought(log: seq<Trade>, day: int -> int, date: int): set<nat> {
    set i: nat | i < |log| && log[i].buy && day(log[i].at) == date
  }

  lemma {:induction false} BuysOnIs(log: seq<Trade>, day: int -> int, date: int)
    ensures BuysOn(log, day, date) == |Bought(log, day, date)|
  {
    if log != [] {
      var n := |log| - 1;
      BuysOnIs(log[..n], day, date);
      var before, all := Bought(log[..n], day, date), Bought(log, day, date);
      if log[n].buy && day(log[n].at) == date {
        assert all == before + {n};
      } else {
        assert all == before;
      }
    }
  }

  /** The trades the limit on a day's purchases looks at: all, or the 10,000 latest. */
  ghost function Read(log: seq<Trade>): seq<Trade> {
    if |log| <= 10000 || |Chronological(log)| < 10000 then log else Chronological(log)[|Chronological(log)| - 10000..]
  }

  lemma ReadIs(log: seq<Trade>)
    ensures Recent(log, TRADE_READ_LIMIT) == Read(log)
  {
    hide Chronological;
    BrokerRecovery.ChronologicalPermutes(log);
  }

  // ---- the size of an entry ---------------------------------------------------------------------------------

  /** The size of the k-th further lot of a cycle that began at this price: on NSE the ladder's for the price band, or
      else the whole part of what is planned; never less than the minimum. There is none outside the ladder, or
      for a fixed capital at a reference price of zero. */
  ghost function SizeOf(d: Desk, config: Config, k: nat, first: real, reference: real): Option<real> {
    var policy := config.policy;
    if d.market.NSE? && config.ladder.Some? then
      var ladder := config.ladder.value;
      if k >= |ladder.high| || k >= |ladder.low| then None
      else Some(if first >= ladder.threshold then ladder.high[k] else ladder.low[k])
    else if !policy.fixedQuantity && reference == 0.0 then None
    else
      var base := if policy.fixedQuantity then policy.initialQuantity else policy.capitalPerLot / reference;
      var plan := Planned(base, policy.additionalPct, policy.reduceEveryLot, k);
      var least :=
        if policy.minimumQuantity.Some? then policy.minimumQuantity.value
        else if d.market.NSE? then 1.0 else 0.00000001;
      var units := if d.market.NSE? then plan.Floor as real else d.round8(plan);
      Some(if units >= least then units else least)
  }

  lemma RawIsPlanned(policy: Policy, k: nat, price: real)
    requires policy.fixedQuantity || price != 0.0
    ensures var base := if policy.fixedQuantity then policy.initialQuantity else policy.capitalPerLot / price;
            policy.Raw(k, price) == Some(Planned(base, policy.additionalPct, policy.reduceEveryLot, k))
  {
    var base := if policy.fixedQuantity then policy.initialQuantity else policy.capitalPerLot / price;
    hide Planned, Power;
    PlannedIs(base, policy.additionalPct, policy.reduceEveryLot, k);
    var plan := Planned(base, policy.additionalPct, policy.reduceEveryLot, k);
    var ratio := policy.additionalPct / 100.0;
    assert k == 0 ==> policy.Raw(k, price).value == plan;
    assert k > 0 && policy.reduceEveryLot ==> policy.Raw(k, price).value == base * Power(ratio, k);
    assert k > 0 && policy.reduceEveryLot ==> policy.Raw(k, price).value == plan;
    assert k > 0 && !policy.reduceEveryLot ==> policy.Raw(k, price).value == plan;
  }

  lemma SizeIs(d: Desk, config: Config, k: nat, first: real, reference: real)
    ensures EntryQuantity(d, config, k, first, reference) == SizeOf(d, config, k, first, reference)
  {
    hide Planned;
    if config.policy.fixedQuantity || reference != 0.0 {
      RawIsPlanned(config.policy, k, reference);
      hide Policy.Raw;
    }
  }

  // ---- the limits ---------------------------------------------------------------------------------------------

  /** The rows, closed ones included, of the cycle that the open lots of this key are in. */
  ghost function CohortOf(b: Book, symbol: string, strategy: string, timeframe: string): seq<Lot> {
    var open := LotsOfKey(b.open, symbol, strategy, timeframe);
    if open == [] then [] else CycleLots(b.lots, symbol, open[0].cycle)
  }

  ghost function Cohort(b: Book, sig: Signal): seq<Lot> { CohortOf(b, sig.symbol, sig.strategy, sig.timeframe) }

  /** The entry price of the cycle's first lot, or what one unit would cost now. */
  ghost function FirstPrice(d: Desk, b: Book, sig: Signal, reference: real): real {
    if Cohort(b, sig) == [] then d.fees.buy(reference, 1.0).price else Cohort(b, sig)[0].entryPrice
  }

  ghost function Size(d: Desk, b: Book, sig: Signal, reference: real): Option<real> {
    SizeOf(d, sig.config, |Cohort(b, sig)|, FirstPrice(d, b, sig, reference), reference)
  }

  /** The entry, at this size, breaks the limit behind this reason. */
  ghost predicate Breaks(d: Desk, b: Book, sig: Signal, reference: real, at: int, q: real, reason: Reason) {
    var policy, ladder, rows := sig.config.policy, sig.config.ladder, Cohort(b, sig);
    var fill := d.fees.buy(reference, q);
    var cost := Worth(fill.price, q) + fill.fees;
    match reason
    case ADDITIONAL_BUYS_DISABLED => rows != [] && !policy.allowAdditionalBuys
    case MAXIMUM_ENTRIES_PER_CYCLE =>
      |rows| >= policy.maximumEntries || (ladder.Some? && |rows| >= |ladder.value.high|)
    case DIP_THRESHOLD_NOT_REACHED =>
      ladder.Some? && rows != []
      && sig.price > rows[|rows| - 1].entryPrice * (1.0 - ladder.value.dipPct / 100.0)
    case MAXIMUM_POSITION_CAPITAL =>
      ladder.Some? && InvestedFor(d, b, sig) + Worth(fill.price, q) > ladder.value.capital
    case INSUFFICIENT_FUNDS => cost > b.cash
    case MAXIMUM_OPEN_POSITIONS =>
      rows == [] && |set x | x in b.open :: (x.symbol, x.strategy, x.timeframe)| >= policy.maximumOpenPositions
    case MAXIMUM_TOTAL_EXPOSURE =>
      Tally(b.open, HeldAt) + cost > b.starting * policy.maximumExposurePct / 100.0
    case MAXIMUM_DAILY_TRADES => |Bought(Read(b.trades), d.day, d.day(at))| >= policy.maximumDailyTrades
    case MAXIMUM_DAILY_LOSS =>
      Tally(b.lots, ResultOn(d.day, d.day(at))) + Tally(b.open, MarkedAt)
      <= -(b.starting * policy.maximumDailyLossPct / 100.0)
  }

  /** What is invested in the position the ladder's capital is for. */
  ghost function InvestedFor(d: Desk, b: Book, sig: Signal): real {
    if d.market.NSE? then Cost(QueueOf(b.inventories, sig.symbol))
    else Tally(LotsOfKey(b.open, sig.symbol, sig.strategy, sig.timeframe), PaidFor)
  }

  /** The order in which the limits are looked at; the size is needed from the fourth on. */
  ghost function Rank(reason: Reason): nat {
    match reason
    case ADDITIONAL_BUYS_DISABLED => 0
    case MAXIMUM_ENTRIES_PER_CYCLE => 1
    case DIP_THRESHOLD_NOT_REACHED => 2
    case MAXIMUM_POSITION_CAPITAL => 3
    case INSUFFICIENT_FUNDS => 4
    case MAXIMUM_OPEN_POSITIONS => 5
    case MAXIMUM_TOTAL_EXPOSURE => 6
    case MAXIMUM_DAILY_TRADES => 7
    case MAXIMUM_DAILY_LOSS => 8
  }

  /** No limit before this place is broken. */
  ghost predicate Keeps(d: Desk, b: Book, sig: Signal, reference: real, at: int, q: real, place: nat) {
    forall reason :: Rank(reason) < place ==> !Breaks(d, b, sig, reference, at, q, reason)
  }

  lemma CohortNumbers(b: Book, symbol: string, strategy: string, timeframe: string)
    requires Mirrors(b.lots, b.open) && Cycles(b.lots)
    ensures var open, rows := LotsOfKey(b.open, symbol, strategy, timeframe), CohortOf(b, symbol, strategy, timeframe);
            && (open == [] <==> rows == [])
            && (rows != [] ==>
                  Latest(rows) == rows[|rows| - 1] && First(rows) == rows[0] && rows[|rows| - 1].number == |rows|)
  {
    hide CycleLots, LotsOfKey, Mirrors, OneOwner, OneCycle, Capped;
    var open, rows := LotsOfKey(b.open, symbol, strategy, timeframe), CohortOf(b, symbol, strategy, timeframe);
    if open != [] {
      assert rows != [] by { OwnCycle(b, symbol, strategy, timeframe); }
      CycleNumbers(b.lots, symbol, open[0].cycle);
      LatestOf(rows);
    }
  }

  /** The cycle of an open lot has at least that lot. */
  lemma OwnCycle(b: Book, symbol: string, strategy: string, timeframe: string)
    requires Mirrors(b.lots, b.open) && LotsOfKey(b.open, symbol, strategy, timeframe) != []
    ensures CycleLots(b.lots, symbol, LotsOfKey(b.open, symbol, strategy, timeframe)[0].cycle) != []
  {
    LotsOfKeyAre(b.open, symbol, strategy, timeframe);
    var one := LotsOfKey(b.open, symbol, strategy, timeframe)[0];
    hide LotsOfKey;
    assert one in b.open;
    assert SameLot(b.lots[one.id], one);
    RowIsInCycle(b.lots, one.id);
  }

  lemma {:induction false} RowIsInCycle(lots: seq<Lot>, id: nat)
    requires id < |lots|
    ensures CycleLots(lots, lots[id].symbol, lots[id].cycle) != []
  {
    var n := |lots| - 1;
    if id < n { RowIsInCycle(lots[..n], id); }
  }

  // ---- the verdict --------------------------------------------------------------------------------------------

  /** The first three checks, which need no size. */
  lemma JudgeEarly(d: Desk, b: Book, sig: Signal, reference: real, at: int)
    requires Mirrors(b.lots, b.open) && Cycles(b.lots)
    ensures var v, rows := Judge(d, b, sig, reference, at), Cohort(b, sig);
            var open := LotsOfKey(b.open, sig.symbol, sig.strategy, sig.timeframe);
            var cycle := if open != [] then open[0].cycle else MaxCycle(b.lots, sig.symbol) + 1;
            if Breaks(d, b, sig, reference, at, 0.0, ADDITIONAL_BUYS_DISABLED)
            then v == Refuse(ADDITIONAL_BUYS_DISABLED)
            else if Breaks(d, b, sig, reference, at, 0.0, MAXIMUM_ENTRIES_PER_CYCLE)
            then v == Refuse(MAXIMUM_ENTRIES_PER_CYCLE)
            else if Breaks(d, b, sig, reference, at, 0.0, DIP_THRESHOLD_NOT_REACHED)
            then v == Refuse(DIP_THRESHOLD_NOT_REACHED)
            else v == JudgeCost(d, b, sig, reference, at, open, cycle, |rows|, FirstPrice(d, b, sig, reference))
  {
    hide JudgeCost, LotsOfKey, CycleLots, Mirrors, Cycles, MaxCycle, Latest, First, Tally, Bought, Read, InvestedFor;
    CohortNumbers(b, sig.symbol, sig.strategy, sig.timeframe);
  }

  lemma PositionsAre(open: seq<Lot>)
    ensures Positions(open) == set x | x in open :: (x.symbol, x.strategy, x.timeframe)
  {
    forall k | k in (set x | x in open :: (x.symbol, x.strategy, x.timeframe)) ensures k in Positions(open) {
      var x :| x in open && (x.symbol, x.strategy, x.timeframe) == k;
      var i :| 0 <= i < |open| && open[i] == x;
      assert KeyOf(open[i]) == k;
    }
  }

  /** The portfolio limits, in order. */
  lemma PortfolioIs(d: Desk, b: Book, sig: Signal, reference: real, at: int, q: real)
    ensures var cost := EntryCost(d.fees.buy(reference, q), q);
            var r := PortfolioRejection(d, b, sig.config.policy, cost, at, Cohort(b, sig) == []);
            if Breaks(d, b, sig, reference, at, q, MAXIMUM_OPEN_POSITIONS) then r == Some(MAXIMUM_OPEN_POSITIONS)
            else if Breaks(d, b, sig, reference, at, q, MAXIMUM_TOTAL_EXPOSURE) then r == Some(MAXIMUM_TOTAL_EXPOSURE)
            else if Breaks(d, b, sig, reference, at, q, MAXIMUM_DAILY_TRADES) then r == Some(MAXIMUM_DAILY_TRADES)
            else if Breaks(d, b, sig, reference, at, q, MAXIMUM_DAILY_LOSS) then r == Some(MAXIMUM_DAILY_LOSS)
            else r == None
  {
    PositionsAre(b.open);
    SumsAre(b.open);
    RealizedIs(b.lots, d.day, d.day(at));
    ReadIs(b.trades);
    BuysOnIs(Read(b.trades), d.day, d.day(at));
    hide Cohort, Tally, Exposure, Unrealized, RealizedOn, BuysOn, Bought, Read, Recent, Positions, ResultOn, Worth,
         InvestedFor;
  }

  lemma CapitalIs(d: Desk, b: Book, sig: Signal, reference: real, at: int, q: real)
    ensures var open := LotsOfKey(b.open, sig.symbol, sig.strategy, sig.timeframe);
            var fill := d.fees.buy(reference, q);
            var capital := if d.market.NSE? then Cost(QueueOf(b.inventories, sig.symbol)) else EntryValue(open);
            && (Breaks(d, b, sig, reference, at, q, MAXIMUM_POSITION_CAPITAL) <==>
                  sig.config.ladder.Some? && !sig.config.ladder.value.WithinCapital(capital, fill.price, q))
            && (Breaks(d, b, sig, reference, at, q, INSUFFICIENT_FUNDS) <==> EntryCost(fill, q) > b.cash)
            && EntryCost(fill, q) == Worth(fill.price, q) + fill.fees
  {
    SumsAre(LotsOfKey(b.open, sig.symbol, sig.strategy, sig.timeframe));
    hide Cohort, Tally, LotsOfKey, EntryValue, Worth, Cost;
  }

  /** The checks that need a size. */
  lemma JudgeLate(d: Desk, b: Book, sig: Signal, reference: real, at: int, cycle: nat)
    requires Mirrors(b.lots, b.open) && Cycles(b.lots)
    ensures var rows, size := Cohort(b, sig), Size(d, b, sig, reference);
            var open := LotsOfKey(b.open, sig.symbol, sig.strategy, sig.timeframe);
            var v := JudgeCost(d, b, sig, reference, at, open, cycle, |rows|, FirstPrice(d, b, sig, reference));
            if size.None? then v == Raise
            else
              var q := size.value;
              var fill := d.fees.buy(reference, q);
              if Breaks(d, b, sig, reference, at, q, MAXIMUM_POSITION_CAPITAL)
              then v == Refuse(MAXIMUM_POSITION_CAPITAL)
              else if Breaks(d, b, sig, reference, at, q, INSUFFICIENT_FUNDS) then v == Refuse(INSUFFICIENT_FUNDS)
              else if Breaks(d, b, sig, reference, at, q, MAXIMUM_OPEN_POSITIONS)
              then v == Refuse(MAXIMUM_OPEN_POSITIONS)
              else if Breaks(d, b, sig, reference, at, q, MAXIMUM_TOTAL_EXPOSURE)
              then v == Refuse(MAXIMUM_TOTAL_EXPOSURE)
              else if Breaks(d, b, sig, reference, at, q, MAXIMUM_DAILY_TRADES) then v == Refuse(MAXIMUM_DAILY_TRADES)
              else if Breaks(d, b, sig, reference, at, q, MAXIMUM_DAILY_LOSS) then v == Refuse(MAXIMUM_DAILY_LOSS)
              else if AlreadyFilled(b.orders, sig.id) then v == Duplicate
              else v == Accept(cycle, |rows| + 1, q, fill, Worth(fill.price, q) + fill.fees)
  {
    hide CohortOf, Mirrors, Cycles, LotsOfKey, EntryQuantity, SizeOf, PortfolioRejection, EntryValue, AlreadyFilled,
         Worth, FirstPrice, Cost, Breaks, EntryCost, Ladder.WithinCapital;
    CohortNumbers(b, sig.symbol, sig.strategy, sig.timeframe);
    SizeIs(d, sig.config, |Cohort(b, sig)|, FirstPrice(d, b, sig, reference), reference);
    var size := Size(d, b, sig, reference);
    if size.Some? {
      CapitalIs(d, b, sig, reference, at, size.value);
      PortfolioIs(d, b, sig, reference, at, size.value);
    }
  }

  lemma KeepsIs(d: Desk, b: Book, sig: Signal, reference: real, at: int, q: real, place: nat)
    ensures Keeps(d, b, sig, reference, at, q, place) <==>
            && (place > 0 ==> !Breaks(d, b, sig, reference, at, q, ADDITIONAL_BUYS_DISABLED))
            && (place > 1 ==> !Breaks(d, b, sig, reference, at, q, MAXIMUM_ENTRIES_PER_CYCLE))
            && (place > 2 ==> !Breaks(d, b, sig, reference, at, q, DIP_THRESHOLD_NOT_REACHED))
            && (place > 3 ==> !Breaks(d, b, sig, reference, at, q, MAXIMUM_POSITION_CAPITAL))
            && (place > 4 ==> !Breaks(d, b, sig, reference, at, q, INSUFFICIENT_FUNDS))
            && (place > 5 ==> !Breaks(d, b, sig, reference, at, q, MAXIMUM_OPEN_POSITIONS))
            && (place > 6 ==> !Breaks(d, b, sig, reference, at, q, MAXIMUM_TOTAL_EXPOSURE))
            && (place > 7 ==> !Breaks(d, b, sig, reference, at, q, MAXIMUM_DAILY_TRADES))
            && (place > 8 ==> !Breaks(d, b, sig, reference, at, q, MAXIMUM_DAILY_LOSS))
  {
    hide Breaks;
  }

  lemma EarlyIs(d: Desk, b: Book, sig: Signal, reference: real, at: int, q: real, reason: Reason)
    requires Rank(reason) < 3
    ensures Breaks(d, b, sig, reference, at, q, reason) <==> Breaks(d, b, sig, reference, at, 0.0, reason)
  {
    hide Cohort, Tally, Bought, Read, InvestedFor;
  }

  /** The verdict on an entry, whatever the account and the signal: it is refused for a reason exactly when that
      limit is the first one broken, it raises exactly when it passes the first three and has no size, and it is
      accepted exactly when it has a size, breaks no limit and its signal is not filled already. */
  lemma JudgedExactlyWhen(d: Desk, b: Book, sig: Signal, reference: real, at: int)
    requires Mirrors(b.lots, b.open) && Cycles(b.lots)
    ensures var v, size := Judge(d, b, sig, reference, at), Size(d, b, sig, reference);
            var q := if size.Some? then size.value else 0.0;
            && (forall reason :: v == Refuse(reason) <==>
                  && Breaks(d, b, sig, reference, at, q, reason) && Keeps(d, b, sig, reference, at, q, Rank(reason))
                  && (size.None? ==> Rank(reason) < 3))
            && (v == Raise <==> size.None? && Keeps(d, b, sig, reference, at, q, 3))
            && (v == Duplicate <==>
                  size.Some? && Keeps(d, b, sig, reference, at, q, 9) && AlreadyFilled(b.orders, sig.id))
            && (v.Accept? <==>
                  size.Some? && Keeps(d, b, sig, reference, at, q, 9) && !AlreadyFilled(b.orders, sig.id))
            && (v.Accept? ==>
                  && v.quantity == q && v.fill == d.fees.buy(reference, q) && v.number == |Cohort(b, sig)| + 1
                  && v.cost == Worth(v.fill.price, q) + v.fill.fees)
  {
    hide Judge, JudgeCost, Breaks, Keeps, Cohort, Size, Mirrors, Cycles, AlreadyFilled, LotsOfKey, FirstPrice, Worth,
         MaxCycle;
    var size := Size(d, b, sig, reference);
    var q := if size.Some? then size.value else 0.0;
    JudgeEarly(d, b, sig, reference, at);
    var open := LotsOfKey(b.open, sig.symbol, sig.strategy, sig.timeframe);
    JudgeLate(d, b, sig, reference, at, if open != [] then open[0].cycle else MaxCycle(b.lots, sig.symbol) + 1);
    EarlyIs(d, b, sig, reference, at, q, ADDITIONAL_BUYS_DISABLED);
    EarlyIs(d, b, sig, reference, at, q, MAXIMUM_ENTRIES_PER_CYCLE);
    EarlyIs(d, b, sig, reference, at, q, DIP_THRESHOLD_NOT_REACHED);
    KeepsIs(d, b, sig, reference, at, q, 3);
    KeepsIs(d, b, sig, reference, at, q, 9);
    forall reason
      ensures Judge(d, b, sig, reference, at) == Refuse(reason) <==>
                && Breaks(d, b, sig, reference, at, q, reason) && Keeps(d, b, sig, reference, at, q, Rank(reason))
                && (size.None? ==> Rank(reason) < 3)
    {
      KeepsIs(d, b, sig, reference, at, q, Rank(reason));
    }
  }

  lemma {:induction false} MarkingTradesNothing(d: Desk, o: Out, lots: seq<Lot>, close: real, n: nat)
    requires n <= |lots| && SoundInventories(o.book.inventories)
    ensures var r := MarkLots(d, o, lots, close, n).book;
            r.trades == o.book.trades && r.cash == o.book.cash && r.orders == o.book.orders && |r.lots| == |o.book.lots|
  {
    hide Remark, Replace;
    if n > 0 { MarkingTradesNothing(d, o, lots, close, n - 1); }
  }

  /** Trying an entry on any sane account: it buys exactly when it has a size, breaks no limit, its signal is not filled
      already and its target is defined. Then one purchase at that size and fill is stored and paid for; otherwise
      no lot, trade or cash changes, and a refusal stores its reason. */
  lemma BoughtExactlyWhen(d: Desk, terms: Terms, b: Book, sig: Signal, reference: real, at: int)
    requires DeskOk(d, terms) && Clean(d, reference) && Sane(d, terms, b) && Allowed(d, terms, sig.config)
    ensures SoundInventories(b.inventories)
    ensures var r, size := FillEntry(d, b, sig, reference, at).book, Size(d, b, sig, reference);
            var q := if size.Some? then size.value else 0.0;
            var fill := d.fees.buy(reference, q);
            if && size.Some? && Keeps(d, b, sig, reference, at, q, 9) && !AlreadyFilled(b.orders, sig.id)
               && !TargetPctRaises(sig)
            then
              && |r.lots| == |b.lots| + 1 && r.cash == b.cash - (Worth(fill.price, q) + fill.fees)
              && r.trades == b.trades + [Trade(|b.lots|, sig.symbol, true, q, d.rounding.four(fill.price),
                                               d.rounding.four(fill.fees), at)]
            else
              && r.lots == b.lots && r.trades == b.trades && r.cash == b.cash && r.open == b.open
              && r.inventories == b.inventories
              && (forall reason ::
                    && Breaks(d, b, sig, reference, at, q, reason) && Keeps(d, b, sig, reference, at, q, Rank(reason))
                    && (size.None? ==> Rank(reason) < 3) ==>
                      r.orders == b.orders + [Rejected(sig.id, reason)])
  {
    hide FillEntry, Judge, Sane, DeskOk, Clean, Mirrors, Breaks, Keeps, Size, Cycles, Worth, Cohort, AlreadyFilled,
         Allowed;
    SaneCycles(d, terms, b);
    JudgedExactlyWhen(d, b, sig, reference, at);
    FillsAsJudged(d, terms, b, sig, reference, at);
  }

  lemma SaneCycles(d: Desk, terms: Terms, b: Book)
    requires Sane(d, terms, b)
    ensures Mirrors(b.lots, b.open) && Cycles(b.lots) && SoundInventories(b.inventories)
  {}

  /** What trying an entry does, by its verdict. */
  lemma FillsAsJudged(d: Desk, terms: Terms, b: Book, sig: Signal, reference: real, at: int)
    requires Clean(d, reference) && SoundInventories(b.inventories) && Allowed(d, terms, sig.config)
    ensures var v, r := Judge(d, b, sig, reference, at), FillEntry(d, b, sig, reference, at).book;
            match v
            case Raise => r == b
            case Duplicate => r == b
            case Refuse(reason) => r == b.(orders := b.orders + [Rejected(sig.id, reason)])
            case Accept(_, _, q, fill, cost) =>
              if TargetPctRaises(sig) then r == b.(orders := b.orders + [Filled(sig.id)])
              else
                && |r.lots| == |b.lots| + 1 && r.cash == b.cash - cost
                && r.trades == b.trades + [Trade(|b.lots|, sig.symbol, true, q, d.rounding.four(fill.price),
                                                 d.rounding.four(fill.fees), at)]
  {
    hide Judge, MarkLots, NewLot, Clean, LotsFor, ValidSlice, EntryCost, Allowed;
    var v := Judge(d, b, sig, reference, at);
    if v.Accept? && !TargetPctRaises(sig) {
      AllowedIsOk(d, terms, sig.config);
      EntryFacts(d, b, sig, reference, at);
      EnterBook(d, b, sig, reference, at, v);
      var entered := Enter(d, b, sig, at, v);
      hide Enter;
      var lots := LotsFor(entered.book.open, sig.symbol, None);
      MarkingTradesNothing(d, entered, lots, d.rounding.four(v.fill.price), |lots|);
    }
  }

  // ---- ladder entries -----------------------------------------------------------------------------------------

  /** The next lot of the ladder is due for this key: nothing is pending for it, its cycle may still grow, and the close
      lies the ladder's dip or more below the last entry. */
  ghost predicate LadderDue(b: Book, c: Candle, strategy: string, timeframe: string) {
    var rows := CohortOf(b, c.symbol, strategy, timeframe);
    && rows != []
    && (forall p :: p in b.pending ==>
          !(p.signal.symbol == c.symbol && p.signal.strategy == strategy && p.signal.timeframe == timeframe))
    && rows[0].config.policy.allowAdditionalBuys && rows[0].config.ladder.Some?
    && var ladder := rows[0].config.ladder.value;
       && |rows| < rows[0].config.policy.maximumEntries && |rows| < |ladder.high|
       && c.close <= rows[|rows| - 1].entryPrice * (1.0 - ladder.dipPct / 100.0)
  }

  /** The entry a due ladder lot is queued as. */
  ghost function LadderEntry(d: Desk, b: Book, c: Candle, strategy: string, timeframe: string, pct: real): Pending
    requires CohortOf(b, c.symbol, strategy, timeframe) != []
  {
    var rows := CohortOf(b, c.symbol, strategy, timeframe);
    var sig := Signal(None, c.symbol, rows[0].strategy, timeframe, c.at, c.close,
                      Some(d.rounding.four(Higher(c.close, pct))), None, rows[0].config);
    Pending(sig, Some((rows[0].cycle, |rows| + 1)), c.now)
  }

  lemma NothingPending(pending: seq<Pending>, symbol: string, strategy: string, timeframe: string)
    ensures !HasPending(pending, symbol, strategy, timeframe) <==>
              forall p :: p in pending ==>
                !(p.signal.symbol == symbol && p.signal.strategy == strategy && p.signal.timeframe == timeframe)
  {}

  lemma NoneLike(pending: seq<Pending>, p: Pending)
    ensures !PendingConflict(pending, p) <==> forall x :: x in pending ==> !SameRow(x, p)
  {
    hide SameRow;
  }

  lemma CohortCycle(b: Book, symbol: string, strategy: string, timeframe: string)
    requires CohortOf(b, symbol, strategy, timeframe) != []
    ensures CohortOf(b, symbol, strategy, timeframe)[0].cycle == LotsOfKey(b.open, symbol, strategy, timeframe)[0].cycle
  {
    CycleLotsOf(b.lots, symbol, LotsOfKey(b.open, symbol, strategy, timeframe)[0].cycle);
  }

  /** A candle queues the next ladder lot of a key exactly when it is due, allowed, and not queued already; without a
      target percentage it raises there. Nothing else changes. */
  lemma LadderQueuesExactlyWhen(d: Desk, o: Out, c: Candle, strategy: string, timeframe: string)
    requires Mirrors(o.book.lots, o.book.open) && Cycles(o.book.lots) && o.ok
    ensures var b, r := o.book, QueueLadder(d, o, c, strategy, timeframe);
            if !LadderDue(b, c, strategy, timeframe) then r == o
            else
              var config := CohortOf(b, c.symbol, strategy, timeframe)[0].config;
              if config.targetPct.None? then r == o.(ok := false)
              else
                var p := LadderEntry(d, b, c, strategy, timeframe, config.targetPct.value);
                var queued := c.allowed(p.signal) && forall x :: x in b.pending ==> !SameRow(x, p);
                r == if queued then o.(book := b.(pending := b.pending + [p])) else o
  {
    hide Mirrors, Cycles, LotsOfKey, CycleLots, First, Latest, HasPending;
    var b := o.book;
    CohortNumbers(b, c.symbol, strategy, timeframe);
    NothingPending(b.pending, c.symbol, strategy, timeframe);
    var rows := CohortOf(b, c.symbol, strategy, timeframe);
    if rows != [] {
      CohortCycle(b, c.symbol, strategy, timeframe);
      hide CohortOf, SameRow, PendingConflict;
      if LadderDue(b, c, strategy, timeframe) && rows[0].config.targetPct.Some? {
        NoneLike(b.pending, LadderEntry(d, b, c, strategy, timeframe, rows[0].config.targetPct.value));
      }
    }
  }

  // ---- signals ------------------------------------------------------------------------------------------------

  /** A signal for a key whose cycle is a ladder's is ignored. Another is queued for the next open exactly when no entry
      of the same signal is, and nothing else changes; a policy that buys at the signal's close enters at once. */
  lemma SignalExactlyWhen(d: Desk, b: Book, sig: Signal, now: int)
    requires SoundInventories(b.inventories)
    ensures var open := LotsOfKey(b.open, sig.symbol, sig.strategy, sig.timeframe);
            var r := OnSignal(d, b, sig, now);
            if open != [] && open[0].config.ladder.Some? then r == Out(b, true)
            else if sig.config.policy.nextOpen then
              var unseen := sig.id.Some? ==> forall x :: x in b.pending ==> x.signal.id != sig.id;
              r == Out(if unseen then b.(pending := b.pending + [Pending(sig, None, now)]) else b, true)
            else r == FillEntry(d, b, sig, sig.price, sig.at)
  {
    hide FillEntry, LotsOfKey;
    var p := Pending(sig, None, now);
    assert PendingConflict(b.pending, p) <==> exists x :: x in b.pending && SameRow(x, p);
  }

  // ---- pending entries ----------------------------------------------------------------------------------------

  ghost function Boundary(k: int, step: int): int { k * step }

  /** The first boundary at or after a time. */
  ghost predicate FirstBoundary(x: int, step: int, y: int) {
    (exists k :: y == Boundary(k, step)) && x <= y < x + step
  }

  lemma CeilIs(x: int, step: int)
    requires step > 0
    ensures FirstBoundary(x, step, CeilTo(x, step))
  {
    var m, r := (-x) / step, (-x) % step;
    assert -x == m * step + r && 0 <= r < step;
    assert CeilTo(x, step) == Boundary(-m, step) == -(m * step);
  }

  /** The candle leaves this pending entry for later: it is of another symbol; or it is allowed, but of another
      timeframe than the candle looks at, or the candle is not later than its signal, or opened before the first
      boundary of the execution timeframe after the entry was made. */
  ghost predicate Deferred(d: Desk, p: Pending, c: Candle) {
    || p.signal.symbol != c.symbol
    || (&& c.allowed(p.signal)
        && (|| (c.pendingTimeframe.Some? && p.signal.timeframe != c.pendingTimeframe.value)
            || c.at <= p.signal.at
            || (c.executionTimeframe.Some?
                && TooEarly(c.at, p.created, d.barSeconds(c.executionTimeframe.value)))))
  }

  ghost predicate TooEarly(at: int, created: int, step: int) {
    if step > 0 then forall y :: FirstBoundary(created, step, y) ==> at < y else at < created
  }

  lemma TooEarlyIs(at: int, created: int, step: int)
    ensures TooEarly(at, created, step) <==> at < CeilTo(created, step)
  {
    if step > 0 {
      CeilIs(created, step);
      forall y | FirstBoundary(created, step, y) ensures y == CeilTo(created, step) {
        OneBoundary(created, step, y, CeilTo(created, step));
      }
    }
  }

  lemma OneBoundary(x: int, step: int, y: int, z: int)
    requires step > 0 && FirstBoundary(x, step, y) && FirstBoundary(x, step, z)
    ensures y == z
  {
    var a :| y == Boundary(a, step);
    var b :| z == Boundary(b, step);
    if a < b { StepsApart(a, b, step); }
    if b < a { StepsApart(b, a, step); }
  }

  lemma StepsApart(a: int, b: int, step: int)
    requires step > 0 && a < b
    ensures Boundary(a, step) + step <= Boundary(b, step)
  {
    assert (b - a - 1) * step >= 0;
    assert b * step == a * step + step + (b - a - 1) * step;
  }

  ghost function Waiting(d: Desk, queue: seq<Pending>, c: Candle): seq<Pending> {
    if queue == [] then []
    else
      var n := |queue| - 1;
      Waiting(d, queue[..n], c) + (if Deferred(d, queue[n], c) then [queue[n]] else [])
  }

  lemma {:induction false} FillsLeave(d: Desk, terms: Terms, o: Out, c: Candle, queue: seq<Pending>, n: nat)
    requires DeskOk(d, terms) && Clean(d, c.open) && Sane(d, terms, o.book) && n <= |queue|
    requires AllAllowed(d, terms, queue) && SoundInventories(o.book.inventories)
    ensures var r := FillPendings(d, o, c, queue, n);
            r.ok ==> r.book.pending == o.book.pending + Waiting(d, queue[..n], c)
  {
    hide Sane, FillEntry, Allowed, Clean, DeskOk, CeilTo, TooEarly;
    if n == 0 {
      assert o.book.pending + [] == o.book.pending;
    } else {
      FillsLeave(d, terms, o, c, queue, n - 1);
      FillPendingsKeeps(d, terms, o, c, queue, n - 1);
      var before, p := FillPendings(d, o, c, queue, n - 1), queue[n - 1];
      FillEntryKeeps(d, terms, before.book, p.signal, c.open, c.at);
      assert queue[..n][..n - 1] == queue[..n - 1];
      if c.executionTimeframe.Some? { TooEarlyIs(c.at, p.created, d.barSeconds(c.executionTimeframe.value)); }
      var waiting := Waiting(d, queue[..n - 1], c);
      assert o.book.pending + waiting + [p] == o.book.pending + (waiting + [p]);
    }
  }

  /** A candle that fills without raising leaves exactly the deferred entries, in order: of its symbol, the others have
      been dropped, because they are no longer allowed, or tried. */
  lemma CandleLeavesDeferred(d: Desk, terms: Terms, b: Book, c: Candle)
    requires DeskOk(d, terms) && Clean(d, c.open) && Sane(d, terms, b) && SoundInventories(b.inventories)
    ensures var r := FillQueue(d, b, c); r.ok ==> r.book.pending == Waiting(d, b.pending, c)
  {
    hide Tables, Accounted, Limited, Sizes, FillPendings, Allowed, Clean, DeskOk;
    PendingKeeps(d, terms, b, []);
    FillsLeave(d, terms, Out(b.(pending := []), true), c, b.pending, |b.pending|);
    assert b.pending[..|b.pending|] == b.pending && [] + Waiting(d, b.pending, c) == Waiting(d, b.pending, c);
  }

  // ---- exits --------------------------------------------------------------------------------------------------

  /** The candle closes the lot like this: a stop reached by the low, at the stop; else a target reached by the high, at
      the target, unless an exit blocks it; else an expiry, at the close. */
  ghost predicate ClosesAs(lot: Lot, c: Candle, blocked: bool, status: Status, price: real) {
    var stopped, hit := lot.stop.Some? && c.low <= lot.stop.value, c.high >= lot.target && !blocked;
    && lot.entryAt < c.at
    && match status
       case STOPPED => stopped && price == lot.stop.value
       case TARGET_HIT => !stopped && hit && price == lot.target
       case EXPIRED => !stopped && !hit && lot.expires.Some? && c.at >= lot.expires.value && price == c.close
       case _ => false
  }

  lemma ExitsExactlyWhen(lot: Lot, c: Candle, blocked: bool)
    ensures forall status, price ::
              ExitOf(lot, c, blocked) == Some((status, price)) <==> ClosesAs(lot, c, blocked, status, price)
  {}
}
