/** Runs of the broker on NSE, from the first signal on, in which a natural claim fails: a stopped lot whose sale
    overdraws the account, a restart that rebuilds another inventory than the live one, a stale target that does
    not earn its percentage, and purchases beyond the exposure cap. */
module BrokerExamples {
  import opened Common
  import opened Fifo
  import opened Fees
  import opened SliceOrder
  import opened LotPolicy
  import opened TargetPrice
  import opened Broker
  import opened BrokerCore
  import opened BrokerRisk
  import opened BrokerRuns
  import opened BrokerEvents
  import opened BrokerRecovery
  import opened ExactRecovery
  import opened BrokerTiming
  import opened BrokerSafety
  import opened BrokerTargets
  import LotNames

  // ---- the desk and its policy -----------------------------------------------------------------------

  /** An NSE desk with the default costs, in exact arithmetic. */
  function PlainDesk(): Desk {
    Desk(NSE, NSE_DEFAULT, Rounding((x: real) => x, (x: real) => x), (x: real) => x, 1000000000.0,
         (t: int) => t / 86400, (timeframe: string) => 300)
  }

  /** One share per lot, filled at the signal's close, up to a part of the starting balance. */
  function PlainConfig(exposure: real): Config {
    Config(Policy(true, 1.0, 100.0, true, 100.0, false, None, 5, false, None, None, 10, 100, 100.0, exposure),
           None, Some(5.0))
  }

  function PlainTerms(): Terms { Terms(10, 100, 0.0, 0.0) }

  /** A purchase of one share: who asks for it, when, at what price, with what stop and exposure cap. */
  datatype Plan = Plan(strategy: string, timeframe: string, at: int, price: real, stop: Option<real>, exposure: real)

  function PlainSignal(p: Plan): Signal {
    Signal(None, "X", p.strategy, p.timeframe, p.at, p.price, None, p.stop, PlainConfig(p.exposure))
  }

  lemma PlainIsAllowed(exposure: real)
    ensures DeskOk(PlainDesk(), PlainTerms()) && Allowed(PlainDesk(), PlainTerms(), PlainConfig(exposure))
  {
    assert Whole(1.0);
  }

  lemma PlainIsClean(price: real)
    requires price >= 1.0
    ensures Clean(PlainDesk(), price)
  {
    NsePricesAreClean(PlainDesk(), price, 0.0);
  }

  lemma SignalIsAdmissible(p: Plan, now: int)
    requires p.price >= 1.0
    ensures Admissible(PlainDesk(), PlainTerms(), SignalEvent(PlainSignal(p), now))
  {
    PlainIsAllowed(p.exposure);
    PlainIsClean(p.price);
    hide Allowed, Clean;
  }

  function Fill1(price: real): Fill { LinearFill(price, 1.0, price * (1.0 + 0.0005), 0.00111, 20.0) }

  lemma PlainFill(price: real)
    ensures PlainDesk().fees.buy(price, 1.0) == Fill1(price)
    ensures Fill1(price).price == price * 1.0005 && Fill1(price).fees == price * 1.0005 * 0.00111 + 20.0
    ensures EntryCost(Fill1(price), 1.0) == price * 1.0005 + price * 1.0005 * 0.00111 + 20.0
  {}

  /** The slice a purchase adds to the inventory. */
  function SliceFor(id: nat, p: Plan): Slice {
    Slice(LotNames.Decimal(id), p.at, Fill1(p.price).price, 1.0, Fill1(p.price).fees)
  }

  /** The account has room for one more share. */
  ghost predicate Room(b: Book, p: Plan) {
    var cost := EntryCost(Fill1(p.price), 1.0);
    && LotsOfKey(b.open, "X", p.strategy, p.timeframe) == []
    && cost <= b.cash && |Positions(b.open)| < 10 && Exposure(b.open) + cost <= b.starting * p.exposure / 100.0
    && |b.trades| < 100
    && RealizedOn(b.lots, PlainDesk().day, PlainDesk().day(p.at)) + Unrealized(b.open) > -b.starting
  }

  lemma {:induction false} FewBuys(trades: seq<Trade>, day: int -> int, date: int)
    ensures BuysOn(trades, day, date) <= |trades|
  {
    if trades != [] { FewBuys(trades[..|trades| - 1], day, date); }
  }

  lemma PlainAccepts(b: Book, p: Plan)
    requires Room(b, p)
    ensures Judge(PlainDesk(), b, PlainSignal(p), p.price, p.at)
         == Accept(MaxCycle(b.lots, "X") + 1, 1, 1.0, Fill1(p.price), EntryCost(Fill1(p.price), 1.0))
  {
    var d, sig := PlainDesk(), PlainSignal(p);
    hide LotsOfKey, MaxCycle, Positions, Exposure, Unrealized, RealizedOn, EntryCost, Fill1, CycleLots, Cost, Power;
    PlainFill(p.price);
    FewBuys(b.trades, d.day, d.day(p.at));
    assert EntryQuantity(d, sig.config, 0, d.fees.buy(p.price, 1.0).price, p.price) == Some(1.0) by { OneShare(p); }
    assert PortfolioRejection(d, b, sig.config.policy, EntryCost(Fill1(p.price), 1.0), p.at, true) == None by {
      hide BuysOn;
    }
  }

  lemma OneShare(p: Plan)
    ensures PlainConfig(p.exposure).policy.LotQuantity(0, p.price, true, PlainDesk().round8) == Some(1.0)
  {
    assert 1.0.Floor == 1;
  }

  // ---- the first purchase ------------------------------------------------------------------------------

  /** The lot a first purchase opens: marked or not, its basis and last price are its entry price. */
  ghost predicate FirstLot(lot: Lot, p: Plan) {
    && lot.id == 0 && lot.symbol == "X" && lot.strategy == p.strategy && lot.timeframe == p.timeframe
    && lot.quantity == 1.0 && lot.entryAt == p.at
    && lot.stop == p.stop && lot.entryPrice == lot.costBasis == lot.lastPrice == Fill1(p.price).price
    && lot.unrealized == -Fill1(p.price).fees && lot.fees == Fill1(p.price).fees && lot.expires == None
    && lot.config == PlainConfig(p.exposure)
  }

  /** The book of a fresh account after one purchase. */
  ghost predicate OneLot(b: Book, balance: real, p: Plan) {
    && b.starting == balance && b.cash == balance - EntryCost(Fill1(p.price), 1.0) && b.pending == []
    && b.trades == [Trade(0, "X", true, 1.0, Fill1(p.price).price, Fill1(p.price).fees, p.at)]
    && |b.lots| == 1 && b.lots[0].exitAt == None && |b.open| == 1 && FirstLot(b.open[0], p)
    && QueueOf(b.inventories, "X") == [SliceFor(0, p)]
  }

  /** A sale of one share is matched with the first slice, if that is one share. */
  lemma FrontMatch(s: seq<Slice>)
    requires Sound(s) && WholeUnits(s) && s != [] && s[0].quantity == 1.0
    ensures Sale(s, 1.0).Ok?
    ensures var (m, left) := Sale(s, 1.0).value;
            m.quantity == 1.0 && m.costBasis == s[0].price && m.entryFees == s[0].fees && left == s[1..]
    ensures AllocatedCost(Taken(s, 1.0)) == s[0].price && AllocatedFees(Taken(s, 1.0)) == s[0].fees
  {
    hide Sale;
    var x := s[0];
    assert Whole(1.0);
    QuantityNonNegative(s[1..]);
    SaleSucceeds(s, 1.0);
    SaleExact(s, 1.0);
    var a := Allocate(x, 1.0);
    assert Taken(s[1..], 0.0) == [] && Cut(s[1..], 0.0) == s[1..];
    assert Taken(s, 1.0) == [a] && [a][1..] == [];
    WholeShare(x.fees, 1.0);
  }

  lemma FirstMark(o: Out, lot: Lot, p: Plan)
    requires FirstLot(lot, p) && p.price >= 1.0
    requires SoundInventories(o.book.inventories) && QueueOf(o.book.inventories, "X") == [SliceOf(lot)]
    requires o.ok && o.book.open == [lot] && |o.book.lots| == 1 && o.book.lots[0].exitAt == None
    ensures var r := MarkOne(PlainDesk(), o, lot, Fill1(p.price).price);
            && r.book == o.book.(lots := r.book.lots, open := r.book.open)
            && |r.book.lots| == 1 && r.book.lots[0].exitAt == None && |r.book.open| == 1
            && FirstLot(r.book.open[0], p)
            && (p.price == 100.0 ==> r.ok)
  {
    var d := PlainDesk();
    PlainFill(p.price);
    var queue := [SliceOf(lot)];
    assert Whole(1.0) && queue[1..] == [];
    FrontMatch(queue);
    hide Sale, NetTarget, Fill1;
    if p.price == 100.0 { FrontTarget(Sale(queue, 1.0).value.0); }
    var marked := Remark(d, queue, lot, Fill1(p.price).price);
    if marked.Some? { assert FirstLot(marked.value.0, p); }
  }

  /** Two bisection brackets are already far below a rupee. */
  lemma {:induction false} TwoToGrows(n: nat)
    requires n >= 10
    ensures TwoTo(n) >= 1000.0
  {
    if n > 10 { TwoToGrows(n - 1); } else { assert TwoTo(10) == 1024.0; }
  }

  /** The target of a share bought at 100 exists and is below 148. */
  lemma FrontTarget(m: Match)
    requires m.quantity == 1.0 && m.costBasis == Fill1(100.0).price && m.entryFees == Fill1(100.0).fees
    ensures NetTarget(NSE_DEFAULT, m, 5.0, 1000000000.0).Ok?
    ensures NetTarget(NSE_DEFAULT, m, 5.0, 1000000000.0).value <= 148.0
  {
    PlainFill(100.0);
    hide Fill1, NetTarget, Proceeds, ProceedsGrow, TwoTo;
    NseGrows(0.00111, 20.0, 0.0005);
    assert ProceedsGrow(NSE_DEFAULT);
    assert Proceeds(NSE_DEFAULT, 147.0, 1.0) >= Desired(m, 5.0) by { NseProceeds(0.00111, 20.0, 0.0005, 147.0, 1.0); }
    TargetFailsOnlyBeyondFloats(NSE_DEFAULT, m, 5.0, 1000000000.0, 147.0);
    TargetTight(NSE_DEFAULT, m, 5.0, 1000000000.0, 147.0);
    TwoToGrows(BISECTIONS);
    assert Max(FirstBound(m, 5.0), 2.0 * 147.0) == 294.0;
    SmallQuotient(294.0, TwoTo(BISECTIONS));
  }

  lemma SmallQuotient(a: real, b: real)
    requires 0.0 <= a <= 500.0 && b >= 1000.0
    ensures a / b <= 0.5
  {
    var q := a / b;
    assert q * b == a;
    if q > 0.5 { ScaleOrder(b, 0.5, q); }
  }

  lemma FirstEntry(balance: real, p: Plan)
    requires p.price >= 1.0 && EntryCost(Fill1(p.price), 1.0) <= balance * p.exposure / 100.0
    requires 0.0 < p.exposure <= 100.0
    ensures var sig := PlainSignal(p);
            var v := Accept(1, 1, 1.0, Fill1(p.price), EntryCost(Fill1(p.price), 1.0));
            && Judge(PlainDesk(), Opening(balance), sig, p.price, p.at) == v
            && var r := Enter(PlainDesk(), Opening(balance), sig, p.at, v);
               r.ok && OneLot(r.book, balance, p) && r.book.open == [r.book.lots[0]]
               && QueueOf(r.book.inventories, "X") == [SliceOf(r.book.lots[0])] && SoundInventories(r.book.inventories)
  {
    var b := Opening(balance);
    PlainFill(p.price);
    assert Positions(b.open) == {} && Room(b, p) by { PartOf(balance, p.exposure, EntryCost(Fill1(p.price), 1.0)); }
    PlainAccepts(b, p);
    hide Judge, Fill1;
  }

  lemma PartOf(balance: real, exposure: real, cost: real)
    requires 0.0 < exposure <= 100.0 && 0.0 < cost <= balance * exposure / 100.0
    ensures cost <= balance && balance > 0.0
  {
    var part := balance * exposure;
    assert part > 0.0;
    if balance <= 0.0 { ScaleOrder(exposure, balance, 0.0); }
    ScaleOrder(balance, exposure, 100.0);
    assert part <= balance * 100.0;
  }

  lemma FirstPurchase(balance: real, p: Plan, now: int)
    requires p.price >= 1.0 && EntryCost(Fill1(p.price), 1.0) <= balance * p.exposure / 100.0
    requires 0.0 < p.exposure <= 100.0
    ensures var r := OnSignal(PlainDesk(), Opening(balance), PlainSignal(p), now);
            OneLot(r.book, balance, p) && (p.price == 100.0 ==> r.ok)
  {
    var d, sig := PlainDesk(), PlainSignal(p);
    FirstEntry(balance, p);
    var v := Accept(1, 1, 1.0, Fill1(p.price), EntryCost(Fill1(p.price), 1.0));
    var entered := Enter(d, Opening(balance), sig, p.at, v);
    hide Judge, Enter, Fill1, EntryCost, FirstLot, MarkOne, SliceFor;
    var lot := entered.book.open[0];
    assert lot.symbol == "X" by { FirstLotIs(lot, p); }
    assert [lot][..0] == [];
    assert LotsFor([lot], "X", None) == [lot];
    FirstMark(entered, lot, p);
    assert MarkLots(d, entered, [lot], Fill1(p.price).price, 1) == MarkOne(d, entered, lot, Fill1(p.price).price);
  }

  lemma FirstLotIs(lot: Lot, p: Plan)
    requires FirstLot(lot, p)
    ensures lot.symbol == "X" && lot.id == 0 && lot.quantity == 1.0 && lot.entryAt == p.at && lot.stop == p.stop
  {}

  // ---- runs of two and three events ------------------------------------------------------------------------

  lemma RunTwo(d: Desk, terms: Terms, balance: real, e: Event, f: Event)
    requires DeskOk(d, terms) && balance >= 0.0 && Admissible(d, terms, e) && Admissible(d, terms, f)
    ensures SoundInventories(Opening(balance).inventories) && AllAdmissible(d, terms, [e, f])
    ensures var b := Step(d, Opening(balance), e);
            Sane(d, terms, b) && SoundInventories(b.inventories)
            && Run(d, Opening(balance), [e]) == b && Run(d, Opening(balance), [e, f]) == Step(d, b, f)
  {
    hide Step, Sane, DeskOk, Admissible;
    assert [e][..0] == [] && [e, f][..1] == [e];
    assert Run(d, Opening(balance), []) == Opening(balance);
    assert Sane(d, terms, Run(d, Opening(balance), [e])) by { RunIsSane(d, terms, balance, [e]); }
    SaneBasics(d, terms, Run(d, Opening(balance), [e]));
  }

  /** A run of three events: the books it passes through, all of them sane. */
  ghost predicate ThreeSteps(d: Desk, terms: Terms, balance: real, e: Event, f: Event, g: Event, a: Book, b: Book) {
    && DeskOk(d, terms) && balance >= 0.0 && AllAdmissible(d, terms, [e, f, g])
    && SoundInventories(Opening(balance).inventories) && Step(d, Opening(balance), e) == a
    && Sane(d, terms, a) && SoundInventories(a.inventories) && Run(d, Opening(balance), [e]) == a
    && Sane(d, terms, b) && SoundInventories(b.inventories) && Run(d, Opening(balance), [e, f]) == b == Step(d, a, f)
    && Run(d, Opening(balance), [e, f, g]) == Step(d, b, g) && Sane(d, terms, Step(d, b, g))
  }

  lemma RunThree(d: Desk, terms: Terms, balance: real, e: Event, f: Event, g: Event) returns (a: Book, b: Book)
    requires DeskOk(d, terms) && balance >= 0.0 && Admissible(d, terms, e) && Admissible(d, terms, f)
    requires Admissible(d, terms, g)
    ensures ThreeSteps(d, terms, balance, e, f, g, a, b)
  {
    hide Step, Sane, DeskOk, Admissible;
    var events := [e, f, g];
    RunTwo(d, terms, balance, e, f);
    a, b := Run(d, Opening(balance), [e]), Run(d, Opening(balance), [e, f]);
    assert events[..2] == [e, f] && events[..1] == [e] && events[..0] == [];
    assert AllAdmissible(d, terms, events);
    RunIsSane(d, terms, balance, [e, f]);
    RunIsSane(d, terms, balance, events);
    SaneBasics(d, terms, b);
  }

  lemma ThreePunctual(d: Desk, terms: Terms, balance: real, e: Event, f: Event, g: Event, a: Book, b: Book)
    requires ThreeSteps(d, terms, balance, e, f, g, a, b) && !e.ManualCloseEvent? && !f.ManualCloseEvent?
    requires Punctual(b, g, false)
    ensures AllPunctual(d, balance, [e, f, g], false)
  {
    hide Step, Sane, DeskOk, AllAdmissible, Run;
    var events := [e, f, g];
    assert events[..2] == [e, f] && events[..1] == [e] && events[..0] == [];
    assert Punctual(Run(d, Opening(balance), events[..0]), e, false)
        && Punctual(Run(d, Opening(balance), events[..1]), f, false);
  }

  // ---- a sale that overdraws -----------------------------------------------------------------------------

  /** A candle that trades down through ten rupees, with nothing allowed to enter. */
  function Crash(at: int): Candle {
    Candle("X", 10.0, 10.0, 10.0, 10.0, at, None, None, None, (sig: Signal) => false, at)
  }

  lemma CrashSells(b: Book, lot: Lot)
    requires Sane(PlainDesk(), PlainTerms(), b) && b.open == [lot] && b.pending == []
    requires lot.id == 0 && lot.symbol == "X" && lot.quantity == 1.0 && lot.stop == Some(10.0)
    ensures SoundInventories(b.inventories)
    ensures OnCandle(PlainDesk(), b, Crash(lot.entryAt + 1)).book.cash == b.cash + Proceeds(NSE_DEFAULT, 10.0, 1.0)
  {
    var d, at := PlainDesk(), lot.entryAt + 1;
    var c := Crash(at);
    hide Paired, Covers, Accounted, Limited, Configs, Sizes, CloseLot, Sale, Worth, Remove, RealizedPnl, ExitScan;
    assert [lot][..0] == [];
    assert LotsFor(b.open, "X", None) == [lot];
    assert FillQueue(d, b, c) == Out(b, true);
    assert SameLot(b.lots[0], b.open[0]);
    CloseBook(d, PlainTerms(), b, lot, 0, STOPPED, 10.0, at);
    var closed := CloseLot(d, b, lot, STOPPED, 10.0, at);
    assert ExitScan(d, Out(b, true), c, [lot], 1) == Scan(closed, true) by { OneStop(b, lot, lot.entryAt); }
    RemoveSingle(lot);
    assert LotsFor([], "X", None) == [];
  }

  lemma RemoveSingle(lot: Lot)
    ensures Remove([lot], lot.id) == []
  {
    assert [lot][..0] == [];
    assert Remove([], lot.id) == [];
  }

  lemma OneStop(b: Book, lot: Lot, at: int)
    requires SoundInventories(b.inventories) && lot.entryAt == at && lot.stop == Some(10.0)
    ensures ExitScan(PlainDesk(), Out(b, true), Crash(at + 1), [lot], 1)
         == Scan(CloseLot(PlainDesk(), b, lot, STOPPED, 10.0, at + 1), true)
  {
    hide CloseLot;
    assert ExitScan(PlainDesk(), Out(b, true), Crash(at + 1), [lot], 0) == Scan(Out(b, true), false);
  }

  const STOPPED_PLAN := Plan("S", "1d", 0, 970.0, Some(10.0), 100.0)

  /** From a fresh account of a thousand rupees: one share bought at 970 with its stop at 10, and a candle that
      reaches the stop. Selling costs more than it brings, and the account ends below zero. */
  lemma StoppedLotOverdraws() returns (events: seq<Event>)
    ensures DeskOk(PlainDesk(), PlainTerms()) && AllAdmissible(PlainDesk(), PlainTerms(), events)
    ensures Run(PlainDesk(), Opening(1000.0), events).cash < 0.0
  {
    var d, terms := PlainDesk(), PlainTerms();
    var e, f := SignalEvent(PlainSignal(STOPPED_PLAN), 0), CandleEvent(Crash(1));
    events := [e, f];
    PlainIsAllowed(100.0);
    SignalIsAdmissible(STOPPED_PLAN, 0);
    CrashIsAdmissible(1);
    hide Step, Sane, DeskOk, Run, Admissible, PlainDesk, PlainTerms, PlainSignal, Opening;
    RunTwo(d, terms, 1000.0, e, f);
    CrashOverdraws(Step(d, Opening(1000.0), e));
  }

  lemma CrashIsAdmissible(at: int)
    ensures Admissible(PlainDesk(), PlainTerms(), CandleEvent(Crash(at)))
  {
    PlainIsClean(10.0);
    hide Clean;
  }

  lemma CrashOverdraws(b: Book)
    requires Sane(PlainDesk(), PlainTerms(), b)
    requires SoundInventories(Opening(1000.0).inventories)
    requires b == Step(PlainDesk(), Opening(1000.0), SignalEvent(PlainSignal(STOPPED_PLAN), 0))
    ensures SoundInventories(b.inventories) && Step(PlainDesk(), b, CandleEvent(Crash(1))).cash < 0.0
  {
    hide OnCandle, OnSignal, Sane, Fill1, EntryCost, Proceeds, OneLot;
    StopCosts();
    FirstPurchase(1000.0, STOPPED_PLAN, 0);
    OneLotIs(b, 1000.0, STOPPED_PLAN);
    CrashSells(b, b.open[0]);
  }

  lemma OneLotIs(b: Book, balance: real, p: Plan)
    requires OneLot(b, balance, p)
    ensures b.cash == balance - EntryCost(Fill1(p.price), 1.0) && b.pending == [] && |b.open| == 1
    ensures var lot := b.open[0];
            && b.open == [lot] && lot.id == 0 && lot.symbol == "X" && lot.quantity == 1.0
            && lot.stop == p.stop && lot.entryAt == p.at
  {
    hide Fill1, EntryCost, SliceFor;
  }

  /** The share can be afforded, and what is left does not cover its sale. */
  lemma StopCosts()
    ensures EntryCost(Fill1(970.0), 1.0) <= 1000.0
    ensures 1000.0 - EntryCost(Fill1(970.0), 1.0) + Proceeds(NSE_DEFAULT, 10.0, 1.0) < 0.0
  {
    PlainFill(970.0);
    hide Fill1, EntryCost, Proceeds;
    NseProceeds(0.00111, 20.0, 0.0005, 10.0, 1.0);
  }

  // ---- the second purchase -------------------------------------------------------------------------------

  /** The two purchases of the runs below: a share at 100 for a five-minute strategy, then one at 200 for a daily
      one, stamped earlier. */
  function Early(exposure: real): Plan { Plan("S", "5m", 2, 100.0, None, exposure) }

  function Late(exposure: real): Plan { Plan("T", "1d", 1, 200.0, None, exposure) }

  /** A lot marked against the share at 100, after the fill at 200. */
  ghost predicate MarkedAtFront(lot: Lot, target: real) {
    && lot.costBasis == Fill1(100.0).price && lot.lastPrice == Fill1(200.0).price && lot.target == target
    && lot.unrealized == Fill1(200.0).price - Fill1(100.0).price - Fill1(100.0).fees
  }

  /** The book after both purchases: both lots carry the basis and the target of the share at 100. */
  ghost predicate TwoLots(b: Book, balance: real, exposure: real, target: real) {
    && b.starting == balance && b.cash == balance - EntryCost(Fill1(100.0), 1.0) - EntryCost(Fill1(200.0), 1.0)
    && b.pending == [] && |b.lots| == 2 && b.lots[0].exitAt == b.lots[1].exitAt == None
    && b.trades == [Trade(0, "X", true, 1.0, Fill1(100.0).price, Fill1(100.0).fees, 2),
                    Trade(1, "X", true, 1.0, Fill1(200.0).price, Fill1(200.0).fees, 1)]
    && QueueOf(b.inventories, "X") == [SliceFor(0, Early(exposure)), SliceFor(1, Late(exposure))]
    && |b.open| == 2 && target <= 148.0
    && (forall i :: 0 <= i < 2 ==>
          b.open[i].id == i && b.open[i].symbol == "X" && b.open[i].quantity == 1.0 && b.open[i].stop == None
          && b.open[i].config == PlainConfig(exposure) && MarkedAtFront(b.open[i], target))
    && b.open[0].entryAt == 2 && b.open[0].timeframe == "5m" && b.open[0].strategy == "S"
    && b.open[1].entryAt == 1 && b.open[1].timeframe == "1d" && b.open[1].strategy == "T"
  }

  lemma SecondRoom(b: Book, balance: real, exposure: real)
    requires OneLot(b, balance, Early(exposure)) && balance >= 600.0 && balance * exposure / 100.0 >= 330.0
    ensures Room(b, Late(exposure))
  {
    var lot := b.open[0];
    PlainFill(100.0);
    PlainFill(200.0);
    hide Fill1, EntryCost, SliceFor;
    assert b.open == [lot] && [lot][..0] == [] && b.lots == [b.lots[0]] && [b.lots[0]][..0] == [];
    assert LotsOfKey([lot], "X", "T", "1d") == [] by { assert "S" != "T"; }
    assert Positions([lot]) == {KeyOf(lot)};
    assert Exposure([]) == 0.0 && Unrealized([]) == 0.0;
    assert Exposure([lot]) == Worth(lot.costBasis, 1.0);
    assert Unrealized([lot]) == lot.unrealized;
    assert RealizedOn([b.lots[0]], PlainDesk().day, PlainDesk().day(1)) == 0.0;
  }

  lemma SecondAccepts(b: Book, balance: real, exposure: real)
    requires OneLot(b, balance, Early(exposure)) && balance >= 600.0 && balance * exposure / 100.0 >= 330.0
    ensures LotsOfKey(b.open, "X", "T", "1d") == []
    ensures var v := Judge(PlainDesk(), b, PlainSignal(Late(exposure)), 200.0, 1);
            v.Accept? && v.quantity == 1.0 && v.fill == Fill1(200.0) && v.cost == EntryCost(Fill1(200.0), 1.0)
  {
    SecondRoom(b, balance, exposure);
    hide Judge, Fill1, EntryCost, FirstLot, SliceFor;
    PlainAccepts(b, Late(exposure));
  }

  /** An accepted entry of a plain signal: what it adds, and the re-mark that follows. */
  lemma AcceptedEntry(d: Desk, terms: Terms, b: Book, sig: Signal, price: real) returns (entered: Out, lot: Lot)
    requires DeskOk(d, terms) && Sane(d, terms, b) && Allowed(d, terms, sig.config) && Clean(d, price) && d.market.NSE?
    requires sig.price == price && sig.config.policy.stopLossPct.None?
    requires LotsOfKey(b.open, sig.symbol, sig.strategy, sig.timeframe) == [] && !sig.config.policy.nextOpen
    requires Judge(d, b, sig, price, sig.at).Accept? && !TargetPctRaises(sig)
    ensures SoundInventories(b.inventories) && SoundInventories(entered.book.inventories)
    ensures var v := Judge(d, b, sig, price, sig.at);
            var lots := LotsFor(entered.book.open, sig.symbol, None);
            && OnSignal(d, b, sig, 0) == MarkLots(d, entered, lots, d.rounding.four(v.fill.price), |lots|)
            && lot.id == |b.lots| && lot.symbol == sig.symbol && lot.quantity == v.quantity && lot.entryAt == sig.at
            && lot.strategy == sig.strategy && lot.timeframe == sig.timeframe && lot.config == sig.config
            && lot.stop == sig.stopPrice && lot.entryPrice == d.rounding.four(v.fill.price)
            && lot.fees == d.rounding.four(v.fill.fees) && lot.exitAt == None
            && entered.book.cash == b.cash - v.cost
    ensures entered.ok && Sane(d, terms, entered.book)
    ensures entered.book.open == b.open + [lot] && entered.book.trades == b.trades + [PurchaseOf(lot)]
    ensures entered.book.lots == b.lots + [lot] && entered.book.starting == b.starting
    ensures entered.book.pending == b.pending
    ensures QueueOf(entered.book.inventories, sig.symbol) == QueueOf(b.inventories, sig.symbol) + [SliceOf(lot)]
  {
    hide Judge, Sane, Clean, LotsFor, MarkLots, LotsOfKey, Allowed;
    SaneBasics(d, terms, b);
    AllowedIsOk(d, terms, sig.config);
    var v := Judge(d, b, sig, price, sig.at);
    EntryFacts(d, b, sig, price, sig.at);
    lot := NewLot(d, b, sig, sig.at, v);
    entered := Enter(d, b, sig, sig.at, v);
    EnterBook(d, b, sig, price, sig.at, v);
    EnterKeeps(d, terms, b, sig, price, sig.at);
  }

  /** The mark a lot of one share gets from a queue that starts with the share at 100. */
  ghost function FrontMark(lot: Lot, target: real): Lot {
    lot.(costBasis := Fill1(100.0).price, lastPrice := Fill1(200.0).price, target := target,
         unrealized := Fill1(200.0).price - Fill1(100.0).price - Fill1(100.0).fees)
  }

  lemma FrontRemark(queue: seq<Slice>, lot: Lot, exposure: real) returns (target: real)
    requires Sound(queue) && WholeUnits(queue) && queue != [] && queue[0] == SliceFor(0, Early(exposure))
    requires lot.quantity == 1.0 && lot.config == PlainConfig(exposure)
    ensures target <= 148.0 && target == FrontTargetOf(queue)
    ensures Remark(PlainDesk(), queue, lot, Fill1(200.0).price) == Some((FrontMark(lot, target), Fill1(100.0).fees))
  {
    PlainFill(100.0);
    FrontMatch(queue);
    var m := Sale(queue, 1.0).value.0;
    hide Sale, NetTarget, Fill1;
    FrontTarget(m);
    target := NetTarget(NSE_DEFAULT, m, 5.0, 1000000000.0).value;
  }

  /** What the front of the queue asks for one share. */
  ghost function FrontTargetOf(queue: seq<Slice>): real
    requires Sound(queue)
  {
    if Sale(queue, 1.0).Ok? && NetTarget(NSE_DEFAULT, Sale(queue, 1.0).value.0, 5.0, 1000000000.0).Ok?
    then NetTarget(NSE_DEFAULT, Sale(queue, 1.0).value.0, 5.0, 1000000000.0).value else 0.0
  }

  lemma OneFrontMark(o: Out, lot: Lot, exposure: real)
    requires o.ok && SoundInventories(o.book.inventories) && lot.id < |o.book.lots|
    requires var queue := QueueOf(o.book.inventories, "X");
             WholeUnits(queue) && queue != [] && queue[0] == SliceFor(0, Early(exposure))
    requires lot.quantity == 1.0 && lot.symbol == "X" && lot.config == PlainConfig(exposure)
    ensures Sound(QueueOf(o.book.inventories, "X"))
    ensures var target := FrontTargetOf(QueueOf(o.book.inventories, "X"));
            var r := MarkOne(PlainDesk(), o, lot, Fill1(200.0).price);
            && target <= 148.0 && r.ok && r.book == o.book.(lots := r.book.lots, open := r.book.open)
            && r.book.open == Replace(o.book.open, FrontMark(lot, target))
            && |r.book.lots| == |o.book.lots|
            && (forall i :: 0 <= i < |r.book.lots| ==> r.book.lots[i].exitAt == o.book.lots[i].exitAt)
  {
    hide Remark, Fill1, FrontTargetOf, SliceFor, FrontMark, Replace;
    var target := FrontRemark(QueueOf(o.book.inventories, "X"), lot, exposure);
  }

  lemma TwoFrontMarks(o: Out, was: Lot, lot: Lot, exposure: real)
    requires o.ok && SoundInventories(o.book.inventories) && |o.book.lots| == 2 && o.book.open == [was, lot]
    requires var queue := QueueOf(o.book.inventories, "X");
             WholeUnits(queue) && queue != [] && queue[0] == SliceFor(0, Early(exposure))
    requires was.id == 0 && was.quantity == 1.0 && was.symbol == "X" && was.config == PlainConfig(exposure)
    requires lot.id == 1 && lot.quantity == 1.0 && lot.symbol == "X" && lot.config == PlainConfig(exposure)
    ensures Sound(QueueOf(o.book.inventories, "X"))
    ensures var target := FrontTargetOf(QueueOf(o.book.inventories, "X"));
            var lots := LotsFor(o.book.open, "X", None);
            var r := MarkLots(PlainDesk(), o, lots, Fill1(200.0).price, |lots|);
            && target <= 148.0 && r.ok && r.book == o.book.(lots := r.book.lots, open := r.book.open)
            && r.book.open == [FrontMark(was, target), FrontMark(lot, target)]
            && |r.book.lots| == 2 && (forall i :: 0 <= i < 2 ==> r.book.lots[i].exitAt == o.book.lots[i].exitAt)
  {
    hide MarkOne, Fill1, FrontTargetOf, SliceFor;
    var d, close := PlainDesk(), Fill1(200.0).price;
    BothAreX(was, lot);
    OneFrontMark(o, was, exposure);
    var target := FrontTargetOf(QueueOf(o.book.inventories, "X"));
    var once := MarkOne(d, o, was, close);
    ReplaceTwo(was, lot, FrontMark(was, target));
    OneFrontMark(once, lot, exposure);
    ReplaceTwo(FrontMark(was, target), lot, FrontMark(lot, target));
    assert MarkLots(d, o, [was, lot], close, 1) == once;
    assert MarkLots(d, o, [was, lot], close, 2) == MarkOne(d, once, lot, close);
  }

  lemma ReplaceTwo(a: Lot, b: Lot, mark: Lot)
    requires a.id == 0 && b.id == 1 && (mark.id == 0 || mark.id == 1)
    ensures Replace([a, b], mark) == if mark.id == 0 then [mark, b] else [a, mark]
  {
    assert [a, b][1..] == [b] && [b][1..] == [];
    assert Replace([b], mark) == if mark.id == 1 then [mark] else [b] + Replace([], mark);
  }

  lemma BothAreX(a: Lot, b: Lot)
    requires a.symbol == "X" && b.symbol == "X"
    ensures LotsFor([a, b], "X", None) == [a, b]
  {
    assert [a, b][..1] == [a] && [a][..0] == [];
    assert LotsFor([], "X", None) == [];
    assert LotsFor([a], "X", None) == [] + [a];
    assert LotsFor([a, b], "X", None) == [a] + [b];
  }

  /** The book between the second entry and its marks. */
  ghost predicate BoughtBoth(b: Book, balance: real, exposure: real, was: Lot, lot: Lot) {
    && b.starting == balance && b.cash == balance - EntryCost(Fill1(100.0), 1.0) - EntryCost(Fill1(200.0), 1.0)
    && b.pending == [] && |b.lots| == 2 && b.lots[0].exitAt == b.lots[1].exitAt == None
    && b.trades == [Trade(0, "X", true, 1.0, Fill1(100.0).price, Fill1(100.0).fees, 2),
                    Trade(1, "X", true, 1.0, Fill1(200.0).price, Fill1(200.0).fees, 1)]
    && QueueOf(b.inventories, "X") == [SliceFor(0, Early(exposure)), SliceFor(1, Late(exposure))]
    && b.open == [was, lot]
    && was.id == 0 && was.symbol == "X" && was.quantity == 1.0 && was.stop == None
    && was.config == PlainConfig(exposure) && was.entryAt == 2 && was.timeframe == "5m" && was.strategy == "S"
    && lot.id == 1 && lot.symbol == "X" && lot.quantity == 1.0 && lot.stop == None
    && lot.config == PlainConfig(exposure) && lot.entryAt == 1 && lot.timeframe == "1d" && lot.strategy == "T"
  }

  lemma SecondEntry(b: Book, balance: real, exposure: real) returns (entered: Out, lot: Lot)
    requires Sane(PlainDesk(), PlainTerms(), b) && OneLot(b, balance, Early(exposure))
    requires balance >= 600.0 && balance * exposure / 100.0 >= 330.0
    ensures SoundInventories(b.inventories) && SoundInventories(entered.book.inventories) && entered.ok
    ensures var lots := LotsFor(entered.book.open, "X", None);
            OnSignal(PlainDesk(), b, PlainSignal(Late(exposure)), 0)
            == MarkLots(PlainDesk(), entered, lots, Fill1(200.0).price, |lots|)
    ensures BoughtBoth(entered.book, balance, exposure, b.open[0], lot)
  {
    SecondAccepts(b, balance, exposure);
    PlainIsAllowed(exposure);
    PlainIsClean(200.0);
    OneLotIs(b, balance, Early(exposure));
    hide Judge, Sane, Clean, Fill1, EntryCost, LotsFor, MarkLots, LotsOfKey, OnSignal, Allowed, DeskOk, OneLot,
         BoughtBoth;
    entered, lot := AcceptedEntry(PlainDesk(), PlainTerms(), b, PlainSignal(Late(exposure)), 200.0);
    EntryBought(b, entered.book, lot, balance, exposure);
  }

  lemma EntryBought(b: Book, after: Book, lot: Lot, balance: real, exposure: real)
    requires OneLot(b, balance, Early(exposure)) && after.starting == b.starting && after.pending == b.pending
    requires after.cash == b.cash - EntryCost(Fill1(200.0), 1.0) && after.lots == b.lots + [lot] && lot.exitAt == None
    requires after.open == b.open + [lot] && after.trades == b.trades + [PurchaseOf(lot)]
    requires QueueOf(after.inventories, "X") == QueueOf(b.inventories, "X") + [SliceOf(lot)]
    requires lot.id == |b.lots| && lot.symbol == "X" && lot.quantity == 1.0 && lot.stop == None
    requires lot.config == PlainConfig(exposure) && lot.entryAt == 1 && lot.timeframe == "1d" && lot.strategy == "T"
    requires lot.entryPrice == Fill1(200.0).price && lot.fees == Fill1(200.0).fees
    ensures BoughtBoth(after, balance, exposure, b.open[0], lot)
  {
    var was := b.open[0];
    FirstLotFields(was, exposure);
    hide Fill1, EntryCost, FirstLot;
    assert b.open == [was] && [was] + [lot] == [was, lot];
    assert after.trades == [b.trades[0]] + [PurchaseOf(lot)];
    assert SliceOf(lot) == SliceFor(1, Late(exposure));
  }

  lemma MarkedBoth(o: Book, r: Book, balance: real, exposure: real, was: Lot, lot: Lot, target: real)
    requires BoughtBoth(o, balance, exposure, was, lot) && target <= 148.0
    requires r == o.(lots := r.lots, open := r.open) && r.open == [FrontMark(was, target), FrontMark(lot, target)]
    requires |r.lots| == 2 && forall i :: 0 <= i < 2 ==> r.lots[i].exitAt == o.lots[i].exitAt
    ensures TwoLots(r, balance, exposure, target)
  {
    hide Fill1, EntryCost, SliceFor, PlainConfig;
  }

  lemma SecondPurchase(b: Book, balance: real, exposure: real) returns (target: real)
    requires Sane(PlainDesk(), PlainTerms(), b) && OneLot(b, balance, Early(exposure))
    requires balance >= 600.0 && balance * exposure / 100.0 >= 330.0
    ensures SoundInventories(b.inventories)
    ensures var r := OnSignal(PlainDesk(), b, PlainSignal(Late(exposure)), 0);
            r.ok && TwoLots(r.book, balance, exposure, target)
  {
    hide Sane, OneLot, OnSignal, MarkLots, LotsFor, Fill1, EntryCost, SliceFor, FrontTargetOf, FrontMark, PlainDesk,
         PlainTerms, TwoLots, PlainSignal, PlainConfig;
    OneLotIs(b, balance, Early(exposure));
    var entered, lot := SecondEntry(b, balance, exposure);
    var queue := QueueOf(entered.book.inventories, "X");
    assert queue == [SliceFor(0, Early(exposure))] + [SliceFor(1, Late(exposure))];
    WholeQueue(queue, exposure);
    TwoFrontMarks(entered, b.open[0], lot, exposure);
    target := FrontTargetOf(queue);
    var after := OnSignal(PlainDesk(), b, PlainSignal(Late(exposure)), 0).book;
    MarkedBoth(entered.book, after, balance, exposure, b.open[0], lot, target);
  }

  lemma WholeQueue(queue: seq<Slice>, exposure: real)
    requires queue == [SliceFor(0, Early(exposure))] + [SliceFor(1, Late(exposure))]
    ensures WholeUnits(queue) && queue != [] && queue[0] == SliceFor(0, Early(exposure))
    ensures queue == [SliceFor(0, Early(exposure)), SliceFor(1, Late(exposure))]
  {
    assert Whole(1.0);
  }

  lemma FirstLotFields(lot: Lot, exposure: real)
    requires FirstLot(lot, Early(exposure))
    ensures lot.id == 0 && lot.quantity == 1.0 && lot.symbol == "X" && lot.config == PlainConfig(exposure)
    ensures lot.strategy == "S" && lot.timeframe == "5m" && lot.entryAt == 2 && lot.stop == None
  {}

  // ---- a restart that rebuilds another inventory ----------------------------------------------------------

  lemma HandClose(b: Book, balance: real, exposure: real, target: real) returns (third: Trade)
    requires Sane(PlainDesk(), PlainTerms(), b) && TwoLots(b, balance, exposure, target)
    ensures SoundInventories(b.inventories)
    ensures OnManualClose(PlainDesk(), b, 0, 3).book.trades == b.trades + [third]
    ensures third.symbol == "X" && third.quantity == 1.0 && !third.buy
  {
    var d, lot := PlainDesk(), b.open[0];
    PlainFill(200.0);
    assert lot.lastPrice > 0.0 && lot.symbol == "X" && lot.quantity == 1.0 && lot.id == 0;
    hide TwoLots, Paired, Covers, Accounted, Limited, Configs, Sizes, CloseLot, MarkLots, LotsFor, Sale, Remove,
         RealizedPnl, PlainDesk, PlainTerms, Fill1;
    assert SameLot(b.lots[lot.id], lot);
    CloseBook(d, PlainTerms(), b, lot, 0, CLOSED, lot.lastPrice, 3);
    var closed := CloseLot(d, b, lot, CLOSED, lot.lastPrice, 3);
    third := closed.book.trades[|closed.book.trades| - 1];
    var lots := LotsFor(closed.book.open, "X", None);
    MarkLotsSame(d, closed, lots, lot.lastPrice, |lots|);
  }

  /** In order of entry the sale took the first purchase, so the second is the one held. */
  lemma SecondIsHeld(d: Desk, terms: Terms, b: Book, first: Trade, second: Trade, third: Trade)
    requires d.market.NSE? && Sane(d, terms, b) && b.trades == [first, second, third]
    requires first.buy && second.buy && !third.buy && first.symbol == second.symbol == third.symbol == "X"
    requires first.quantity == second.quantity == third.quantity == 1.0 && second.at < first.at
    ensures !HoldingsInOrder(b.trades, QueueOf(b.inventories, "X"), "X")
  {
    hide Tables, Limited, Configs, Sizes, QueueAfter, History;
    assert StockedIn(b, "X");
    assert ValidTrade(b.trades[0]) && ValidTrade(b.trades[1]);
    TwoBuysOneSale(first, second, third);
    var queue := QueueOf(b.inventories, "X");
    assert queue[0].id == LotNames.Decimal(second.lot);
    assert Held(queue, LotNames.Decimal(b.trades[1].lot));
    assert BuyOf(b.trades[0], "X") && BuyOf(b.trades[1], "X") && b.trades[0].at > b.trades[1].at;
  }

  lemma TwoLotsTrades(b: Book, balance: real, exposure: real, target: real)
    requires TwoLots(b, balance, exposure, target)
    ensures |b.trades| == 2 && b.trades == [b.trades[0], b.trades[1]] && b.open != [] && b.open[0].entryAt == 2
    ensures var t, u := b.trades[0], b.trades[1];
            && t.buy && u.buy && t.symbol == u.symbol == "X" && t.quantity == u.quantity == 1.0 && u.at < t.at
  {
    hide Fill1, EntryCost, SliceFor;
  }

  function EarlyEvent(exposure: real): Event { SignalEvent(PlainSignal(Early(exposure)), 0) }

  function LateEvent(exposure: real): Event { SignalEvent(PlainSignal(Late(exposure)), 0) }

  lemma EarlyStep(balance: real, exposure: real)
    requires 0.0 < exposure <= 100.0 && balance * exposure / 100.0 >= 330.0
    requires SoundInventories(Opening(balance).inventories)
    ensures OneLot(Step(PlainDesk(), Opening(balance), EarlyEvent(exposure)), balance, Early(exposure))
    ensures GoesThrough(PlainDesk(), Opening(balance), EarlyEvent(exposure))
  {
    assert EntryCost(Fill1(100.0), 1.0) <= 330.0 by { PlainFill(100.0); }
    hide OnSignal, OneLot, Fill1, EntryCost, PlainDesk, PlainSignal, Opening;
    FirstPurchase(balance, Early(exposure), 0);
  }

  lemma LateStep(a: Book, balance: real, exposure: real) returns (target: real)
    requires balance >= 600.0 && balance * exposure / 100.0 >= 330.0 && OneLot(a, balance, Early(exposure))
    requires Sane(PlainDesk(), PlainTerms(), a)
    ensures SoundInventories(a.inventories)
    ensures TwoLots(Step(PlainDesk(), a, LateEvent(exposure)), balance, exposure, target)
    ensures GoesThrough(PlainDesk(), a, LateEvent(exposure))
  {
    hide Sane, OnSignal, OneLot, TwoLots, PlainDesk, PlainTerms, PlainSignal;
    target := SecondPurchase(a, balance, exposure);
  }

  /** Both purchases, from a fresh account that can afford them, and an event after them. */
  lemma BothPurchases(balance: real, exposure: real, g: Event) returns (a: Book, b: Book, target: real)
    requires 0.0 < exposure <= 100.0 && balance >= 600.0 && balance * exposure / 100.0 >= 330.0
    requires Admissible(PlainDesk(), PlainTerms(), g)
    ensures ThreeSteps(PlainDesk(), PlainTerms(), balance, EarlyEvent(exposure), LateEvent(exposure), g, a, b)
    ensures SoundInventories(Opening(balance).inventories) && SoundInventories(a.inventories)
    ensures GoesThrough(PlainDesk(), Opening(balance), EarlyEvent(exposure))
    ensures GoesThrough(PlainDesk(), a, LateEvent(exposure))
    ensures TwoLots(b, balance, exposure, target)
  {
    PlainIsAllowed(exposure);
    SignalIsAdmissible(Early(exposure), 0);
    SignalIsAdmissible(Late(exposure), 0);
    hide Sane, DeskOk, Run, Admissible, PlainTerms, PlainDesk, Opening, Step, OneLot, TwoLots, GoesThrough,
         AllAdmissible, PlainSignal;
    a, b := RunThree(PlainDesk(), PlainTerms(), balance, EarlyEvent(exposure), LateEvent(exposure), g);
    EarlyStep(balance, exposure);
    target := LateStep(a, balance, exposure);
  }

  /** From a fresh account: two shares bought on signals stamped 2 and then 1, and the first closed by hand.
      The broker holds the second share; a restart, reading the log in order of time, rebuilds the first. */
  lemma RestartCanDiffer() returns (events: seq<Event>)
    ensures DeskOk(PlainDesk(), PlainTerms()) && AllAdmissible(PlainDesk(), PlainTerms(), events)
    ensures var b := Run(PlainDesk(), Opening(1000.0), events);
            var loaded := Load(Chronological(b.trades));
            loaded.Ok? && QueueOf(loaded.value, "X") != QueueOf(b.inventories, "X")
  {
    var g := ManualCloseEvent(0, 3);
    hide Sane, DeskOk, Run, PlainTerms, PlainDesk, Opening, OnManualClose, HoldingsInOrder, Load, TwoLots,
         GoesThrough, EarlyEvent, LateEvent, AllAdmissible, AllPunctual, ThreeSteps, Step, Punctual;
    assert Admissible(PlainDesk(), PlainTerms(), g);
    var a, b, target := BothPurchases(1000.0, 100.0, g);
    events := [EarlyEvent(100.0), LateEvent(100.0), g];
    SameEnd(a, b, g, 100.0);
    HandCloseDiffers(b, target);
    assert AllPunctual(PlainDesk(), 1000.0, events, false) by { BothPunctual(a, b, target); }
    RunLoads(PlainDesk(), PlainTerms(), 1000.0, events);
    RunRecoversExactlyWhen(PlainDesk(), PlainTerms(), 1000.0, events, "X");
  }

  lemma BothPunctual(a: Book, b: Book, target: real)
    requires TwoLots(b, 1000.0, 100.0, target)
    requires ThreeSteps(
      PlainDesk(), PlainTerms(), 1000.0, EarlyEvent(100.0), LateEvent(100.0), ManualCloseEvent(0, 3), a, b)
    ensures AllPunctual(PlainDesk(), 1000.0, [EarlyEvent(100.0), LateEvent(100.0), ManualCloseEvent(0, 3)], false)
  {
    TwoLotsTrades(b, 1000.0, 100.0, target);
    hide ThreeSteps, TwoLots, AllPunctual;
    ThreePunctual(PlainDesk(), PlainTerms(), 1000.0, EarlyEvent(100.0), LateEvent(100.0), ManualCloseEvent(0, 3), a, b);
  }

  lemma SameEnd(a: Book, b: Book, g: Event, exposure: real)
    requires ThreeSteps(PlainDesk(), PlainTerms(), 1000.0, EarlyEvent(exposure), LateEvent(exposure), g, a, b)
    ensures DeskOk(PlainDesk(), PlainTerms()) && SoundInventories(b.inventories)
    ensures var events := [EarlyEvent(exposure), LateEvent(exposure), g];
            && AllAdmissible(PlainDesk(), PlainTerms(), events)
            && Run(PlainDesk(), Opening(1000.0), events) == Step(PlainDesk(), b, g)
            && Sane(PlainDesk(), PlainTerms(), Step(PlainDesk(), b, g)) && Sane(PlainDesk(), PlainTerms(), b)
  {
    hide Sane, DeskOk, Run, AllAdmissible, Step, Opening;
  }

  lemma HandCloseDiffers(b: Book, target: real)
    requires TwoLots(b, 1000.0, 100.0, target) && Sane(PlainDesk(), PlainTerms(), b)
    requires SoundInventories(b.inventories)
    requires Sane(PlainDesk(), PlainTerms(), Step(PlainDesk(), b, ManualCloseEvent(0, 3)))
    ensures var c := Step(PlainDesk(), b, ManualCloseEvent(0, 3));
            !HoldingsInOrder(c.trades, QueueOf(c.inventories, "X"), "X")
  {
    hide Sane, TwoLots, OnManualClose, HoldingsInOrder, PlainTerms;
    TwoLotsTrades(b, 1000.0, 100.0, target);
    var third := HandClose(b, 1000.0, 100.0, target);
    assert [b.trades[0], b.trades[1]] + [third] == [b.trades[0], b.trades[1], third];
    var c := Step(PlainDesk(), b, ManualCloseEvent(0, 3));
    SecondIsHeld(PlainDesk(), PlainTerms(), c, b.trades[0], b.trades[1], third);
  }

  // ---- a stale target --------------------------------------------------------------------------------------

  /** A candle of one timeframe at 150, as `on_completed_candle` processes it. */
  function Rally(timeframe: string, at: int): Candle {
    Candle("X", 150.0, 150.0, 150.0, 150.0, at, Some(timeframe), Some(timeframe), None, (sig: Signal) => false, at)
  }

  lemma RallyIsAdmissible(timeframe: string, at: int)
    ensures Admissible(PlainDesk(), PlainTerms(), CandleEvent(Rally(timeframe, at))) && Clean(PlainDesk(), 150.0)
  {
    PlainIsClean(150.0);
    hide Clean;
  }

  /** After the five-minute candle: the daily lot alone, its target as it was, over the share at 200. */
  ghost predicate StaleLot(b: Book, exposure: real, target: real) {
    && b.pending == [] && QueueOf(b.inventories, "X") == [SliceFor(1, Late(exposure))] && |b.open| == 1
    && var lot := b.open[0];
       && lot.symbol == "X" && lot.timeframe == "1d" && lot.quantity == 1.0 && lot.entryAt == 1 && lot.stop == None
       && lot.target == target && target <= 148.0 && lot.config == PlainConfig(exposure)
  }

  lemma OneTarget(b: Book, lot: Lot, timeframe: string, at: int)
    requires SoundInventories(b.inventories) && lot.entryAt < at && lot.stop == None && lot.target <= 148.0
    ensures ExitOf(lot, Rally(timeframe, at), false) == Some((TARGET_HIT, lot.target))
    ensures ExitScan(PlainDesk(), Out(b, true), Rally(timeframe, at), [lot], 0) == Scan(Out(b, true), false)
    ensures ExitScan(PlainDesk(), Out(b, true), Rally(timeframe, at), [lot], 1)
         == Scan(CloseLot(PlainDesk(), b, lot, TARGET_HIT, lot.target, at), true)
  {
    hide CloseLot;
  }

  lemma OnlyTimeframe(a: Lot, b: Lot)
    requires a.symbol == b.symbol == "X" && a.timeframe == "5m" && b.timeframe == "1d"
    ensures LotsFor([a, b], "X", Some("5m")) == [a] && LotsFor([b], "X", Some("5m")) == []
    ensures LotsFor([b], "X", Some("1d")) == [b] && Remove([a, b], a.id) == Remove([a], a.id) + Remove([b], a.id)
  {
    assert [a, b][..1] == [a] && [a][..0] == [] && [b][..0] == [];
    assert "5m" != "1d" by { assert "5m"[0] != "1d"[0]; }
    assert LotsFor([], "X", Some("5m")) == [] == LotsFor([], "X", Some("1d"));
    assert LotsFor([a], "X", Some("5m")) == [] + [a];
    assert Remove([], a.id) == [];
  }

  lemma RemoveFirst(a: Lot, b: Lot)
    requires a.id != b.id
    ensures Remove([a, b], a.id) == [b]
  {
    assert [a, b][..1] == [a];
    RemoveSingle(a);
  }

  /** What the candle leaves once its one lot is sold. */
  lemma OneSold(b: Book, c: Candle, lot: Lot, other: Lot, closed: Out)
    requires SoundInventories(b.inventories) && b.pending == [] && b.open == [lot, other] && c == Rally("5m", 3)
    requires lot.symbol == other.symbol == "X" && lot.timeframe == "5m" && other.timeframe == "1d"
    requires closed.ok && SoundInventories(closed.book.inventories) && closed.book.open == [other]
    requires ExitScan(PlainDesk(), Out(b, true), c, [lot], 1).out == closed
    ensures OnCandle(PlainDesk(), b, c) == closed
  {
    hide ExitScan, LotsFor;
    OnlyTimeframe(lot, other);
    assert FillQueue(PlainDesk(), b, c) == Out(b, true);
  }

  /** Closing the first of two lots takes the front slice and leaves the second lot. */
  lemma FrontClose(b: Book, lot: Lot, other: Lot, queue: seq<Slice>, raw: real)
    requires Sane(PlainDesk(), PlainTerms(), b) && b.open == [lot, other] && lot.quantity == 1.0
    requires QueueOf(b.inventories, lot.symbol) == queue && WholeUnits(queue) && queue != [] && queue[0].quantity == 1.0
    ensures SoundInventories(b.inventories)
    ensures var r := CloseLot(PlainDesk(), b, lot, TARGET_HIT, raw, 3);
            && r.ok && r.book.pending == b.pending && r.book.open == [other]
            && QueueOf(r.book.inventories, lot.symbol) == queue[1..]
  {
    hide Sane, CloseLot, Sale, Worth, Remove, RealizedPnl, Mirrors;
    SaneBasics(PlainDesk(), PlainTerms(), b);
    assert b.open[0].id < b.open[1].id;
    RemoveFirst(lot, other);
    assert lot.id < |b.lots| && SameTerms(b.lots[lot.id], lot) by { MirroredFirst(b); }
    FrontMatch(queue);
    CloseBook(PlainDesk(), PlainTerms(), b, lot, 0, TARGET_HIT, raw, 3);
  }

  lemma FiveMinuteExit(b: Book, balance: real, exposure: real, target: real)
    requires Sane(PlainDesk(), PlainTerms(), b) && TwoLots(b, balance, exposure, target)
    ensures SoundInventories(b.inventories)
    ensures var r := OnCandle(PlainDesk(), b, Rally("5m", 3));
            r.ok && StaleLot(r.book, exposure, target)
  {
    hide Sane, CloseLot, ExitScan, Fill1, EntryCost, LotsFor, ExitOf, PlainConfig, OnCandle;
    var d, c, lot, other := PlainDesk(), Rally("5m", 3), b.open[0], b.open[1];
    var queue := [SliceFor(0, Early(exposure))] + [SliceFor(1, Late(exposure))];
    assert b.open == [lot, other] && QueueOf(b.inventories, "X") == queue;
    WholeQueue(queue, exposure);
    FrontClose(b, lot, other, queue, target);
    OneTarget(b, lot, "5m", 3);
    OneSold(b, c, lot, other, CloseLot(d, b, lot, TARGET_HIT, target, 3));
    assert queue[1..] == [SliceFor(1, Late(exposure))];
  }

  lemma MirroredFirst(b: Book)
    requires Mirrors(b.lots, b.open) && b.open != []
    ensures b.open[0].id < |b.lots| && SameTerms(b.lots[b.open[0].id], b.open[0])
  {
    assert SameLot(b.lots[b.open[0].id], b.open[0]);
  }

  /** Selling at the old target brings far less than five percent over the share at 200. */
  lemma StaleDoesNotEarn(d: Desk, inventories: map<string, seq<Slice>>, lot: Lot, exposure: real)
    requires d == PlainDesk() && QueueOf(inventories, "X") == [SliceFor(1, Late(exposure))]
    requires lot.symbol == "X" && lot.quantity == 1.0 && lot.target <= 148.0 && lot.config == PlainConfig(exposure)
    ensures !Earns(d, inventories, lot, lot.target)
  {
    PlainFill(200.0);
    var queue := [SliceFor(1, Late(exposure))];
    assert Sound(queue) && WholeUnits(queue) by { assert Whole(1.0); }
    FrontMatch(queue);
    hide Fill1, Sale, Proceeds;
    NseProceeds(0.00111, 20.0, 0.0005, lot.target, 1.0);
  }

  lemma StaleCandle(b: Book, exposure: real, target: real)
    requires StaleLot(b, exposure, target) && SoundInventories(b.inventories)
    ensures !CandleEarns(PlainDesk(), b, Rally("1d", 4))
  {
    var d, c, lot := PlainDesk(), Rally("1d", 4), b.open[0];
    StaleDoesNotEarn(d, b.inventories, lot, exposure);
    hide Earns, SliceFor, PlainConfig, CloseLot, ExitOf, ExitScan, LotsFor;
    assert b.open == [lot];
    DailyOnly(lot);
    assert FillQueue(d, b, c) == Out(b, true);
    OneTarget(b, lot, "1d", 4);
  }

  lemma DailyOnly(lot: Lot)
    requires lot.symbol == "X" && lot.timeframe == "1d"
    ensures LotsFor([lot], "X", Some("1d")) == [lot]
  {
    assert [lot][..0] == [];
    assert LotsFor([], "X", Some("1d")) == [];
  }

  /** Every event of the run went through. */
  ghost predicate AllWentThrough(d: Desk, balance: real, events: seq<Event>) {
    forall i :: 0 <= i < |events| ==>
      var b := Run(d, Opening(balance), events[..i]);
      SoundInventories(b.inventories) && GoesThrough(d, b, events[i])
  }

  lemma ThreeWentThrough(d: Desk, terms: Terms, balance: real, e: Event, f: Event, g: Event, a: Book, b: Book)
    requires ThreeSteps(d, terms, balance, e, f, g, a, b)
    requires SoundInventories(Opening(balance).inventories) && SoundInventories(a.inventories)
    requires SoundInventories(b.inventories)
    requires GoesThrough(d, Opening(balance), e) && GoesThrough(d, a, f) && GoesThrough(d, b, g)
    ensures AllWentThrough(d, balance, [e, f, g])
  {
    hide Step, Sane, DeskOk, AllAdmissible, GoesThrough;
    RunNone(d, balance);
    hide Run;
    var events := [e, f, g];
    assert events[..2] == [e, f] && events[..1] == [e] && events[..0] == [];
  }

  lemma RunNone(d: Desk, balance: real)
    ensures Run(d, Opening(balance), []) == Opening(balance)
  {}

  /** From a fresh account, with nothing raising: a five-minute lot at 100 and a daily lot at 200, both with the
      target of the share at 100. A five-minute candle closes the first and re-marks only five-minute lots; a
      daily candle then closes the second at the same target, against the share at 200, and it does not earn. */
  lemma StaleTargetFails() returns (events: seq<Event>, c: Candle)
    ensures DeskOk(PlainDesk(), PlainTerms()) && AllAdmissible(PlainDesk(), PlainTerms(), events)
    ensures AllWentThrough(PlainDesk(), 1000.0, events) && Clean(PlainDesk(), c.open)
    ensures var b := Run(PlainDesk(), Opening(1000.0), events);
            SoundInventories(b.inventories) && !CandleEarns(PlainDesk(), b, c)
  {
    var g := CandleEvent(Rally("5m", 3));
    c := Rally("1d", 4);
    RallyIsAdmissible("5m", 3);
    hide Sane, DeskOk, Run, PlainTerms, PlainDesk, Opening, OnCandle, TwoLots, StaleLot, CandleEarns, EarlyEvent,
         LateEvent, AllAdmissible, ThreeSteps, Clean, AllWentThrough;
    var a, b, target := BothPurchases(1000.0, 100.0, g);
    events := [EarlyEvent(100.0), LateEvent(100.0), g];
    SameEnd(a, b, g, 100.0);
    FiveMinuteExit(b, 1000.0, 100.0, target);
    ThreeWentThrough(PlainDesk(), PlainTerms(), 1000.0, EarlyEvent(100.0), LateEvent(100.0), g, a, b);
    StaleCandle(Step(PlainDesk(), b, g), 100.0, target);
  }

  // ---- purchases beyond the exposure cap ---------------------------------------------------------------------

  function Third(exposure: real): Plan { Plan("U", "1d", 3, 200.0, None, exposure) }

  lemma ThirdRoom(b: Book, target: real)
    requires TwoLots(b, 1000.0, 45.0, target)
    ensures Room(b, Third(45.0))
  {
    var x, y := b.open[0], b.open[1];
    PlainFill(100.0);
    PlainFill(200.0);
    assert MarkedAtFront(x, target) && MarkedAtFront(y, target);
    hide Fill1, EntryCost, SliceFor;
    assert b.open == [x, y] && [x, y][..1] == [x] && [x][..0] == [];
    assert b.lots == [b.lots[0], b.lots[1]] && b.lots[..1] == [b.lots[0]] && [b.lots[0]][..0] == [];
    assert x.strategy != "U" && y.strategy != "U" by { assert "S"[0] != "U"[0] && "T"[0] != "U"[0]; }
    assert LotsOfKey([], "X", "U", "1d") == [];
    assert LotsOfKey([x], "X", "U", "1d") == [];
    assert LotsOfKey([x, y], "X", "U", "1d") == [];
    assert Positions([x, y]) <= {KeyOf(x), KeyOf(y)};
    SubsetSize(Positions([x, y]), {KeyOf(x), KeyOf(y)});
    assert Exposure([x]) == Worth(x.costBasis, 1.0);
    assert Exposure([x, y]) == Exposure([x]) + Worth(y.costBasis, 1.0);
    assert Unrealized([x]) == x.unrealized && Unrealized([x, y]) == x.unrealized + y.unrealized;
    assert RealizedOn([b.lots[0]], PlainDesk().day, PlainDesk().day(3)) == 0.0;
    assert RealizedOn(b.lots, PlainDesk().day, PlainDesk().day(3)) == 0.0;
  }

  lemma ThirdCost(queue: seq<Slice>, more: Slice)
    requires queue == [SliceFor(0, Early(45.0)), SliceFor(1, Late(45.0))]
    requires more.price == Fill1(200.0).price && more.quantity == 1.0
    ensures Cost(queue + [more]) > 450.0
  {
    PlainFill(100.0);
    PlainFill(200.0);
    var all := queue + [more];
    assert all[1..] == [all[1], more] && all[1..][1..] == [more] && [more][1..] == [];
    assert Cost([more]) == Worth(more.price, 1.0);
    assert Cost(all[1..]) == Worth(all[1].price, 1.0) + Cost([more]);
    assert Cost(all) == Worth(all[0].price, 1.0) + Cost(all[1..]);
  }

  lemma ThirdPurchase(b: Book, target: real)
    requires Sane(PlainDesk(), PlainTerms(), b) && TwoLots(b, 1000.0, 45.0, target)
    ensures SoundInventories(b.inventories)
    ensures Cost(QueueOf(OnSignal(PlainDesk(), b, PlainSignal(Third(45.0)), 0).book.inventories, "X")) > 450.0
  {
    ThirdRoom(b, target);
    PlainAccepts(b, Third(45.0));
    PlainIsAllowed(45.0);
    PlainIsClean(200.0);
    var queue := QueueOf(b.inventories, "X");
    assert queue == [SliceFor(0, Early(45.0)), SliceFor(1, Late(45.0))];
    hide Judge, Sane, Clean, Fill1, EntryCost, LotsFor, MarkLots, LotsOfKey, OnSignal, Allowed, DeskOk, TwoLots,
         SliceFor, Cost;
    var entered, lot := AcceptedEntry(PlainDesk(), PlainTerms(), b, PlainSignal(Third(45.0)), 200.0);
    ThirdCost(queue, SliceOf(lot));
  }

  /** From a fresh account of a thousand rupees and an exposure cap of 45 percent: after shares at 100 and 200 the
      guard counts both at the basis of the first, so a third share is accepted, and the inventory then costs
      more than the cap. */
  lemma ExposureCapIsMissed() returns (events: seq<Event>)
    ensures DeskOk(PlainDesk(), PlainTerms()) && AllAdmissible(PlainDesk(), PlainTerms(), events)
    ensures Capped(events, 45.0)
    ensures Cost(QueueOf(Run(PlainDesk(), Opening(1000.0), events).inventories, "X")) > 1000.0 * 45.0 / 100.0
  {
    var g := SignalEvent(PlainSignal(Third(45.0)), 0);
    SignalIsAdmissible(Third(45.0), 0);
    SignalsCapped(g);
    hide Sane, DeskOk, Run, PlainTerms, PlainDesk, Opening, OnSignal, TwoLots, AllAdmissible, GoesThrough,
         Admissible, Cost, ThreeSteps, EarlyEvent, LateEvent, Step;
    var a, b, target := BothPurchases(1000.0, 45.0, g);
    events := [EarlyEvent(45.0), LateEvent(45.0), g];
    SameEnd(a, b, g, 45.0);
    ThirdStep(b, target);
  }

  ghost predicate Capped(events: seq<Event>, exposure: real) {
    forall i :: 0 <= i < |events| ==>
      events[i].SignalEvent? && events[i].signal.config.policy.maximumExposurePct == exposure
  }

  lemma SignalsCapped(g: Event)
    requires g == SignalEvent(PlainSignal(Third(45.0)), 0)
    ensures Capped([EarlyEvent(45.0), LateEvent(45.0), g], 45.0)
  {}

  lemma ThirdStep(b: Book, target: real)
    requires Sane(PlainDesk(), PlainTerms(), b) && TwoLots(b, 1000.0, 45.0, target)
    ensures SoundInventories(b.inventories)
    ensures Cost(QueueOf(Step(PlainDesk(), b, SignalEvent(PlainSignal(Third(45.0)), 0)).inventories, "X")) > 450.0
  {
    hide Sane, TwoLots, OnSignal, Cost;
    ThirdPurchase(b, target);
  }
}
