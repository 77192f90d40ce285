/** When the replay orders and what it then buys: an order is placed on exactly the bars that call for one, and is
    filled at the next open with the size, stop, target and expiry the settings ask for. */
module ReplayOrders {
  import opened Common
  import opened Fifo
  import opened Fees
  import opened LotPolicy
  import opened Replay
  import opened ReplayInventory
  import opened ReplayHistory
  import ReplayExpiry

  /** The lots entered on the first n bars, in order. */
  ghost function EnteredLots(s: Setup, bars: seq<Bar>, n: nat): seq<Lot>
    requires n <= |bars|
  {
    if n == 0 then []
    else
      var e := EnteredAt(s, bars, n - 1);
      EnteredLots(s, bars, n - 1) + (if e.Some? then [e.value] else [])
  }

  ghost function LastOf(entered: seq<Lot>): Lot
    requires entered != []
  {
    entered[|entered| - 1]
  }

  /** How many lots the cycle that is open has had. */
  ghost function SoFar(lots: seq<Lot>, entered: seq<Lot>): nat {
    if lots == [] || entered == [] then 0 else LastOf(entered).number
  }

  /** The first lot of this cycle was entered at this price. */
  ghost predicate FirstPrice(entered: seq<Lot>, cycle: nat, price: real) {
    price > 0.0
    && exists i :: 0 <= i < |entered| && entered[i].cycle == cycle && entered[i].number == 1
                   && entered[i].entryPrice == price
  }

  /** The counters say what was entered. */
  ghost predicate Tracked(st: State, entered: seq<Lot>) {
    && (forall i :: 0 <= i < |st.lots| ==> st.lots[i].cycle == st.cycle)
    && st.entries == SoFar(st.lots, entered) + (if st.pending.Some? then 1 else 0)
    && (st.pending.Some? ==> st.pending.value.entry == SoFar(st.lots, entered) && st.pending.value.cycle == st.cycle)
    && (st.lots != [] ==>
          && entered != [] && LastOf(entered).cycle == st.cycle && st.lastPrice == Some(LastOf(entered).entryPrice)
          && st.firstPrice.Some? && FirstPrice(entered, st.cycle, st.firstPrice.value))
    && (st.lots == [] ==> st.firstPrice.None?)
  }

  // ---- the counters through a bar ------------------------------------------------------------------------

  lemma FirstStays(entered: seq<Lot>, lot: Lot, cycle: nat, price: real)
    requires FirstPrice(entered, cycle, price)
    ensures FirstPrice(entered + [lot], cycle, price)
  {
    var i :| 0 <= i < |entered| && entered[i].cycle == cycle && entered[i].number == 1
             && entered[i].entryPrice == price;
    assert (entered + [lot])[i] == entered[i];
  }

  lemma EntryTracked(st: State, entered: seq<Lot>, lot: Lot, after: State)
    requires Tracked(st, entered) && st.pending.Some? && lot.entryPrice > 0.0
    requires lot.cycle == st.pending.value.cycle && lot.number == st.pending.value.entry + 1
    requires |after.lots| == |st.lots| + 1
    requires forall i :: 0 <= i <= |st.lots| ==> after.lots[i].cycle == (st.lots + [lot])[i].cycle
    requires after.pending == None && after.cycle == st.cycle && after.entries == st.entries
    requires after.firstPrice == Some(Or(st.firstPrice, lot.entryPrice)) && after.lastPrice == Some(lot.entryPrice)
    ensures Tracked(after, entered + [lot])
  {
    var all := entered + [lot];
    assert LastOf(all) == lot;
    if st.lots == [] {
      assert all[|entered|] == lot;
    } else {
      FirstStays(entered, lot, st.cycle, st.firstPrice.value);
    }
  }

  lemma FillTracked(s: Setup, bars: seq<Bar>, n: nat, st: State, entered: seq<Lot>)
    requires Sound(st.queue) && Tracked(st, entered) && FillPending(s, bars, n, st).Going?
    ensures var e := if st.pending.None? then Ok(None)
                     else Enter(s, bars, n, st.pending.value, st.firstPrice, Cost(st.queue));
            && e.Ok?
            && FillPending(s, bars, n, st).st.pending.None?
            && (e.value.None? ==> FillPending(s, bars, n, st).st.lots == st.lots)
            && (e.value.None? ==> Tracked(FillPending(s, bars, n, st).st, entered))
            && (e.value.Some? ==> Tracked(FillPending(s, bars, n, st).st, entered + [e.value.value]))
  {
    if st.pending.Some? {
      var order := st.pending.value;
      EnterKey(s, bars, n, order, st.firstPrice, Cost(st.queue));
      hide Enter, Refresh;
      var e := Enter(s, bars, n, order, st.firstPrice, Cost(st.queue)).value;
      if e.Some? {
        RefreshKeys(s, st.lots + [e.value], st.queue + [SliceOf(s, e.value)]);
        EntryTracked(st, entered, e.value, FillPending(s, bars, n, st).st);
      }
    }
  }

  lemma ExitTracked(s: Setup, bar: nat, b: Bar, st: State, entered: seq<Lot>)
    requires Sound(st.queue) && Tracked(st, entered) && st.pending.None? && ExitBar(s, bar, b, st).Going?
    ensures Tracked(ExitBar(s, bar, b, st).st, entered) && ExitBar(s, bar, b, st).st.pending.None?
  {
    hide ExitLots, Refresh, Sound, FirstPrice;
    ExitLotsKeys(s, bar, b, PassOf(st), st.lots, |st.lots|, st.cycle);
    var p := ExitLots(s, bar, b, PassOf(st), st.lots, |st.lots|);
    if p.exited { RefreshKeys(s, p.kept, p.queue); }
    if st.lots == [] { ExitNone(s, bar, b, st); }
  }

  lemma PlaceTracked(s: Setup, bar: nat, b: Bar, more: bool, st: State, entered: seq<Lot>)
    requires Tracked(st, entered) && st.pending.None?
    ensures Tracked(PlaceOrder(s, bar, b, more, st), entered)
  {
    hide FirstPrice;
  }

  /** The state after the exits of bar n, from which the bar goes on to order. */
  ghost function ExitedAt(s: Setup, bars: seq<Bar>, n: nat): State
    requires n < |bars| && Run(s, bars, n + 1).Going?
  {
    ExitBar(s, n, bars[n], FillPending(s, bars, n, Run(s, bars, n).st).st).st
  }

  lemma BarSplits(s: Setup, bars: seq<Bar>, n: nat)
    requires n < |bars| && Run(s, bars, n + 1).Going?
    ensures Run(s, bars, n).Going? && FillPending(s, bars, n, Run(s, bars, n).st).Going?
    ensures var filled := FillPending(s, bars, n, Run(s, bars, n).st).st;
            && ExitBar(s, n, bars[n], filled).Going? && ExitedAt(s, bars, n) == ExitBar(s, n, bars[n], filled).st
    ensures Run(s, bars, n + 1).st == PlaceOrder(s, n, bars[n], n + 1 < |bars|, ExitedAt(s, bars, n))
    ensures !(n % CANCEL_CHECK_BARS == 0 && bars[n].cancel)
  {
    hide FillPending, ExitBar, PlaceOrder, Sound;
  }

  lemma {:induction false} ReplayIsTracked(s: Setup, bars: seq<Bar>, n: nat)
    requires n <= |bars| && Run(s, bars, n).Going?
    ensures Tracked(Run(s, bars, n).st, EnteredLots(s, bars, n))
    decreases n, 0
  {
    hide Run, ExitedAt, PlaceOrder;
    if n == 0 {
      NothingPending(s, bars);
      assert EnteredLots(s, bars, 0) == [];
    } else {
      hide Tracked, EnteredLots;
      ExitedIsTracked(s, bars, n - 1);
      BarSplits(s, bars, n - 1);
      PlaceTracked(s, n - 1, bars[n - 1], n < |bars|, ExitedAt(s, bars, n - 1), EnteredLots(s, bars, n));
    }
  }

  lemma {:induction false} ExitedIsTracked(s: Setup, bars: seq<Bar>, n: nat)
    requires n < |bars| && Run(s, bars, n + 1).Going?
    ensures Tracked(ExitedAt(s, bars, n), EnteredLots(s, bars, n + 1)) && ExitedAt(s, bars, n).pending.None?
    decreases n, 1
  {
    hide FillPending, ExitBar, PlaceOrder, Tracked, Enter, Sound;
    BarSplits(s, bars, n);
    ReplayIsTracked(s, bars, n);
    var st := Run(s, bars, n).st;
    FillTracked(s, bars, n, st, EnteredLots(s, bars, n));
    var filled := FillPending(s, bars, n, st).st;
    assert EnteredLots(s, bars, n) + [] == EnteredLots(s, bars, n);
    ExitTracked(s, n, bars[n], filled, EnteredLots(s, bars, n + 1));
  }

  // ---- orders -----------------------------------------------------------------------------------------------

  /** The bar calls for an order: it lies in the window, another bar follows, the cycle has room for a lot, and
      either the open ladder cycle has dipped far enough below its last entry, or the strategy says BUY and the
      account is flat or may add. */
  ghost predicate CallsForOrder(s: Setup, bars: seq<Bar>, n: nat, lots: seq<Lot>, entered: seq<Lot>)
    requires n < |bars| && (lots != [] ==> entered != [])
  {
    var b := bars[n];
    var count := if lots == [] then 0 else entered[|entered| - 1].number;
    && b.inWindow && n + 1 < |bars|
    && count < s.settings.maximumEntries && (s.ladder.Some? ==> count < |s.ladder.value.high|)
    && if s.ladder.Some? && lots != []
       then s.settings.allowAdditionalBuys
            && b.close <= entered[|entered| - 1].entryPrice * (1.0 - s.ladder.value.dipPct / 100.0)
       else b.buy && (lots == [] || s.settings.allowAdditionalBuys)
  }

  lemma PlacedExactlyWhen(s: Setup, bars: seq<Bar>, n: nat, st: State, entered: seq<Lot>)
    requires n < |bars| && Tracked(st, entered) && st.pending.None?
    ensures var r := PlaceOrder(s, n, bars[n], n + 1 < |bars|, st);
            && r.lots == st.lots && (r.lots != [] ==> entered != [])
            && (r.pending.Some? <==> CallsForOrder(s, bars, n, r.lots, entered))
            && (r.pending.Some? ==>
                  && r.pending.value.signalBar == n
                  && r.pending.value.entry == (if r.lots == [] then 0 else entered[|entered| - 1].number)
                  && r.pending.value.cycle == if r.lots == [] then st.cycle + 1 else r.lots[0].cycle)
  {
    hide FirstPrice;
  }

  /** On every bar of every replay: an order is pending afterwards exactly when the bar calls for one. It is the next
      lot of the open cycle, or the first of a cycle later than any before. */
  lemma OrderedExactlyWhen(s: Setup, bars: seq<Bar>, n: nat)
    requires n < |bars| && Run(s, bars, n + 1).Going?
    ensures var st, entered := Run(s, bars, n + 1).st, EnteredLots(s, bars, n + 1);
            && (st.lots != [] ==> entered != [])
            && (st.pending.Some? <==> CallsForOrder(s, bars, n, st.lots, entered))
            && (st.pending.Some? ==>
                  var order := st.pending.value;
                  && order.signalBar == n
                  && order.entry == (if st.lots == [] then 0 else entered[|entered| - 1].number)
                  && (st.lots != [] ==> order.cycle == st.lots[0].cycle)
                  && (st.lots == [] ==> forall lot :: lot in entered ==> lot.cycle < order.cycle))
  {
    hide Run, Tracked, ExitedAt, PlaceOrder, CallsForOrder;
    BarSplits(s, bars, n);
    ExitedIsTracked(s, bars, n);
    PlacedExactlyWhen(s, bars, n, ExitedAt(s, bars, n), EnteredLots(s, bars, n + 1));
    CyclesSoFar(s, bars, n);
  }

  lemma {:induction false} KeysOfEntered(s: Setup, bars: seq<Bar>, n: nat)
    requires n <= |bars|
    ensures var lots, keys := EnteredLots(s, bars, n), Entered(s, bars, n);
            |lots| == |keys| && forall i :: 0 <= i < |keys| ==> keys[i] == KeyOf(lots[i])
  {
    hide EnteredAt;
    if n > 0 { KeysOfEntered(s, bars, n - 1); }
  }

  /** The cycles used so far are not beyond the counter. */
  lemma CyclesSoFar(s: Setup, bars: seq<Bar>, n: nat)
    requires n < |bars| && Run(s, bars, n + 1).Going?
    ensures forall lot :: lot in EnteredLots(s, bars, n + 1) ==> lot.cycle <= ExitedAt(s, bars, n).cycle
  {
    hide Enter, FillPending, ExitBar, PlaceOrder, Numbered, Sound;
    BarSplits(s, bars, n);
    ReplayIsNumbered(s, bars, n);
    var st := Run(s, bars, n).st;
    FillPendingNumbered(s, bars, n, st, Entered(s, bars, n));
    ExitBarNumbered(s, n, bars[n], FillPending(s, bars, n, st).st, Entered(s, bars, n + 1));
    KeysOfEntered(s, bars, n + 1);
    NumberedCycles(s, ExitedAt(s, bars, n), EnteredLots(s, bars, n + 1), Entered(s, bars, n + 1));
  }

  lemma NumberedCycles(s: Setup, st: State, lots: seq<Lot>, keys: seq<Key>)
    requires Numbered(s, st, keys) && |lots| == |keys| && forall i :: 0 <= i < |keys| ==> keys[i] == KeyOf(lots[i])
    ensures forall lot :: lot in lots ==> lot.cycle <= st.cycle
  {
    hide Ascending;
    forall lot | lot in lots ensures lot.cycle <= st.cycle {
      var i :| 0 <= i < |lots| && lots[i] == lot;
      assert keys[i].0 == lot.cycle;
    }
  }

  // ---- entries ------------------------------------------------------------------------------------------------

  /** The size planned by the settings, before the minimum and the market's units apply. */
  ghost function PlannedBy(x: Settings, k: nat): real {
    Planned(x.initialQuantity, x.additionalPct, x.reduceEveryLot, k)
  }

  /** The k-th further lot of a cycle that began at this price has this size: on NSE the ladder's for the price band,
      or else as many whole shares as planned, and in any case the minimum. */
  ghost predicate Sized(s: Setup, k: nat, first: real, q: real) {
    var plan, least := PlannedBy(s.settings, k), s.settings.minimumQuantity;
    if s.market.NSE? && s.ladder.Some? then
      && k < |s.ladder.value.high| && k < |s.ladder.value.low|
      && q == if first >= s.ladder.value.threshold then s.ladder.value.high[k] else s.ladder.value.low[k]
    else if s.market.NSE? then Whole(q) && q >= least && plan < q + 1.0 && (q <= plan || q == least)
    else q == if s.round8(plan) > least then s.round8(plan) else least
  }

  lemma RawIsPlanned(x: Settings, k: nat)
    ensures x.Raw(k) == PlannedBy(x, k)
  {
    hide Planned, Power;
    PlannedIs(x.initialQuantity, x.additionalPct, x.reduceEveryLot, k);
  }

  lemma WholePart(plan: real, least: real)
    ensures var q := Max(least, plan.Floor as real);
            q >= least && plan < q + 1.0 && (q <= plan || q == least) && (Whole(least) ==> Whole(q))
  {
    WholeInt(plan.Floor, plan.Floor as real);
  }

  lemma LotSized(x: Settings, market: Market, k: nat, round8: real -> real)
    requires x.Valid(market)
    ensures var q, plan, least := x.LotQuantity(k, market.NSE?, round8), PlannedBy(x, k), x.minimumQuantity;
            && q > 0.0
            && (market.NSE? ==> Whole(q) && q >= least && plan < q + 1.0 && (q <= plan || q == least))
            && (market.CRYPTO? ==> q == if round8(plan) > least then round8(plan) else least)
  {
    hide PlannedBy, Settings.Raw, Whole;
    RawIsPlanned(x, k);
    WholePart(PlannedBy(x, k), x.minimumQuantity);
  }

  lemma EntrySized(s: Setup, k: nat, first: real)
    requires s.Valid()
    ensures EntryQuantity(s, k, first).Some? ==>
              Sized(s, k, first, EntryQuantity(s, k, first).value) && EntryQuantity(s, k, first).value > 0.0
  {
    hide PlannedBy, Settings.LotQuantity;
    LotSized(s.settings, s.market, k, s.round8);
  }

  /** The percentage a lot is to earn: the settings', else the ladder's, else the distance of the strategy's target
      from its signal price, else one percent. */
  ghost predicate Aims(s: Setup, signal: Bar, pct: real) {
    if s.settings.targetPct.Some? then pct == s.settings.targetPct.value
    else if s.ladder.Some? then pct == s.ladderTargetPct
    else if signal.signalPrice.Some? && signal.signalPrice.value > 0.0 && signal.signalTarget.Some?
    then pct * signal.signalPrice.value == (signal.signalTarget.value - signal.signalPrice.value) * 100.0
    else pct == 1.0
  }

  /** The price this percentage above another, or below it. */
  ghost function Above(price: real, pct: real): real { price + price * pct / 100.0 }

  /** The stop lies the settings' percentage below the entry, else at the strategy's distance below it. */
  ghost predicate Stops(s: Setup, signal: Bar, entryPrice: real, stop: Option<real>) {
    if s.settings.stopLossPct.Some?
    then stop == Some(s.rounding.four(Above(entryPrice, -s.settings.stopLossPct.value)))
    else if signal.signalPrice.Some? && signal.signalStop.Some?
            && 0.0 < signal.signalStop.value < signal.signalPrice.value
    then stop == Some(s.rounding.four(entryPrice * (signal.signalStop.value / signal.signalPrice.value)))
    else stop.None?
  }

  ghost predicate BoughtAt(s: Setup, open: real, lot: Lot) {
    var fill := s.fees.buy(open, lot.quantity);
    lot.entryPrice == s.rounding.four(fill.price) && lot.fees == fill.fees && lot.slippage == fill.slippage
  }

  /** The lot was bought at the open of the bar after its signal, with these terms; a CRYPTO lot keeps its first
      target. */
  ghost predicate Carries(s: Setup, bars: seq<Bar>, lot: Lot) {
    && lot.signalBar + 1 == lot.entryBar < |bars| && lot.number >= 1 && lot.quantity > 0.0
    && BoughtAt(s, bars[lot.entryBar].open, lot)
    && (s.market.CRYPTO? || s.ladder.None? ==> Sized(s, lot.number - 1, 0.0, lot.quantity))
    && Aims(s, bars[lot.signalBar], lot.targetPct) && Stops(s, bars[lot.signalBar], lot.entryPrice, lot.stop)
    && (s.market.CRYPTO? ==> lot.target == s.rounding.four(Above(lot.entryPrice, lot.targetPct)))
    && lot.expires == (if s.settings.maximumHoldingBars.Some?
                       then Some(lot.entryBar + s.settings.maximumHoldingBars.value * s.expiryMultiplier) else None)
  }

  lemma TargetAims(s: Setup, entryPrice: real, signal: Bar)
    requires EntryTarget(s, entryPrice, signal).Some?
    ensures var (target, pct) := EntryTarget(s, entryPrice, signal).value;
            Aims(s, signal, pct) && target == Above(entryPrice, pct)
  {
    hide Above, Scaled, PctAbove;
    if s.settings.targetPct.Some? {
      RaisedIs(entryPrice, s.settings.targetPct.value);
    } else if s.ladder.Some? {
      RaisedIs(entryPrice, s.ladderTargetPct);
    } else if signal.signalPrice.Some? && signal.signalPrice.value > 0.0 && signal.signalTarget.Some? {
      var factor := signal.signalTarget.value / signal.signalPrice.value;
      FactorIs(entryPrice, factor);
      assert factor * signal.signalPrice.value == signal.signalTarget.value;
    } else {
      FactorIs(entryPrice, 1.01);
    }
  }

  lemma RaisedIs(price: real, pct: real)
    ensures price * (1.0 + pct / 100.0) == Above(price, pct)
  {}

  lemma FactorIs(price: real, factor: real)
    requires price != 0.0
    ensures var pct := PctAbove(Scaled(price, factor), price);
            Scaled(price, factor) == Above(price, pct) && pct == (factor - 1.0) * 100.0
  {
    assert price * factor / price == factor;
  }

  lemma StopStops(s: Setup, entryPrice: real, signal: Bar)
    ensures var stop := EntryStop(s, entryPrice, signal);
            Stops(s, signal, entryPrice, if stop.Some? then Some(s.rounding.four(stop.value)) else None)
  {
    if s.settings.stopLossPct.Some? {
      var p := s.settings.stopLossPct.value;
      assert entryPrice * (1.0 - p / 100.0) == Above(entryPrice, -p);
    }
  }

  /** There is only one such size. */
  lemma SizedOnce(s: Setup, k: nat, first: real, a: real, b: real)
    requires s.Valid() && Sized(s, k, first, a) && Sized(s, k, first, b)
    ensures a == b
  {
    hide PlannedBy;
    if s.market.NSE? && s.ladder.None? {
      if a < b { OneApart(a, b); }
      if b < a { OneApart(b, a); }
    }
  }

  lemma OneApart(a: real, b: real)
    requires Whole(a) && Whole(b) && a < b
    ensures a + 1.0 <= b
  {
    assert a.Floor + 1 <= b.Floor;
  }

  /** The order fits the ladder's capital, if there is a ladder. */
  ghost predicate Fits(s: Setup, open: real, capital: real, q: real) {
    s.ladder.Some? ==> capital + s.fees.buy(open, q).price * q <= s.ladder.value.capital
  }

  /** `_enter`, part by part. */
  lemma EnterParts(s: Setup, bars: seq<Bar>, bar: nat, order: Order, first: Option<real>, capital: real)
    returns (q: real)
    requires bar < |bars| && order.signalBar + 1 == bar && Enter(s, bars, bar, order, first, capital).Ok?
    ensures EntryQuantity(s, order.entry, Or(first, s.fees.buy(bars[bar].open, 1.0).price)) == Some(q)
    ensures var e := Enter(s, bars, bar, order, first, capital).value;
            && (e.Some? <==> Fits(s, bars[bar].open, capital, q))
            && (e.Some? ==>
                  var lot, signal := e.value, bars[order.signalBar];
                  var target, stop := EntryTarget(s, lot.entryPrice, signal), EntryStop(s, lot.entryPrice, signal);
                  && lot.quantity == q && BoughtAt(s, bars[bar].open, lot) && target.Some?
                  && lot.number == order.entry + 1 && lot.signalBar == order.signalBar && lot.entryBar == bar
                  && lot.lowest == lot.highest == s.fees.buy(bars[bar].open, q).price
                  && lot.target == s.rounding.four(target.value.0) && lot.targetPct == target.value.1
                  && lot.stop == (if stop.Some? then Some(s.rounding.four(stop.value)) else None)
                  && lot.expires == (if s.settings.maximumHoldingBars.Some?
                                     then Some(bar + s.settings.maximumHoldingBars.value * s.expiryMultiplier)
                                     else None))
  {
    hide EntryQuantity, EntryTarget, EntryStop;
    q := EntryQuantity(s, order.entry, Or(first, s.fees.buy(bars[bar].open, 1.0).price)).value;
  }

  lemma SameSize(s: Setup, k: nat, a: real, b: real)
    requires s.market.CRYPTO? || s.ladder.None?
    ensures EntryQuantity(s, k, a) == EntryQuantity(s, k, b)
  {
    hide Settings.LotQuantity;
  }

  /** What `_enter` makes of an order of the bar before: a lot of the one size that carries its terms, or nothing
      exactly when that size would exceed the ladder's capital. */
  lemma EnterCarries(s: Setup, bars: seq<Bar>, bar: nat, order: Order, first: Option<real>, capital: real)
    returns (q: real)
    requires s.Valid() && bar < |bars| && order.signalBar + 1 == bar && Enter(s, bars, bar, order, first, capital).Ok?
    ensures Sized(s, order.entry, Or(first, s.fees.buy(bars[bar].open, 1.0).price), q)
    ensures var e := Enter(s, bars, bar, order, first, capital).value;
            && (e.Some? <==> Fits(s, bars[bar].open, capital, q))
            && (e.Some? ==>
                  && e.value.quantity == q && Carries(s, bars, e.value) && e.value.entryBar == bar
                  && e.value.number == order.entry + 1
                  && e.value.lowest == e.value.highest == s.fees.buy(bars[bar].open, q).price)
  {
    hide Enter, EntryQuantity, Sized, Aims, Stops, EntryTarget, EntryStop, Fits, BoughtAt, Setup.Valid, Above;
    q := EnterParts(s, bars, bar, order, first, capital);
    EntrySized(s, order.entry, Or(first, s.fees.buy(bars[bar].open, 1.0).price));
    var e := Enter(s, bars, bar, order, first, capital).value;
    if e.Some? {
      var lot := e.value;
      TargetAims(s, lot.entryPrice, bars[order.signalBar]);
      StopStops(s, lot.entryPrice, bars[order.signalBar]);
      if s.market.CRYPTO? || s.ladder.None? {
        SameSize(s, order.entry, Or(first, s.fees.buy(bars[bar].open, 1.0).price), 0.0);
        EntrySized(s, order.entry, 0.0);
      }
    }
  }

  /** On every bar of every replay: the order of the bar before, if there is one, becomes a lot that carries its terms,
      unless the ladder's capital does not allow it. Its size is the one for its place in the cycle, and the price
      band is chosen by what the first lot of the cycle cost. */
  lemma EnteredExactlyWhen(s: Setup, bars: seq<Bar>, n: nat) returns (first: real, q: real)
    requires s.Valid() && n < |bars| && Run(s, bars, n + 1).Going?
    ensures Run(s, bars, n).Going?
    ensures var st, e := Run(s, bars, n).st, EnteredAt(s, bars, n);
            && (e.Some? <==> st.pending.Some? && Fits(s, bars[n].open, Cost(st.queue), q))
            && (st.pending.Some? ==>
                  && st.pending.value.signalBar + 1 == n && Sized(s, st.pending.value.entry, first, q)
                  && if st.lots == [] then first == s.fees.buy(bars[n].open, 1.0).price
                     else FirstPrice(EnteredLots(s, bars, n), st.lots[0].cycle, first))
            && (e.Some? ==>
                  && Carries(s, bars, e.value) && e.value.entryBar == n && e.value.quantity == q
                  && e.value.number == st.pending.value.entry + 1
                  && e.value.lowest == e.value.highest == s.fees.buy(bars[n].open, q).price)
  {
    hide Run, FillPending, Carries, Fits, Sized, Enter, EnteredLots, EnteredAt, Setup.Valid;
    PendingFills(s, bars, n);
    ReplayIsTracked(s, bars, n);
    var st := Run(s, bars, n).st;
    first, q := 0.0, 0.0;
    if st.pending.Some? {
      first := Or(st.firstPrice, s.fees.buy(bars[n].open, 1.0).price);
      q := EnterCarries(s, bars, n, st.pending.value, st.firstPrice, Cost(st.queue));
    }
  }

  /** What a bar that goes through does with the pending order. */
  lemma PendingFills(s: Setup, bars: seq<Bar>, n: nat)
    requires n < |bars| && Run(s, bars, n + 1).Going?
    ensures Run(s, bars, n).Going?
    ensures var st := Run(s, bars, n).st;
            && (st.pending.None? ==> EnteredAt(s, bars, n).None?)
            && (st.pending.Some? ==>
                  var r := Enter(s, bars, n, st.pending.value, st.firstPrice, Cost(st.queue));
                  st.pending.value.signalBar + 1 == n && r.Ok? && EnteredAt(s, bars, n) == r.value)
  {
    hide Run, Enter, FillPending, CallsForOrder, Sound;
    BarSplits(s, bars, n);
    FillEnters(s, bars, n, Run(s, bars, n).st);
    if n == 0 { NothingPending(s, bars); } else { OrderedExactlyWhen(s, bars, n - 1); }
  }

  lemma FillEnters(s: Setup, bars: seq<Bar>, n: nat, st: State)
    requires Sound(st.queue) && st.pending.Some? ==> FillPending(s, bars, n, st).Going?
    ensures Sound(st.queue) && st.pending.Some? ==>
              Enter(s, bars, n, st.pending.value, st.firstPrice, Cost(st.queue)).Ok?
  {
    hide Enter, Refresh, SliceOf, ValidSlice;
  }

  lemma NothingPending(s: Setup, bars: seq<Bar>)
    ensures Run(s, bars, 0) == Going(Initial)
  {
    hide Step;
  }

  /** A replay that is still going is stopped as cancelled on exactly the bars on which it looks, every 500th, and finds
      that it is to stop; what it has written by then stays. */
  lemma CancelledExactlyWhen(s: Setup, bars: seq<Bar>, n: nat)
    requires n < |bars| && Run(s, bars, n).Going?
    ensures var r := Run(s, bars, n + 1);
            && (r.Stopped? && r.error == Cancelled <==> n % 500 == 0 && bars[n].cancel)
            && (r.Stopped? && r.error == Cancelled ==> r.written == Run(s, bars, n).st.written)
  {
    hide FillPending, ExitBar, PlaceOrder, Sound;
    var st := Run(s, bars, n).st;
    var filled := FillPending(s, bars, n, st);
    if filled.Stopped? { FillNotCancelled(s, bars, n, st); }
    if filled.Going? && ExitBar(s, n, bars[n], filled.st).Stopped? { ExitNotCancelled(s, n, bars[n], filled.st); }
  }

  lemma FillNotCancelled(s: Setup, bars: seq<Bar>, n: nat, st: State)
    requires Sound(st.queue) && FillPending(s, bars, n, st).Stopped?
    ensures FillPending(s, bars, n, st).error != Cancelled
  {
    hide Refresh, EntryQuantity, EntryTarget, EntryStop, ValidSlice, SliceOf;
    if st.pending.Some? {
      var e := Enter(s, bars, n, st.pending.value, st.firstPrice, Cost(st.queue));
      if e.Ok? && e.value.Some? && ValidSlice(SliceOf(s, e.value.value)) {
        RefreshErrors(s, st.lots + [e.value.value], st.queue + [SliceOf(s, e.value.value)]);
      }
    }
  }

  lemma {:induction false} RefreshErrors(s: Setup, lots: seq<Lot>, queue: seq<Slice>)
    requires Sound(queue) && Refresh(s, lots, queue).Err?
    ensures var e := Refresh(s, lots, queue).error; e.Ledger? || e.Target?
  {
    if lots != [] && Refresh(s, lots[..|lots| - 1], queue).Err? { RefreshErrors(s, lots[..|lots| - 1], queue); }
  }

  lemma {:induction false} PassErrors(s: Setup, bar: nat, b: Bar, start: Pass, lots: seq<Lot>, n: nat)
    requires n <= |lots| && PassSound(start) && start.Passing?
    ensures var r := ExitLots(s, bar, b, start, lots, n); r.Raised? ==> r.error.Ledger?
  {
    hide ClosedRow, MaybeExit, Sale;
    if n > 0 { PassErrors(s, bar, b, start, lots, n - 1); }
  }

  lemma ExitNotCancelled(s: Setup, bar: nat, b: Bar, st: State)
    requires Sound(st.queue) && ExitBar(s, bar, b, st).Stopped?
    ensures ExitBar(s, bar, b, st).error != Cancelled
  {
    hide ExitLots, Refresh, Sound;
    PassErrors(s, bar, b, PassOf(st), st.lots, |st.lots|);
    var p := ExitLots(s, bar, b, PassOf(st), st.lots, |st.lots|);
    if p.Passing? && p.exited { RefreshErrors(s, p.kept, p.queue); }
  }
}
