/** The ladder's capital bound over a whole NSE replay: an entry is refused when it would take the cost of the
    inventory beyond the ladder's capital, and sales only lower that cost. */
module ReplayCapital {
  import opened Common
  import opened Fifo
  import opened Fees
  import opened LotPolicy
  import opened Replay
  import opened ReplayInventory
  import opened ReplayLedger
  import ReplayHistory
  import ReplayExpiry

  /** No lot of the ladder has more than this many units. */
  ghost predicate LotsUpTo(ladder: Ladder, most: real) {
    && (forall i :: 0 <= i < |ladder.high| ==> ladder.high[i] <= most)
    && (forall i :: 0 <= i < |ladder.low| ==> ladder.low[i] <= most)
  }

  /** An entry leaves the inventory within the capital, up to the rounding of its price. */
  lemma EntryWithin(
    s: Setup, bars: seq<Bar>, bar: nat, order: Order, first: Option<real>, queue: seq<Slice>,
    most: real, e2: real, e4: real)
    requires s.Valid() && s.market.NSE? && s.ladder.Some? && LotsUpTo(s.ladder.value, most)
    requires s.rounding.Within(e2, e4) && e4 >= 0.0
    requires var r := Enter(s, bars, bar, order, first, Cost(queue)); r.Ok? && r.value.Some?
    ensures var lot := Enter(s, bars, bar, order, first, Cost(queue)).value.value;
            Cost(queue + [SliceOf(s, lot)]) <= s.ladder.value.capital + e4 * most
  {
    hide Worth, Enter, Cost, LotsUpTo;
    var lot := Enter(s, bars, bar, order, first, Cost(queue)).value.value;
    var price := EntryFits(s, bars, bar, order, first, Cost(queue), most);
    assert Abs(s.rounding.four(price) - price) <= e4;
    WorthApart(lot.entryPrice, price, lot.quantity, e4);
    ScaleOrder(e4, lot.quantity, most);
    SumsAppend(queue, SliceOf(s, lot));
  }

  lemma EntryFits(s: Setup, bars: seq<Bar>, bar: nat, order: Order, first: Option<real>, capital: real, most: real)
    returns (price: real)
    requires s.Valid() && s.market.NSE? && s.ladder.Some? && LotsUpTo(s.ladder.value, most)
    requires var r := Enter(s, bars, bar, order, first, capital); r.Ok? && r.value.Some?
    ensures var lot := Enter(s, bars, bar, order, first, capital).value.value;
            && lot.entryPrice == s.rounding.four(price) && 0.0 < lot.quantity <= most
            && capital + Worth(price, lot.quantity) <= s.ladder.value.capital
  {
    hide Worth, EntryTarget, EntryStop;
    var q := EntryQuantity(s, order.entry, Or(first, s.fees.buy(bars[bar].open, 1.0).price)).value;
    price := s.fees.buy(bars[bar].open, q).price;
  }

  /** A sale never raises the cost of what is left. */
  lemma SaleLowersCost(queue: seq<Slice>, q: real)
    requires Sound(queue) && WholeUnits(queue) && Whole(q) && Sale(queue, q).Ok?
    ensures var left := Sale(queue, q).value.1;
            Sound(left) && WholeUnits(left) && Cost(left) <= Cost(queue)
  {
    hide Sale, Cost;
    SaleSucceeds(queue, q);
    SaleExact(queue, q);
    Conservation(queue, q, "");
    TakenCostNonNegative(queue, q);
  }

  lemma {:induction false} TakenCostNonNegative(s: seq<Slice>, q: real)
    requires Sound(s)
    ensures AllocatedCost(Taken(s, q)) >= 0.0
  {
    hide Share, PerUnit;
    if q > 0.0 && s != [] {
      var taken := Taken(s, q);
      if s[0].quantity <= q {
        TakenCostNonNegative(s[1..], q - s[0].quantity);
        assert taken[1..] == Taken(s[1..], q - s[0].quantity);
        ScaleOrder(s[0].price, 0.0, s[0].quantity);
      } else {
        assert taken[1..] == [];
        ScaleOrder(s[0].price, 0.0, q);
      }
    }
  }

  lemma {:induction false} ExitsLowerCost(s: Setup, bar: nat, b: Bar, start: Pass, lots: seq<Lot>, n: nat)
    requires s.market.NSE? && n <= |lots| && start.Passing? && PassSound(start) && WholeUnits(start.queue)
    requires WholeLots(lots)
    ensures var p := ExitLots(s, bar, b, start, lots, n);
            p.Passing? ==> WholeUnits(p.queue) && Cost(p.queue) <= Cost(start.queue)
  {
    hide Sale, ClosedRow, MaybeExit, Cost, WholeUnits;
    if n > 0 {
      ExitsLowerCost(s, bar, b, start, lots, n - 1);
      var p := ExitLots(s, bar, b, start, lots, n - 1);
      if p.Passing? && Sale(p.queue, lots[n - 1].quantity).Ok? { SaleLowersCost(p.queue, lots[n - 1].quantity); }
    }
  }

  ghost predicate Within(s: Setup, queue: seq<Slice>, most: real, e4: real)
    requires s.ladder.Some?
  {
    Cost(queue) <= s.ladder.value.capital + e4 * most
  }

  lemma FillWithin(s: Setup, bars: seq<Bar>, bar: nat, st: State, most: real, e2: real, e4: real)
    requires s.Valid() && s.market.NSE? && s.ladder.Some? && LotsUpTo(s.ladder.value, most)
    requires s.rounding.Within(e2, e4) && e4 >= 0.0 && Sound(st.queue) && Within(s, st.queue, most, e4)
    requires FillPending(s, bars, bar, st).Going?
    ensures Within(s, FillPending(s, bars, bar, st).st.queue, most, e4)
  {
    hide Enter, SliceOf, ValidSlice, Refresh, Cost, LotsUpTo;
    if st.pending.Some? {
      var r := Enter(s, bars, bar, st.pending.value, st.firstPrice, Cost(st.queue));
      if r.Ok? && r.value.Some? { EntryWithin(s, bars, bar, st.pending.value, st.firstPrice, st.queue, most, e2, e4); }
    }
  }

  lemma BarWithin(s: Setup, bars: seq<Bar>, k: nat, most: real, e2: real, e4: real)
    requires s.Valid() && s.market.NSE? && s.ladder.Some? && LotsUpTo(s.ladder.value, most)
    requires s.rounding.Within(e2, e4) && e4 >= 0.0 && k < |bars|
    requires Run(s, bars, k).Going? && Within(s, Run(s, bars, k).st.queue, most, e4) && Run(s, bars, k + 1).Going?
    ensures Within(s, Run(s, bars, k + 1).st.queue, most, e4)
  {
    hide FillPending, ExitBar, PlaceOrder, Cost, LotsUpTo, Sound, Within;
    var st := Run(s, bars, k).st;
    FillWithin(s, bars, k, st, most, e2, e4);
    var filled := FillPending(s, bars, k, st).st;
    FilledIsWhole(s, bars, k);
    ExitBarLowersCost(s, k, bars[k], filled);
    var exited := ExitBar(s, k, bars[k], filled).st;
    PlaceOrderKeeps(s, k, bars[k], k + 1 < |bars|, exited);
    LowerIsWithin(s, filled.queue, exited.queue, most, e4);
  }

  lemma StartsWithin(s: Setup, bars: seq<Bar>, most: real, e4: real)
    requires s.ladder.Some? && s.ladder.value.capital >= 0.0 && e4 >= 0.0 && most >= 0.0
    ensures Run(s, bars, 0).Going? && Within(s, Run(s, bars, 0).st.queue, most, e4)
  {
    hide Step;
    ScaleOrder(e4, 0.0, most);
    assert Cost([]) == 0.0;
  }

  /** Over every NSE replay with a ladder, at every bar: the inventory costs no more than the ladder's capital,
      up to the rounding of one lot's price. */
  lemma {:induction false} LadderCapitalHolds(s: Setup, bars: seq<Bar>, n: nat, most: real, e2: real, e4: real)
    requires s.Valid() && s.market.NSE? && s.ladder.Some? && LotsUpTo(s.ladder.value, most) && most >= 0.0
    requires s.rounding.Within(e2, e4) && e4 >= 0.0 && n <= |bars| && Run(s, bars, n).Going?
    ensures Cost(Run(s, bars, n).st.queue) <= s.ladder.value.capital + e4 * most
  {
    hide Run, Cost, LotsUpTo;
    if n == 0 {
      StartsWithin(s, bars, most, e4);
    } else {
      ReplayExpiry.WasGoing(s, bars, n - 1);
      LadderCapitalHolds(s, bars, n - 1, most, e2, e4);
      BarWithin(s, bars, n - 1, most, e2, e4);
    }
  }

  lemma LowerIsWithin(s: Setup, a: seq<Slice>, b: seq<Slice>, most: real, e4: real)
    requires s.ladder.Some? && Within(s, a, most, e4) && Cost(b) <= Cost(a)
    ensures Within(s, b, most, e4)
  {}

  lemma ExitBarLowersCost(s: Setup, bar: nat, b: Bar, st: State)
    requires s.market.NSE? && Sound(st.queue) && WholeUnits(st.queue) && WholeLots(st.lots)
    requires ExitBar(s, bar, b, st).Going?
    ensures Cost(ExitBar(s, bar, b, st).st.queue) <= Cost(st.queue)
  {
    hide ExitLots, Refresh, Cost, Sound;
    ExitsLowerCost(s, bar, b, PassOf(st), st.lots, |st.lots|);
  }

  lemma FilledIsWhole(s: Setup, bars: seq<Bar>, k: nat)
    requires s.Valid() && s.market.NSE? && k < |bars| && Run(s, bars, k).Going?
    requires FillPending(s, bars, k, Run(s, bars, k).st).Going?
    ensures var filled := FillPending(s, bars, k, Run(s, bars, k).st).st;
            WholeUnits(filled.queue) && WholeLots(filled.lots)
  {
    hide Settled, Enter, FillPending, SliceOf, Run, WholeLots, WholeUnits;
    NseReplayIsSettled(s, bars, k);
    var st := Run(s, bars, k).st;
    FillSettled(s, bars, k, st, ReplayLedger.Bought(s, bars, k));
    FillWhole(s, bars, k, st);
    var e := if st.pending.None? then None
             else Enter(s, bars, k, st.pending.value, st.firstPrice, Cost(st.queue)).value;
    var filled := FillPending(s, bars, k, st).st;
    var buys := ReplayLedger.Bought(s, bars, k) + (if e.Some? then [SliceOf(s, e.value)] else []);
    SettledSound(buys, ReplayHistory.Rows(filled), filled.queue);
  }
}
