/** Expiry in the replay: lots are listed in order of entry, all with the same holding time, and at most one enters
    per bar. So a lot that expires on a bar is the first in the list, no earlier exit of the bar can suppress
    it, and no lot outlives its expiry. */
module ReplayExpiry {
  import opened Common
  import opened Fifo
  import opened Fees
  import opened LotPolicy
  import opened Replay
  import opened ReplayInventory

  /** The bar on which a lot entered on this bar expires. */
  function Deadline(s: Setup, entryBar: nat): Option<nat> {
    if s.settings.maximumHoldingBars.Some?
    then Some(entryBar + s.settings.maximumHoldingBars.value * s.expiryMultiplier) else None
  }

  lemma DeadlineIsLater(s: Setup, a: nat, b: nat)
    requires s.Valid() && a < b && s.settings.maximumHoldingBars.Some?
    ensures a < Deadline(s, a).value < Deadline(s, b).value
  {
    var h, m := s.settings.maximumHoldingBars.value, s.expiryMultiplier;
    assert h * m >= 1 by { assert h >= 1 && m >= 1; assert (h - 1) * m >= 0; assert h * m == (h - 1) * m + m; }
  }

  /** In order of entry, each entered before this bar and with its deadline on it or later. */
  ghost predicate Aging(s: Setup, lots: seq<Lot>, before: nat, bar: nat) {
    && (forall i, j :: 0 <= i < j < |lots| ==> lots[i].entryBar < lots[j].entryBar)
    && (forall i :: 0 <= i < |lots| ==> lots[i].entryBar < before && lots[i].expires == Deadline(s, lots[i].entryBar))
    && (forall i :: 0 <= i < |lots| && lots[i].expires.Some? ==> lots[i].expires.value >= bar)
  }

  /** A lot whose deadline is this bar is the first. */
  lemma DueIsFirst(s: Setup, lots: seq<Lot>, before: nat, bar: nat, k: nat)
    requires s.Valid() && Aging(s, lots, before, bar) && k < |lots| && lots[k].expires.Some?
    requires bar >= lots[k].expires.value
    ensures k == 0 && bar == lots[k].expires.value && lots[k].entryBar < bar
  {
    hide Deadline;
    DeadlineIsLater(s, lots[k].entryBar, lots[k].entryBar + 1) by { SomeDeadline(s, lots[k].entryBar); }
    if k > 0 {
      assert lots[0].entryBar < lots[k].entryBar;
      DeadlineIsLater(s, lots[0].entryBar, lots[k].entryBar) by { SomeDeadline(s, lots[k].entryBar); }
      SameKind(s, lots[0].entryBar, lots[k].entryBar);
    }
  }

  lemma SomeDeadline(s: Setup, bar: nat)
    requires Deadline(s, bar).Some?
    ensures s.settings.maximumHoldingBars.Some?
  {}

  lemma SameKind(s: Setup, a: nat, b: nat)
    ensures Deadline(s, a).Some? <==> Deadline(s, b).Some?
  {}

  // ---- a bar ---------------------------------------------------------------------------------------------

  lemma EnterDeadline(s: Setup, bars: seq<Bar>, bar: nat, order: Order, first: Option<real>, capital: real)
    ensures var r := Enter(s, bars, bar, order, first, capital);
            r.Ok? && r.value.Some? ==> r.value.value.entryBar == bar && r.value.value.expires == Deadline(s, bar)
  {
    hide EntryQuantity, EntryTarget, EntryStop;
  }

  lemma AgingSame(s: Setup, a: seq<Lot>, b: seq<Lot>, before: nat, bar: nat)
    requires Aging(s, a, before, bar) && |a| == |b|
    requires forall i :: 0 <= i < |a| ==> b[i].entryBar == a[i].entryBar && b[i].expires == a[i].expires
    ensures Aging(s, b, before, bar)
  {
    hide Deadline;
  }

  lemma FillAging(s: Setup, bars: seq<Bar>, bar: nat, st: State)
    requires s.Valid() && Sound(st.queue) && Aging(s, st.lots, bar, bar) && FillPending(s, bars, bar, st).Going?
    ensures Aging(s, FillPending(s, bars, bar, st).st.lots, bar + 1, bar)
  {
    hide Deadline, Enter, SliceOf, ValidSlice, Refresh, FreshTarget;
    var r := FillPending(s, bars, bar, st).st;
    if st.pending.Some? {
      var e := Enter(s, bars, bar, st.pending.value, st.firstPrice, Cost(st.queue)).value;
      EnterDeadline(s, bars, bar, st.pending.value, st.firstPrice, Cost(st.queue));
      if e.Some? {
        var lots := st.lots + [e.value];
        assert Aging(s, lots, bar + 1, bar) by { EntryAges(s, st.lots, e.value, bar); }
        RefreshKeeps(s, lots, st.queue + [SliceOf(s, e.value)]);
        AgingSame(s, lots, r.lots, bar + 1, bar);
      }
    }
  }

  lemma EntryAges(s: Setup, lots: seq<Lot>, lot: Lot, bar: nat)
    requires s.Valid() && Aging(s, lots, bar, bar) && lot.entryBar == bar && lot.expires == Deadline(s, bar)
    ensures Aging(s, lots + [lot], bar + 1, bar)
  {
    if lot.expires.Some? { DeadlineIsLater(s, bar, bar + 1); }
    hide Deadline;
    var all := lots + [lot];
    assert forall i :: 0 <= i < |lots| ==> all[i] == lots[i];
  }

  /** The lots a pass has kept: aging for the next bar, all entered before the next lot to come. */
  ghost predicate KeptAging(s: Setup, kept: seq<Lot>, lots: seq<Lot>, n: nat, bar: nat)
    requires n <= |lots|
  {
    Aging(s, kept, if n < |lots| then lots[n].entryBar else bar + 1, bar + 1)
  }

  lemma KeepAges(s: Setup, kept: seq<Lot>, lots: seq<Lot>, n: nat, bar: nat, lot: Lot)
    requires n < |lots| && KeptAging(s, kept, lots, n, bar) && Aging(s, lots, bar + 1, bar)
    requires lot.entryBar == lots[n].entryBar && lot.expires == lots[n].expires
    requires lot.expires.Some? ==> lot.expires.value != bar
    ensures KeptAging(s, kept + [lot], lots, n + 1, bar)
  {
    hide Deadline;
    var all := kept + [lot];
    assert forall i :: 0 <= i < |kept| ==> all[i] == kept[i];
  }

  lemma DropAges(s: Setup, kept: seq<Lot>, lots: seq<Lot>, n: nat, bar: nat)
    requires n < |lots| && KeptAging(s, kept, lots, n, bar) && Aging(s, lots, bar + 1, bar)
    ensures KeptAging(s, kept, lots, n + 1, bar)
  {
    hide Deadline;
  }

  /** One lot of the pass: closed, or kept with time left. */
  lemma ExitOneKeeps(s: Setup, bar: nat, b: Bar, p: Pass, lot: Lot)
    requires PassSound(p) && p.Passing? && ExitOne(s, bar, b, p, lot).Passing?
    ensures var r := ExitOne(s, bar, b, p, lot);
            var watched := Watch(lot, bar, b);
            && (r.kept == p.kept || r.kept == p.kept + [watched])
            && (!p.exited && lot.entryBar < bar && lot.expires.Some? && bar >= lot.expires.value ==> r.kept == p.kept)
            && watched.entryBar == lot.entryBar && watched.expires == lot.expires
  {
    hide Sale, ClosedRow;
  }

  lemma {:induction false} PassAging(s: Setup, bar: nat, b: Bar, st: State, n: nat)
    requires s.Valid() && Sound(st.queue) && Aging(s, st.lots, bar + 1, bar) && n <= |st.lots|
    ensures var p := ExitLots(s, bar, b, PassOf(st), st.lots, n);
            p.Passing? ==> KeptAging(s, p.kept, st.lots, n, bar) && (n == 0 ==> !p.exited)
  {
    hide Deadline, ExitOne, Aging, KeptAging, Sound;
    if n == 0 {
      NothingKept(s, st.lots, bar);
    } else {
      PassAging(s, bar, b, st, n - 1);
      var p, lot := ExitLots(s, bar, b, PassOf(st), st.lots, n - 1), st.lots[n - 1];
      var r := ExitOne(s, bar, b, p, lot);
      if r.Passing? {
        assert p.Passing? by { PassingBefore(s, bar, b, p, lot); }
        ExitOneKeeps(s, bar, b, p, lot);
        var watched := Watch(lot, bar, b);
        if r.kept == p.kept {
          DropAges(s, p.kept, st.lots, n - 1, bar);
        } else {
          if lot.expires.Some? && bar >= lot.expires.value { DueIsFirst(s, st.lots, bar + 1, bar, n - 1); }
          KeepAges(s, p.kept, st.lots, n - 1, bar, watched);
        }
      }
    }
  }

  lemma PassingBefore(s: Setup, bar: nat, b: Bar, p: Pass, lot: Lot)
    requires PassSound(p) && ExitOne(s, bar, b, p, lot).Passing?
    ensures p.Passing?
  {}

  lemma NothingKept(s: Setup, lots: seq<Lot>, bar: nat)
    ensures KeptAging(s, [], lots, 0, bar)
  {}

  lemma ExitBarAging(s: Setup, bar: nat, b: Bar, st: State)
    requires s.Valid() && Sound(st.queue) && Aging(s, st.lots, bar + 1, bar) && ExitBar(s, bar, b, st).Going?
    ensures Aging(s, ExitBar(s, bar, b, st).st.lots, bar + 1, bar + 1)
  {
    hide Deadline, ExitLots, Refresh, Sound, Aging, FreshTarget;
    PassAging(s, bar, b, st, |st.lots|);
    var p := ExitLots(s, bar, b, PassOf(st), st.lots, |st.lots|);
    var lots := ExitBar(s, bar, b, st).st.lots;
    if p.exited {
      RefreshKeeps(s, p.kept, p.queue);
      AgingSame(s, p.kept, lots, bar + 1, bar + 1);
    }
  }

  // ---- every replay ----------------------------------------------------------------------------------------

  lemma BarAging(s: Setup, bars: seq<Bar>, k: nat)
    requires s.Valid() && k < |bars| && Run(s, bars, k).Going? && Run(s, bars, k + 1).Going?
    requires Aging(s, Run(s, bars, k).st.lots, k, k)
    ensures Aging(s, Run(s, bars, k + 1).st.lots, k + 1, k + 1)
  {
    hide FillPending, ExitBar, PlaceOrder, Aging, Sound;
    var st := Run(s, bars, k).st;
    FillAging(s, bars, k, st);
    var filled := FillPending(s, bars, k, st).st;
    ExitBarAging(s, k, bars[k], filled);
    PlaceOrderKeeps(s, k, bars[k], k + 1 < |bars|, ExitBar(s, k, bars[k], filled).st);
  }

  lemma StartsAging(s: Setup, bars: seq<Bar>)
    ensures Run(s, bars, 0).Going? && Aging(s, Run(s, bars, 0).st.lots, 0, 0)
  {
    hide Step;
  }

  lemma WasGoing(s: Setup, bars: seq<Bar>, k: nat)
    requires k < |bars| && Run(s, bars, k + 1).Going?
    ensures Run(s, bars, k).Going?
  {
    hide FillPending, ExitBar, PlaceOrder;
  }

  /** No lot of any replay outlives its expiry: after n bars, what is open was entered in list order, one lot a
      bar, and expires on bar n or later. */
  lemma {:induction false} NoneOutlives(s: Setup, bars: seq<Bar>, n: nat)
    requires s.Valid() && n <= |bars| && Run(s, bars, n).Going?
    ensures Aging(s, Run(s, bars, n).st.lots, n, n)
  {
    hide Run, Aging;
    if n == 0 {
      StartsAging(s, bars);
    } else {
      WasGoing(s, bars, n - 1);
      NoneOutlives(s, bars, n - 1);
      BarAging(s, bars, n - 1);
    }
  }

  /** The lots the exits of bar n look at: a lot that has expired by then is the first of them. */
  lemma ExpiredIsFirst(s: Setup, bars: seq<Bar>, n: nat, k: nat)
    requires s.Valid() && n < |bars| && Run(s, bars, n).Going?
    requires FillPending(s, bars, n, Run(s, bars, n).st).Going?
    requires var lots := FillPending(s, bars, n, Run(s, bars, n).st).st.lots;
             k < |lots| && lots[k].expires.Some? && n >= lots[k].expires.value
    ensures k == 0
  {
    hide Run, FillPending, Aging;
    NoneOutlives(s, bars, n);
    FillAging(s, bars, n, Run(s, bars, n).st);
    DueIsFirst(s, FillPending(s, bars, n, Run(s, bars, n).st).st.lots, n + 1, n, k);
  }
}
