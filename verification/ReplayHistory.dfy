/** Whole-run properties of the replay for every market, fee model and bar sequence: no look-ahead,
    and every entered lot reported in exactly one row under its own identifier. */
module ReplayHistory {
  import opened Common
  import opened Fifo
  import opened LotPolicy
  import opened LotNames
  import opened Replay

  // ---- no look-ahead --------------------------------------------------------------------

  /** Rows closed so far, flushed or not. */
  function Rows(st: State): seq<Row> { st.written + st.batch }

  /** Two replays agree on everything but the order they would place next. */
  ghost predicate SameBook(a: Progress, b: Progress) {
    || (a.Stopped? && b == a)
    || (a.Going? && b.Going? && a.st.lots == b.st.lots && a.st.queue == b.st.queue
        && a.st.batch == b.st.batch && a.st.written == b.st.written)
  }

  lemma StepSame(s: Setup, a: seq<Bar>, b: seq<Bar>, n: nat, p: Progress)
    requires n < |a| && n < |b| && a[..n + 1] == b[..n + 1] && ProgressSound(p)
    requires p.Going? && p.st.pending.Some? ==> p.st.pending.value.signalBar < n
    ensures SameBook(Step(s, a, n, p), Step(s, b, n, p))
    ensures (n + 1 < |a| <==> n + 1 < |b|) ==> Step(s, a, n, p) == Step(s, b, n, p)
  {
    hide ExitBar, EntryQuantity, EntryTarget, EntryStop, Refresh, Sound;
    assert a[n] == a[..n + 1][n] == b[n];
    if p.Going? && p.st.pending.Some? {
      var k := p.st.pending.value.signalBar;
      assert a[k] == a[..n + 1][k] == b[k];
      assert Enter(s, a, n, p.st.pending.value, p.st.firstPrice, Cost(p.st.queue))
          == Enter(s, b, n, p.st.pending.value, p.st.firstPrice, Cost(p.st.queue));
    }
    hide Enter;
    if p.Going? { assert FillPending(s, a, n, p.st) == FillPending(s, b, n, p.st); }
  }

  /** A pending order was placed on an earlier bar. */
  lemma PendingIsEarlier(s: Setup, bars: seq<Bar>, n: nat)
    requires n <= |bars|
    ensures var p := Run(s, bars, n); p.Going? && p.st.pending.Some? ==> p.st.pending.value.signalBar < n
  {
    hide Enter, Refresh, ExitLots, Sound;
    if n > 0 {
      var p := Run(s, bars, n - 1);
      if p.Going? {
        var filled := FillPending(s, bars, n - 1, p.st);
        assert filled.Going? ==> filled.st.pending.None?;
      }
    }
  }

  lemma {:induction false} RunSame(s: Setup, a: seq<Bar>, b: seq<Bar>, n: nat)
    requires n < |a| && n < |b| && a[..n] == b[..n]
    ensures Run(s, a, n) == Run(s, b, n)
  {
    hide Step, SameBook;
    if n > 0 {
      assert a[..n - 1] == a[..n][..n - 1] == b[..n - 1];
      RunSame(s, a, b, n - 1);
      PendingIsEarlier(s, a, n - 1);
      StepSame(s, a, b, n - 1, Run(s, a, n - 1));
    }
  }

  /** No look-ahead: replays agreeing on the first n bars have closed the same rows and hold the
      same lots and inventory after them, or aborted alike, whatever follows, also when one of
      the series ends there. */
  lemma {:induction false} NoLookAhead(s: Setup, a: seq<Bar>, b: seq<Bar>, n: nat)
    requires n <= |a| && n <= |b| && a[..n] == b[..n]
    ensures SameBook(Run(s, a, n), Run(s, b, n))
  {
    hide Step;
    if n > 0 {
      hide SameBook;
      assert a[..n - 1] == a[..n][..n - 1] == b[..n - 1];
      RunSame(s, a, b, n - 1);
      PendingIsEarlier(s, a, n - 1);
      StepSame(s, a, b, n - 1, Run(s, a, n - 1));
    }
  }

  // ---- later bars only append rows of their own ---------------------------------------------

  ghost predicate ClosedFrom(rows: seq<Row>, bar: nat) {
    forall i :: 0 <= i < |rows| ==> rows[i].exit.Some? && rows[i].exit.value.bar >= bar
  }

  ghost predicate ClosedBefore(rows: seq<Row>, bar: nat) {
    forall i :: 0 <= i < |rows| ==> rows[i].exit.Some? && rows[i].exit.value.bar < bar
  }

  lemma {:induction false} ExitLotsRows(s: Setup, bar: nat, b: Bar, start: Pass, lots: seq<Lot>, n: nat)
    requires n <= |lots| && PassSound(start) && start.Passing?
    ensures var r := ExitLots(s, bar, b, start, lots, n);
            r.Passing? ==>
              var was, now := start.written + start.batch, r.written + r.batch;
              was <= now && ClosedFrom(now[|was|..], bar) && ClosedBefore(now[|was|..], bar + 1)
  {
    hide Sale, ClosedRow;
    if n > 0 {
      ExitLotsRows(s, bar, b, start, lots, n - 1);
      var p := ExitLots(s, bar, b, start, lots, n - 1);
      if p.Passing? { ExitOneRows(s, bar, b, p, lots[n - 1]); }
    }
  }

  lemma ExitOneRows(s: Setup, bar: nat, b: Bar, p: Pass, before: Lot)
    requires PassSound(p) && p.Passing?
    ensures var r := ExitOne(s, bar, b, p, before);
            var lot := Watch(before, bar, b);
            r.Passing? ==>
              || (r.kept == p.kept + [lot] && r.written == p.written && r.batch == p.batch)
              || (r.kept == p.kept && exists row: Row ::
                    row.lot == lot && row.exit.Some? && row.exit.value.bar == bar
                    && r.written + r.batch == p.written + p.batch + [row])
  {
    var r := ExitOne(s, bar, b, p, before);
    var lot := Watch(before, bar, b);
    var exit := Decide(lot, bar, b, p.exited);
    if r.Passing? && exit.Some? {
      ClosedRowFields(s, lot, exit.value, if s.market.NSE? then Some(Sale(p.queue, lot.quantity).value.0) else None);
      hide ClosedRow;
      if s.market.CRYPTO? {
        EmitAppends(p, ClosedRow(s, lot, exit.value, None), s.settings.batchSize);
      } else {
        var sale := Sale(p.queue, lot.quantity).value;
        EmitAppends(p.(queue := sale.1, exited := true), ClosedRow(s, lot, exit.value, Some(sale.0)),
          s.settings.batchSize);
      }
    }
  }

  lemma ClosedRowFields(s: Setup, lot: Lot, exit: Exit, fifo: Option<Match>)
    ensures var r := ClosedRow(s, lot, exit, fifo); r.lot == lot && r.exit == Some(exit) && r.fifo == fifo
  {}

  lemma StepRows(s: Setup, bars: seq<Bar>, n: nat, p: Progress)
    requires n < |bars| && ProgressSound(p) && p.Going? && Step(s, bars, n, p).Going?
    ensures var was, now := Rows(p.st), Rows(Step(s, bars, n, p).st);
            was <= now && ClosedFrom(now[|was|..], n) && ClosedBefore(now[|was|..], n + 1)
  {
    hide Enter, Refresh, ExitLots, Sound;
    var filled := FillPending(s, bars, n, p.st).st;
    assert Rows(filled) == Rows(p.st);
    ExitLotsRows(s, n, bars[n], PassOf(filled), filled.lots, |filled.lots|);
  }

  lemma StepWasGoing(s: Setup, bars: seq<Bar>, n: nat, p: Progress)
    requires n < |bars| && ProgressSound(p)
    ensures Step(s, bars, n, p).Going? ==> p.Going?
  {}

  lemma GrowTwice(a: seq<Row>, b: seq<Row>, c: seq<Row>, n: nat, m: nat)
    requires a <= b <= c && n <= m && ClosedFrom(b[|a|..], n) && ClosedFrom(c[|b|..], m)
    ensures ClosedFrom(c[|a|..], n)
  {
    var late := c[|a|..];
    forall i | 0 <= i < |late| ensures late[i].exit.Some? && late[i].exit.value.bar >= n {
      if |a| + i < |b| { assert late[i] == b[|a|..][i]; } else { assert late[i] == c[|b|..][|a| + i - |b|]; }
    }
  }

  lemma BeforeExtends(a: seq<Row>, b: seq<Row>, n: nat)
    requires a <= b && ClosedBefore(a, n) && ClosedBefore(b[|a|..], n + 1)
    ensures ClosedBefore(b, n + 1) && ClosedFrom(b[|b|..], n + 1)
  {
    forall i | 0 <= i < |b| ensures b[i].exit.Some? && b[i].exit.value.bar < n + 1 {
      if i < |a| { assert b[i] == a[i]; } else { assert b[i] == b[|a|..][i - |a|]; }
    }
  }

  lemma NoRowsYet(s: Setup, bars: seq<Bar>)
    ensures Rows(Run(s, bars, 0).st) == [] && ClosedBefore([], 0) && ClosedFrom([], 0)
  {}

  /** The rows after n bars are a prefix of the rows after any later bar, and whatever follows
      was closed at bar n or later: with NoLookAhead, two completed replays that agree on n bars
      report the same closes below n. */
  lemma {:induction false} RowsOnlyGrow(s: Setup, bars: seq<Bar>, n: nat, m: nat)
    requires n <= m <= |bars| && Run(s, bars, m).Going?
    ensures Run(s, bars, n).Going?
    ensures var early, late := Rows(Run(s, bars, n).st), Rows(Run(s, bars, m).st);
            early <= late && ClosedFrom(late[|early|..], n) && ClosedBefore(early, n)
    decreases m
  {
    hide Step, Rows, ClosedFrom, ClosedBefore;
    if m > 0 { StepWasGoing(s, bars, m - 1, Run(s, bars, m - 1)); }
    if n < m {
      RowsOnlyGrow(s, bars, n, m - 1);
      StepRows(s, bars, m - 1, Run(s, bars, m - 1));
      GrowTwice(Rows(Run(s, bars, n).st), Rows(Run(s, bars, m - 1).st), Rows(Run(s, bars, m).st), n, m - 1);
    } else if n > 0 {
      RowsOnlyGrow(s, bars, n - 1, m - 1);
      StepRows(s, bars, n - 1, Run(s, bars, n - 1));
      BeforeExtends(Rows(Run(s, bars, n - 1).st), Rows(Run(s, bars, n).st), n - 1);
    } else {
      NoRowsYet(s, bars);
    }
  }

  /** Two replays that both reach their ends and agree on n bars report exactly the same closes
      below bar n. */
  lemma SameCloses(s: Setup, a: seq<Bar>, b: seq<Bar>, n: nat)
    requires n <= |a| && n <= |b| && a[..n] == b[..n]
    requires Run(s, a, |a|).Going? && Run(s, b, |b|).Going?
    ensures Run(s, a, n).Going?
    ensures var early := Rows(Run(s, a, n).st);
            var inA, inB := Rows(Run(s, a, |a|).st), Rows(Run(s, b, |b|).st);
            && ClosedBefore(early, n) && early <= inA && early <= inB
            && ClosedFrom(inA[|early|..], n) && ClosedFrom(inB[|early|..], n)
  {
    hide Step, ClosedBefore, ClosedFrom;
    NoLookAhead(s, a, b, n);
    RowsOnlyGrow(s, a, n, |a|);
    RowsOnlyGrow(s, b, n, |b|);
  }

  // ---- identities -------------------------------------------------------------------------------

  type Key = (nat, nat)

  function KeyOf(lot: Lot): Key { (lot.cycle, lot.number) }

  ghost predicate Before(a: Key, b: Key) { a.0 < b.0 || (a.0 == b.0 && a.1 < b.1) }

  ghost predicate Ascending(keys: seq<Key>) {
    forall i, j :: 0 <= i < j < |keys| ==> Before(keys[i], keys[j])
  }

  /** The lot entered at bar n, if the replay entered one there. */
  ghost function EnteredAt(s: Setup, bars: seq<Bar>, n: nat): Option<Lot>
    requires n < |bars|
  {
    var p := Run(s, bars, n);
    if p.Stopped? || p.st.pending.None? || (n % CANCEL_CHECK_BARS == 0 && bars[n].cancel) then None
    else
      var e := Enter(s, bars, n, p.st.pending.value, p.st.firstPrice, Cost(p.st.queue));
      if e.Ok? then e.value else None
  }

  /** Keys of all lots entered in the first n bars, in order. */
  ghost function Entered(s: Setup, bars: seq<Bar>, n: nat): seq<Key>
    requires n <= |bars|
  {
    if n == 0 then []
    else
      var e := EnteredAt(s, bars, n - 1);
      Entered(s, bars, n - 1) + (if e.Some? then [KeyOf(e.value)] else [])
  }

  ghost function LotKeys(lots: seq<Lot>): seq<Key> { seq(|lots|, i requires 0 <= i < |lots| => KeyOf(lots[i])) }

  ghost function RowKeys(rows: seq<Row>): seq<Key> { seq(|rows|, i requires 0 <= i < |rows| => KeyOf(rows[i].lot)) }

  /** Counters and keys fit: the open lots belong to the current cycle, every key used so far is
      below the next one that can be handed out, and rows and open lots together are exactly
      the lots entered. */
  ghost predicate Numbered(s: Setup, st: State, entered: seq<Key>) {
    && Ascending(entered)
    && (forall i :: 0 <= i < |st.lots| ==> st.lots[i].cycle == st.cycle)
    && (forall i :: 0 <= i < |entered| ==> entered[i].0 <= st.cycle)
    && (st.pending.Some? ==>
          && st.pending.value.cycle == st.cycle && st.entries == st.pending.value.entry + 1
          && st.entries <= s.MaximumEntries())
    && (st.lots != [] || st.pending.Some? ==>
          var top := if st.pending.Some? then st.pending.value.entry else st.entries;
          forall i :: 0 <= i < |entered| ==> entered[i].0 == st.cycle ==> entered[i].1 <= top)
    && multiset(RowKeys(Rows(st))) + multiset(LotKeys(st.lots)) == multiset(entered)
  }

  lemma LotKeysAppend(lots: seq<Lot>, lot: Lot)
    ensures LotKeys(lots + [lot]) == LotKeys(lots) + [KeyOf(lot)]
  {}

  lemma RowKeysAppend(rows: seq<Row>, row: Row)
    ensures RowKeys(rows + [row]) == RowKeys(rows) + [KeyOf(row.lot)]
  {}

  lemma {:induction false} RefreshKeys(s: Setup, lots: seq<Lot>, queue: seq<Slice>)
    requires Sound(queue) && Refresh(s, lots, queue).Ok?
    ensures var r := Refresh(s, lots, queue).value;
            LotKeys(r) == LotKeys(lots) && (forall i :: 0 <= i < |lots| ==> r[i].cycle == lots[i].cycle)
  {
    hide FreshTarget;
    if s.market.NSE? && lots != [] {
      var n := |lots| - 1;
      RefreshKeys(s, lots[..n], queue);
      var r := Refresh(s, lots, queue).value;
      assert r == Refresh(s, lots[..n], queue).value + [lots[n].(target := r[n].target)];
      LotKeysAppend(Refresh(s, lots[..n], queue).value, r[n]);
      LotKeysAppend(lots[..n], lots[n]);
      assert lots[..n] + [lots[n]] == lots;
    }
  }

  lemma EnterKey(s: Setup, bars: seq<Bar>, bar: nat, order: Order, first: Option<real>, capital: real)
    ensures var r := Enter(s, bars, bar, order, first, capital);
            r.Ok? && r.value.Some? ==> KeyOf(r.value.value) == (order.cycle, order.entry + 1)
  {}

  lemma EntryNumbered(s: Setup, st: State, entered: seq<Key>, lot: Lot, after: State)
    requires Numbered(s, st, entered) && st.pending.Some?
    requires KeyOf(lot) == (st.pending.value.cycle, st.pending.value.entry + 1)
    requires LotKeys(after.lots) == LotKeys(st.lots + [lot]) && |after.lots| == |st.lots| + 1
    requires forall i :: 0 <= i <= |st.lots| ==> after.lots[i].cycle == (st.lots + [lot])[i].cycle
    requires after.pending == None && after.cycle == st.cycle && after.entries == st.entries
    requires after.batch == st.batch && after.written == st.written
    ensures Numbered(s, after, entered + [KeyOf(lot)])
  {
    LotKeysAppend(st.lots, lot);
    assert multiset(LotKeys(after.lots)) == multiset(LotKeys(st.lots)) + multiset{KeyOf(lot)};
    assert multiset(entered + [KeyOf(lot)]) == multiset(entered) + multiset{KeyOf(lot)};
  }

  lemma FillPendingNumbered(s: Setup, bars: seq<Bar>, n: nat, st: State, entered: seq<Key>)
    requires Sound(st.queue) && Numbered(s, st, entered) && FillPending(s, bars, n, st).Going?
    ensures var e := if st.pending.None? then Ok(None)
                     else Enter(s, bars, n, st.pending.value, st.firstPrice, Cost(st.queue));
            && e.Ok?
            && FillPending(s, bars, n, st).st.pending.None?
            && Numbered(s, FillPending(s, bars, n, st).st,
                        entered + (if e.value.Some? then [KeyOf(e.value.value)] else []))
  {
    if st.pending.None? {
      assert entered + [] == entered;
    } else {
      var order := st.pending.value;
      EnterKey(s, bars, n, order, st.firstPrice, Cost(st.queue));
      hide Enter, SliceOf, ValidSlice, Refresh;
      var e := Enter(s, bars, n, order, st.firstPrice, Cost(st.queue)).value;
      if e.None? {
        assert entered + [] == entered;
      } else {
        RefreshKeys(s, st.lots + [e.value], st.queue + [SliceOf(s, e.value)]);
        EntryNumbered(s, st, entered, e.value, FillPending(s, bars, n, st).st);
      }
    }
  }

  lemma Regroup(a: multiset<Key>, b: multiset<Key>, c: multiset<Key>, d: multiset<Key>, k: multiset<Key>)
    requires a + b == c + d
    ensures a + (b + k) == c + (d + k) && (a + k) + b == c + (d + k)
  {
    assert a + (b + k) == (a + b) + k && (a + k) + b == (a + b) + k && c + (d + k) == (c + d) + k;
  }

  lemma {:induction false} ExitLotsKeys(s: Setup, bar: nat, b: Bar, start: Pass, lots: seq<Lot>, n: nat, cycle: nat)
    requires n <= |lots| && PassSound(start) && start.Passing? && start.kept == []
    requires forall i :: 0 <= i < |lots| ==> lots[i].cycle == cycle
    ensures var r := ExitLots(s, bar, b, start, lots, n);
            r.Passing? ==>
              && (forall i :: 0 <= i < |r.kept| ==> r.kept[i].cycle == cycle)
              && multiset(RowKeys(r.written + r.batch)) + multiset(LotKeys(r.kept))
                 == multiset(RowKeys(start.written + start.batch)) + multiset(LotKeys(lots[..n]))
  {
    hide ExitOne, Sound;
    if n == 0 {
      assert LotKeys(lots[..0]) == [] == LotKeys(start.kept);
    } else {
      ExitLotsKeys(s, bar, b, start, lots, n - 1, cycle);
      var p := ExitLots(s, bar, b, start, lots, n - 1);
      var before := lots[n - 1];
      assert lots[..n] == lots[..n - 1] + [before];
      LotKeysAppend(lots[..n - 1], before);
      assert multiset(LotKeys(lots[..n])) == multiset(LotKeys(lots[..n - 1])) + multiset{KeyOf(before)};
      if p.Passing? {
        ExitOneRows(s, bar, b, p, before);
        var r := ExitOne(s, bar, b, p, before);
        var lot := Watch(before, bar, b);
        assert KeyOf(lot) == KeyOf(before);
        Regroup(multiset(RowKeys(p.written + p.batch)), multiset(LotKeys(p.kept)),
                multiset(RowKeys(start.written + start.batch)), multiset(LotKeys(lots[..n - 1])),
                  multiset{KeyOf(before)});
        if r.Passing? {
          if r.kept == p.kept + [lot] && r.written == p.written && r.batch == p.batch {
            LotKeysAppend(p.kept, lot);
            assert multiset(LotKeys(r.kept)) == multiset(LotKeys(p.kept)) + multiset{KeyOf(before)};
          } else {
            var row: Row :| row.lot == lot && r.written + r.batch == p.written + p.batch + [row];
            RowKeysAppend(p.written + p.batch, row);
            assert multiset(RowKeys(r.written + r.batch))
                == multiset(RowKeys(p.written + p.batch)) + multiset{KeyOf(before)};
          }
        }
      } else {
        ExitOneRaised(s, bar, b, p, before);
      }
    }
  }

  lemma ExitOneRaised(s: Setup, bar: nat, b: Bar, p: Pass, before: Lot)
    requires PassSound(p) && p.Raised?
    ensures ExitOne(s, bar, b, p, before) == p
  {}

  lemma ExitBarNumbered(s: Setup, bar: nat, b: Bar, st: State, entered: seq<Key>)
    requires Sound(st.queue) && Numbered(s, st, entered) && st.pending.None? && ExitBar(s, bar, b, st).Going?
    ensures Numbered(s, ExitBar(s, bar, b, st).st, entered) && ExitBar(s, bar, b, st).st.pending.None?
  {
    hide ExitLots, Refresh, Sound;
    ExitLotsKeys(s, bar, b, PassOf(st), st.lots, |st.lots|, st.cycle);
    assert st.lots[..|st.lots|] == st.lots;
    var p := ExitLots(s, bar, b, PassOf(st), st.lots, |st.lots|);
    if p.exited { RefreshKeys(s, p.kept, p.queue); }
    if st.lots == [] { ExitNone(s, bar, b, st); }
  }

  lemma ExitNone(s: Setup, bar: nat, b: Bar, st: State)
    requires Sound(st.queue) && st.lots == []
    ensures ExitLots(s, bar, b, PassOf(st), st.lots, |st.lots|) == PassOf(st)
  {}

  lemma PlaceOrderNumbered(s: Setup, bar: nat, b: Bar, more: bool, st: State, entered: seq<Key>)
    requires Numbered(s, st, entered) && st.pending.None?
    ensures Numbered(s, PlaceOrder(s, bar, b, more, st), entered)
  {}

  /** Over every replay: the keys entered so far are strictly ascending, and closed rows plus open
      lots are exactly the lots entered. */
  lemma {:induction false} ReplayIsNumbered(s: Setup, bars: seq<Bar>, n: nat)
    requires n <= |bars| && Run(s, bars, n).Going?
    ensures Numbered(s, Run(s, bars, n).st, Entered(s, bars, n))
  {
    hide Enter, FillPending, ExitBar, PlaceOrder, Numbered, Sound;
    if n == 0 {
      InitialNumbered(s);
    } else {
      var k := n - 1;
      ReplayIsNumbered(s, bars, k);
      var st := Run(s, bars, k).st;
      FillPendingNumbered(s, bars, k, st, Entered(s, bars, k));
      var filled := FillPending(s, bars, k, st).st;
      ExitBarNumbered(s, k, bars[k], filled, Entered(s, bars, n));
      PlaceOrderNumbered(s, k, bars[k], n < |bars|, ExitBar(s, k, bars[k], filled).st, Entered(s, bars, n));
    }
  }

  lemma InitialNumbered(s: Setup)
    ensures Numbered(s, Initial, [])
  {
    assert RowKeys(Rows(Initial)) == [] && LotKeys(Initial.lots) == [];
  }

  // ---- what is written and stored -----------------------------------------------------------------

  lemma {:induction false} OpenRowsKeys(s: Setup, bars: seq<Bar>, st: State, n: nat)
    requires n <= |st.lots| && Sound(st.queue) && OpenRows(s, bars, st, n).Ok?
    ensures RowKeys(OpenRows(s, bars, st, n).value) == LotKeys(st.lots[..n])
  {
    hide Sale, OpenRow;
    if n > 0 {
      OpenRowsKeys(s, bars, st, n - 1);
      var rows := OpenRows(s, bars, st, n - 1).value;
      var all := OpenRows(s, bars, st, n).value;
      assert all[..n - 1] == rows;
      OpenRowLot(s, st.lots[n - 1], if |bars| > 0 then bars[|bars| - 1].close else 0.0, |bars| - 1,
                 if s.market.NSE? then Some(Sale(st.queue, st.lots[n - 1].quantity).value.0) else None);
      RowKeysAppend(rows, all[n - 1]);
      LotKeysAppend(st.lots[..n - 1], st.lots[n - 1]);
      assert st.lots[..n] == st.lots[..n - 1] + [st.lots[n - 1]];
    }
  }

  lemma OpenRowLot(s: Setup, lot: Lot, close: real, last: int, fifo: Option<Match>)
    ensures OpenRow(s, lot, close, last, fifo).lot == lot
  {}

  /** INSERT ... ON CONFLICT (run_id, lot_id) DO NOTHING, one row after another. */
  function Stored(symbol: string, rows: seq<Row>): seq<Row> {
    if rows == [] then []
    else
      var kept, row := Stored(symbol, rows[..|rows| - 1]), rows[|rows| - 1];
      if exists k :: 0 <= k < |kept| && NameOf(symbol, kept[k].lot) == NameOf(symbol, row.lot) then kept
      else kept + [row]
  }

  function NameOf(symbol: string, lot: Lot): string { LotName(symbol, lot.cycle, lot.number) }

  lemma {:induction false} StoredAll(symbol: string, rows: seq<Row>)
    requires forall i, j :: 0 <= i < j < |rows| ==> KeyOf(rows[i].lot) != KeyOf(rows[j].lot)
    ensures Stored(symbol, rows) == rows
  {
    hide LotName;
    if rows != [] {
      var n := |rows| - 1;
      StoredAll(symbol, rows[..n]);
      forall k | 0 <= k < n ensures NameOf(symbol, rows[k].lot) != NameOf(symbol, rows[n].lot) {
        if NameOf(symbol, rows[k].lot) == NameOf(symbol, rows[n].lot) {
          LotNameInjective(symbol, rows[k].lot.cycle, rows[k].lot.number, rows[n].lot.cycle, rows[n].lot.number);
        }
      }
      assert rows == rows[..n] + [rows[n]];
    }
  }

  lemma {:induction false} AscendingOnce(keys: seq<Key>, i: nat)
    requires Ascending(keys) && i < |keys|
    ensures multiset(keys)[keys[i]] == 1
  {
    var n := |keys| - 1;
    assert keys == keys[..n] + [keys[n]];
    if i < n {
      AscendingOnce(keys[..n], i);
      assert keys[..n][i] == keys[i];
    } else {
      assert forall k :: 0 <= k < n ==> keys[k] != keys[n];
      assert keys[n] !in keys[..n];
    }
  }

  lemma {:induction false} OnceMeansDistinct(keys: seq<Key>, i: nat, j: nat)
    requires i < j < |keys|
    requires multiset(keys)[keys[i]] <= 1
    ensures keys[i] != keys[j]
  {
    assert keys == keys[..j] + [keys[j]] + keys[j + 1..];
    assert keys[i] == keys[..j][i];
    assert keys[i] in multiset(keys[..j]);
  }

  /** Exactly once: when a replay completes, the written rows carry each entered lot exactly once
      (closed or OPEN) and nothing else, so the store's conflict clause drops none of them. */
  lemma ExactlyOnce(s: Setup, bars: seq<Bar>)
    requires Replayed(s, bars).Completed?
    ensures var rows := Replayed(s, bars).written;
            var entered := Entered(s, bars, |bars|);
            && multiset(RowKeys(rows)) == multiset(entered)
            && (forall k :: k in entered ==> multiset(entered)[k] == 1)
            && Stored(s.symbol, rows) == rows
  {
    hide Run, OpenRows, Stored;
    var st := Run(s, bars, |bars|).st;
    var entered := Entered(s, bars, |bars|);
    ReplayIsNumbered(s, bars, |bars|);
    OpenRowsKeys(s, bars, st, |st.lots|);
    assert st.lots[..|st.lots|] == st.lots;
    var open := OpenRows(s, bars, st, |st.lots|).value;
    var rows := Replayed(s, bars).written;
    assert rows == Rows(st) + open;
    assert RowKeys(rows) == RowKeys(Rows(st)) + RowKeys(open);
    forall k | k in entered ensures multiset(entered)[k] == 1 {
      var i :| 0 <= i < |entered| && entered[i] == k;
      AscendingOnce(entered, i);
    }
    forall i, j | 0 <= i < j < |rows| ensures KeyOf(rows[i].lot) != KeyOf(rows[j].lot) {
      var keys := RowKeys(rows);
      assert keys[i] in multiset(keys) && keys[i] in entered;
      OnceMeansDistinct(keys, i, j);
    }
    StoredAll(s.symbol, rows);
  }

  // ---- what an aborted replay leaves behind ------------------------------------------------------------

  ghost predicate DistinctRows(rows: seq<Row>) {
    forall i, j :: 0 <= i < j < |rows| ==> KeyOf(rows[i].lot) != KeyOf(rows[j].lot)
  }

  /** Rows whose keys are among ascending ones are distinct. */
  lemma AmongAscending(rows: seq<Row>, more: multiset<Key>, keys: seq<Key>)
    requires Ascending(keys) && multiset(RowKeys(rows)) + more == multiset(keys)
    ensures DistinctRows(rows)
  {
    hide Ascending;
    var mine := RowKeys(rows);
    forall i, j | 0 <= i < j < |rows| ensures KeyOf(rows[i].lot) != KeyOf(rows[j].lot) {
      assert mine[i] in multiset(mine);
      assert multiset(keys)[mine[i]] == multiset(mine)[mine[i]] + more[mine[i]];
      assert mine[i] in multiset(keys);
      var k :| 0 <= k < |keys| && keys[k] == mine[i];
      AscendingOnce(keys, k);
      OnceMeansDistinct(mine, i, j);
    }
  }

  lemma DistinctPrefix(written: seq<Row>, batch: seq<Row>)
    requires DistinctRows(written + batch)
    ensures DistinctRows(written)
  {
    forall i, j | 0 <= i < j < |written| ensures KeyOf(written[i].lot) != KeyOf(written[j].lot) {
      assert (written + batch)[i] == written[i] && (written + batch)[j] == written[j];
    }
  }

  /** The rows of a pass are distinct from one another, and so are those it loses by raising. */
  lemma {:induction false} PassRowsDistinct(s: Setup, bar: nat, b: Bar, st: State, entered: seq<Key>, n: nat)
    requires Sound(st.queue) && Numbered(s, st, entered) && n <= |st.lots|
    ensures var p := ExitLots(s, bar, b, PassOf(st), st.lots, n);
            DistinctRows(if p.Passing? then p.written else p.lost)
  {
    hide ExitOne, Sound, DistinctRows, RowKeys, LotKeys, Ascending;
    var p := ExitLots(s, bar, b, PassOf(st), st.lots, n);
    if p.Passing? {
      ExitLotsKeys(s, bar, b, PassOf(st), st.lots, n, st.cycle);
      LotsSplit(st.lots, n);
      var more := multiset(LotKeys(p.kept)) + multiset(LotKeys(st.lots[n..]));
      Regroup(multiset(RowKeys(p.written + p.batch)), multiset(LotKeys(p.kept)), multiset(RowKeys(Rows(st))),
              multiset(LotKeys(st.lots[..n])), multiset(LotKeys(st.lots[n..])));
      assert multiset(RowKeys(p.written + p.batch)) + more == multiset(entered);
      AmongAscending(p.written + p.batch, more, entered);
      DistinctPrefix(p.written, p.batch);
    } else {
      PassRowsDistinct(s, bar, b, st, entered, n - 1);
      RaiseLoses(s, bar, b, ExitLots(s, bar, b, PassOf(st), st.lots, n - 1), st.lots[n - 1]);
    }
  }

  lemma LotsSplit(lots: seq<Lot>, n: nat)
    requires n <= |lots|
    ensures multiset(LotKeys(lots)) == multiset(LotKeys(lots[..n])) + multiset(LotKeys(lots[n..]))
  {
    assert LotKeys(lots) == LotKeys(lots[..n]) + LotKeys(lots[n..]);
  }

  lemma RaiseLoses(s: Setup, bar: nat, b: Bar, p: Pass, before: Lot)
    requires PassSound(p) && ExitOne(s, bar, b, p, before).Raised?
    ensures ExitOne(s, bar, b, p, before).lost == if p.Passing? then p.written else p.lost
  {
    hide Sale, ClosedRow, MaybeExit;
  }

  lemma FillStopsWritten(s: Setup, bars: seq<Bar>, bar: nat, st: State)
    requires Sound(st.queue) && FillPending(s, bars, bar, st).Stopped?
    ensures FillPending(s, bars, bar, st).written == st.written
  {
    hide Enter, Refresh, SliceOf, ValidSlice;
  }

  lemma ExitStopsWritten(s: Setup, bar: nat, b: Bar, st: State)
    requires Sound(st.queue) && ExitBar(s, bar, b, st).Stopped?
    ensures var p := ExitLots(s, bar, b, PassOf(st), st.lots, |st.lots|);
            ExitBar(s, bar, b, st).written == if p.Passing? then p.written else p.lost
  {
    hide ExitLots, Refresh, Sound;
  }

  /** A replay that aborts has written no lot twice. */
  lemma {:induction false} StoppedRowsDistinct(s: Setup, bars: seq<Bar>, n: nat)
    requires n <= |bars|
    ensures Run(s, bars, n).Stopped? ==> DistinctRows(Run(s, bars, n).written)
    ensures Run(s, bars, n).Going? ==> DistinctRows(Run(s, bars, n).st.written)
  {
    hide Enter, FillPending, ExitBar, PlaceOrder, Numbered, Sound, DistinctRows, ExitLots;
    var p := Run(s, bars, n);
    if p.Going? {
      ReplayIsNumbered(s, bars, n);
      GoingRowsDistinct(s, p.st, Entered(s, bars, n));
    } else {
      var k := n - 1;
      StoppedRowsDistinct(s, bars, k);
      if Run(s, bars, k).Going? {
        var st := Run(s, bars, k).st;
        ReplayIsNumbered(s, bars, k);
        if FillPending(s, bars, k, st).Stopped? {
          FillStopsWritten(s, bars, k, st);
        } else {
          FillPendingNumbered(s, bars, k, st, Entered(s, bars, k));
          var filled := FillPending(s, bars, k, st).st;
          var e := if st.pending.None? then None
                   else Enter(s, bars, k, st.pending.value, st.firstPrice, Cost(st.queue)).value;
          var keys := Entered(s, bars, k) + (if e.Some? then [KeyOf(e.value)] else []);
          PassRowsDistinct(s, k, bars[k], filled, keys, |filled.lots|);
          if ExitBar(s, k, bars[k], filled).Stopped? { ExitStopsWritten(s, k, bars[k], filled); }
        }
      }
    }
  }

  lemma GoingRowsDistinct(s: Setup, st: State, entered: seq<Key>)
    requires Numbered(s, st, entered)
    ensures DistinctRows(st.written)
  {
    AmongAscending(Rows(st), multiset(LotKeys(st.lots)), entered);
    DistinctPrefix(st.written, st.batch);
  }

  /** Whatever ends a replay, the store keeps every row that was handed to it. */
  lemma AbortedRowsAreStored(s: Setup, bars: seq<Bar>)
    requires Replayed(s, bars).Aborted?
    ensures Stored(s.symbol, Replayed(s, bars).written) == Replayed(s, bars).written
  {
    hide Run, OpenRows, Stored;
    StoppedRowsDistinct(s, bars, |bars|);
    StoredAll(s.symbol, Replayed(s, bars).written);
  }
}
