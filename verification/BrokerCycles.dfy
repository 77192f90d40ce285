/** Cycle discipline: open lots of one symbol, strategy and timeframe share one cycle, a cycle
    belongs to one strategy and timeframe, and its lots are numbered 1, 2, ... in order of entry,
    each within the entry cap of its own snapshot. */
module BrokerCycles {
  import opened Broker
  import opened BrokerCore

  /** A cycle belongs to one strategy and timeframe. */
  ghost predicate OneOwner(lots: seq<Lot>) {
    forall i, j ::
      (0 <= i < |lots| && 0 <= j < |lots| && lots[i].symbol == lots[j].symbol && lots[i].cycle == lots[j].cycle) ==>
      lots[i].strategy == lots[j].strategy && lots[i].timeframe == lots[j].timeframe
  }

  /** Open lots of one symbol, strategy and timeframe share one cycle. */
  ghost predicate OneCycle(lots: seq<Lot>) {
    forall i, j ::
      (0 <= i < |lots| && 0 <= j < |lots| && lots[i].status == OPEN && lots[j].status == OPEN
       && KeyOf(lots[i]) == KeyOf(lots[j]))
      ==> lots[i].cycle == lots[j].cycle
  }

  ghost predicate Capped(lots: seq<Lot>) {
    forall i :: 0 <= i < |lots| ==> lots[i].number <= lots[i].config.Cap()
  }

  ghost predicate Cycles(lots: seq<Lot>) {
    NumbersGrow(lots) && OneOwner(lots) && OneCycle(lots) && Capped(lots)
  }

  lemma {:induction false} NoCycleLots(lots: seq<Lot>, symbol: string, cycle: nat)
    requires forall i :: 0 <= i < |lots| ==> lots[i].symbol != symbol || lots[i].cycle != cycle
    ensures CycleLots(lots, symbol, cycle) == []
  {
    if lots != [] { NoCycleLots(lots[..|lots| - 1], symbol, cycle); }
  }

  ghost predicate NumbersGrow(lots: seq<Lot>) {
    forall i :: 0 <= i < |lots| ==> lots[i].number == |CycleLots(lots[..i], lots[i].symbol, lots[i].cycle)| + 1
  }

  /** The lots of a cycle, over all time, carry the numbers 1..n with no gap and no repeat. */
  lemma {:induction false} CycleNumbers(lots: seq<Lot>, symbol: string, cycle: nat)
    requires NumbersGrow(lots)
    ensures forall k :: 0 <= k < |CycleLots(lots, symbol, cycle)| ==> CycleLots(lots, symbol, cycle)[k].number == k + 1
  {
    if lots != [] {
      var n := |lots| - 1;
      assert forall i :: 0 <= i < n ==> lots[..n][..i] == lots[..i];
      CycleNumbers(lots[..n], symbol, cycle);
    }
  }

  lemma {:induction false} LatestOf(lots: seq<Lot>)
    requires lots != [] && forall k :: 0 <= k < |lots| ==> lots[k].number == k + 1
    ensures Latest(lots) == lots[|lots| - 1] && First(lots) == lots[0]
  {
    if |lots| > 1 { LatestOf(lots[..|lots| - 1]); }
  }

  lemma {:induction false} MaxCycleBounds(lots: seq<Lot>, symbol: string)
    ensures forall i :: 0 <= i < |lots| && lots[i].symbol == symbol ==> lots[i].cycle <= MaxCycle(lots, symbol)
  {
    if lots != [] { MaxCycleBounds(lots[..|lots| - 1], symbol); }
  }

  lemma {:induction false} CycleSizeUpdate(lots: seq<Lot>, id: nat, row: Lot, symbol: string, cycle: nat, n: nat)
    requires id < |lots| && row.symbol == lots[id].symbol && row.cycle == lots[id].cycle && n <= |lots|
    ensures |CycleLots(lots[id := row][..n], symbol, cycle)| == |CycleLots(lots[..n], symbol, cycle)|
  {
    if n > 0 {
      CycleSizeUpdate(lots, id, row, symbol, cycle, n - 1);
      assert lots[id := row][..n][..n - 1] == lots[id := row][..n - 1];
      assert lots[..n][..n - 1] == lots[..n - 1];
    }
  }

  /** Marking or closing a row keeps the discipline. */
  lemma UpdateCycles(lots: seq<Lot>, id: nat, row: Lot)
    requires Cycles(lots) && id < |lots|
    requires KeyOf(row) == KeyOf(lots[id]) && row.cycle == lots[id].cycle && row.number == lots[id].number
    requires row.config == lots[id].config && (row.status == OPEN ==> lots[id].status == OPEN)
    ensures Cycles(lots[id := row])
  {
    hide NumbersGrow, OneOwner, OneCycle;
    UpdateNumbers(lots, id, row);
    UpdateOwners(lots, id, row);
    UpdateOpen(lots, id, row);
  }

  lemma UpdateOwners(lots: seq<Lot>, id: nat, row: Lot)
    requires OneOwner(lots) && id < |lots| && KeyOf(row) == KeyOf(lots[id]) && row.cycle == lots[id].cycle
    ensures OneOwner(lots[id := row])
  {
    var after := lots[id := row];
    assert forall i :: 0 <= i < |after| ==> KeyOf(after[i]) == KeyOf(lots[i]) && after[i].cycle == lots[i].cycle;
  }

  lemma UpdateOpen(lots: seq<Lot>, id: nat, row: Lot)
    requires OneCycle(lots) && id < |lots| && KeyOf(row) == KeyOf(lots[id]) && row.cycle == lots[id].cycle
    requires row.status == OPEN ==> lots[id].status == OPEN
    ensures OneCycle(lots[id := row])
  {
    var after := lots[id := row];
    assert forall i :: 0 <= i < |after| ==>
             KeyOf(after[i]) == KeyOf(lots[i]) && after[i].cycle == lots[i].cycle
             && (after[i].status == OPEN ==> lots[i].status == OPEN);
  }

  lemma UpdateNumbers(lots: seq<Lot>, id: nat, row: Lot)
    requires NumbersGrow(lots) && id < |lots|
    requires row.symbol == lots[id].symbol && row.cycle == lots[id].cycle && row.number == lots[id].number
    ensures NumbersGrow(lots[id := row])
  {
    var after := lots[id := row];
    forall i | 0 <= i < |after|
      ensures after[i].number == |CycleLots(after[..i], after[i].symbol, after[i].cycle)| + 1
    {
      CycleSizeUpdate(lots, id, row, after[i].symbol, after[i].cycle, i);
    }
  }

  lemma {:induction false} LotsOfKeyAre(open: seq<Lot>, symbol: string, strategy: string, timeframe: string)
    ensures var r := LotsOfKey(open, symbol, strategy, timeframe);
            && (forall x :: x in r ==> x in open && SameKey(x, symbol, strategy, timeframe))
            && (forall i :: 0 <= i < |open| && SameKey(open[i], symbol, strategy, timeframe) ==> r != [])
  {
    if open != [] {
      var n := |open| - 1;
      LotsOfKeyAre(open[..n], symbol, strategy, timeframe);
      forall x | x in LotsOfKey(open[..n], symbol, strategy, timeframe) ensures x in open {
        assert x in open[..n];
      }
      forall i | 0 <= i < |open| && SameKey(open[i], symbol, strategy, timeframe)
        ensures LotsOfKey(open, symbol, strategy, timeframe) != []
      {
        if i < n { assert SameKey(open[..n][i], symbol, strategy, timeframe); }
      }
    }
  }

  /** Lots of a cycle belong to one strategy and timeframe, and this key's open lots to one cycle. */
  ghost predicate CycleFits(lots: seq<Lot>, sig: Signal, cycle: nat) {
    && (forall i :: 0 <= i < |lots| && lots[i].symbol == sig.symbol && lots[i].cycle == cycle ==>
          lots[i].strategy == sig.strategy && lots[i].timeframe == sig.timeframe)
    && (forall i ::
          (0 <= i < |lots| && lots[i].status == OPEN && SameKey(lots[i], sig.symbol, sig.strategy, sig.timeframe))
          ==> lots[i].cycle == cycle)
  }

  lemma JoinedCycle(b: Book, sig: Signal)
    requires Mirrors(b.lots, b.open) && Cycles(b.lots)
    requires LotsOfKey(b.open, sig.symbol, sig.strategy, sig.timeframe) != []
    ensures CycleFits(b.lots, sig, LotsOfKey(b.open, sig.symbol, sig.strategy, sig.timeframe)[0].cycle)
  {
    hide CycleLots;
    LotsOfKeyAre(b.open, sig.symbol, sig.strategy, sig.timeframe);
    var open := LotsOfKey(b.open, sig.symbol, sig.strategy, sig.timeframe);
    assert open[0] in b.open;
    var j :| 0 <= j < |b.open| && b.open[j] == open[0];
    var k := open[0].id;
    assert SameLot(b.lots[k], open[0]);
    forall i |
      0 <= i < |b.lots| && b.lots[i].status == OPEN && SameKey(b.lots[i], sig.symbol, sig.strategy, sig.timeframe)
      ensures b.lots[i].cycle == open[0].cycle
    {
      assert KeyOf(b.lots[i]) == KeyOf(b.lots[k]);
    }
    forall i | 0 <= i < |b.lots| && b.lots[i].symbol == sig.symbol && b.lots[i].cycle == open[0].cycle
      ensures b.lots[i].strategy == sig.strategy && b.lots[i].timeframe == sig.timeframe
    {
      assert b.lots[k].symbol == b.lots[i].symbol && b.lots[k].cycle == b.lots[i].cycle;
    }
  }

  lemma NewCycle(b: Book, sig: Signal)
    requires Mirrors(b.lots, b.open) && LotsOfKey(b.open, sig.symbol, sig.strategy, sig.timeframe) == []
    ensures CycleFits(b.lots, sig, MaxCycle(b.lots, sig.symbol) + 1)
    ensures CycleLots(b.lots, sig.symbol, MaxCycle(b.lots, sig.symbol) + 1) == []
  {
    LotsOfKeyAre(b.open, sig.symbol, sig.strategy, sig.timeframe);
    MaxCycleBounds(b.lots, sig.symbol);
    var c := MaxCycle(b.lots, sig.symbol) + 1;
    NoCycleLots(b.lots, sig.symbol, c);
    forall i | 0 <= i < |b.lots| && b.lots[i].status == OPEN
      ensures !SameKey(b.lots[i], sig.symbol, sig.strategy, sig.timeframe)
    {
      assert i in Ids(b.open);
      var j :| 0 <= j < |b.open| && b.open[j].id == i;
      assert SameLot(b.lots[i], b.open[j]);
    }
  }

  /** What an accepted entry says about cycle, number and the lots already there. */
  lemma AcceptedCycle(d: Desk, b: Book, sig: Signal, reference: real, at: int)
    requires Mirrors(b.lots, b.open) && Cycles(b.lots) && Judge(d, b, sig, reference, at).Accept?
    ensures var v := Judge(d, b, sig, reference, at);
            && v.number == |CycleLots(b.lots, sig.symbol, v.cycle)| + 1 && v.number <= sig.config.Cap()
            && CycleFits(b.lots, sig, v.cycle)
  {
    AcceptedShape(d, b, sig, reference, at);
    hide Judge, CycleLots, CycleFits, Mirrors;
    var v := Judge(d, b, sig, reference, at);
    if LotsOfKey(b.open, sig.symbol, sig.strategy, sig.timeframe) != [] {
      JoinedCycle(b, sig);
      CycleNumbers(b.lots, sig.symbol, v.cycle);
      LatestOf(CycleLots(b.lots, sig.symbol, v.cycle));
    } else {
      NewCycle(b, sig);
    }
  }

  lemma AcceptedShape(d: Desk, b: Book, sig: Signal, reference: real, at: int)
    ensures var v := Judge(d, b, sig, reference, at);
            var open := LotsOfKey(b.open, sig.symbol, sig.strategy, sig.timeframe);
            v.Accept? ==>
              && v.number <= sig.config.Cap()
              && (open != [] ==> v.cycle == open[0].cycle && CycleLots(b.lots, sig.symbol, v.cycle) != []
                                 && v.number == Latest(CycleLots(b.lots, sig.symbol, v.cycle)).number + 1)
              && (open == [] ==> v.cycle == MaxCycle(b.lots, sig.symbol) + 1 && v.number == 1)
  {
    hide EntryQuantity, PortfolioRejection, AlreadyFilled, EntryCost, EntryValue;
  }

  lemma EnterCycles(lots: seq<Lot>, lot: Lot, sig: Signal)
    requires Cycles(lots)
    requires lot.number == |CycleLots(lots, lot.symbol, lot.cycle)| + 1 && lot.number <= lot.config.Cap()
    requires CycleFits(lots, sig, lot.cycle) && KeyOf(lot) == (sig.symbol, sig.strategy, sig.timeframe)
    ensures Cycles(lots + [lot])
  {
    EnterNumbers(lots, lot);
    EnterOwner(lots, lot, sig);
    EnterOneCycle(lots, lot, sig);
    hide NumbersGrow, OneOwner, OneCycle;
  }

  lemma EnterOwner(lots: seq<Lot>, lot: Lot, sig: Signal)
    requires OneOwner(lots) && CycleFits(lots, sig, lot.cycle)
    requires KeyOf(lot) == (sig.symbol, sig.strategy, sig.timeframe)
    ensures OneOwner(lots + [lot])
  {}

  lemma EnterOneCycle(lots: seq<Lot>, lot: Lot, sig: Signal)
    requires OneCycle(lots) && CycleFits(lots, sig, lot.cycle)
    requires KeyOf(lot) == (sig.symbol, sig.strategy, sig.timeframe)
    ensures OneCycle(lots + [lot])
  {}

  lemma EnterNumbers(lots: seq<Lot>, lot: Lot)
    requires NumbersGrow(lots) && lot.number == |CycleLots(lots, lot.symbol, lot.cycle)| + 1
    ensures NumbersGrow(lots + [lot])
  {
    var next := lots + [lot];
    forall i | 0 <= i < |next|
      ensures next[i].number == |CycleLots(next[..i], next[i].symbol, next[i].cycle)| + 1
    {
      assert next[..i] == lots[..i];
      assert lots[..|lots|] == lots;
    }
  }
}
