/** Run metrics accumulated one trade at a time (backend/backtest/metrics.py). */
module Metrics {
  import opened Common

  datatype Status = OPEN | TARGET_HIT | STOPPED | EXPIRED | OtherClose

  /** A trade row; a missing amount counts as zero. Exit timestamps are kept by their place in time order. */
  datatype Trade = Trade(
    status: Status, netPnl: Option<real>, unrealizedPnl: Option<real>, exitTime: int,
    fees: Option<real>, slippage: Option<real>,
    maePct: Option<real>, mfePct: Option<real>, holdingMinutes: Option<real>)

  function Amount(x: Option<real>): real { if x.Some? then x.value else 0.0 }

  datatype Closed = Closed(time: int, net: real)

  datatype Totals = Totals(
    completed: nat, targetHits: nat, stopped: nat, expired: nat, open: nat,
    winners: nat, losers: nat, breakeven: nat,
    realized: real, unrealized: real, grossProfit: real, grossLoss: real, closed: seq<Closed>)

  const ZERO := Totals(0, 0, 0, 0, 0, 0, 0, 0, 0.0, 0.0, 0.0, 0.0, [])

  function One(b: bool): nat { if b then 1 else 0 }

  function AddOpen(t: Totals, amount: real): Totals { t.(open := t.open + 1, unrealized := t.unrealized + amount) }

  function AddClosed(t: Totals, status: Status, net: real, time: int): Totals {
    Totals(
      t.completed + 1,
      t.targetHits + One(status == TARGET_HIT), t.stopped + One(status == STOPPED), t.expired + One(status == EXPIRED),
      t.open, t.winners + One(net > 0.0), t.losers + One(net < 0.0), t.breakeven + One(net == 0.0),
      t.realized + net, t.unrealized, t.grossProfit + Max(net, 0.0), t.grossLoss + Max(-net, 0.0),
      t.closed + [Closed(time, net)])
  }

  /** What a trade adds to the totals. */
  function Add(t: Totals, trade: Trade): Totals {
    if trade.status == OPEN then AddOpen(t, Amount(trade.unrealizedPnl))
    else AddClosed(t, trade.status, Amount(trade.netPnl), trade.exitTime)
  }

  function Accumulated(trades: seq<Trade>): Totals {
    if trades == [] then ZERO else Add(Accumulated(trades[..|trades| - 1]), trades[|trades| - 1])
  }

  // ---- costs and per-trade samples -----------------------------------------------------------------

  /** Costs and exposure of all trades, and the samples behind the averages and medians. */
  datatype Samples = Samples(
    fees: real, slippage: real, exposure: real, mae: seq<real>, mfe: seq<real>, holding: seq<real>)

  function Sample(x: Option<real>): seq<real> { if x.Some? then [x.value] else [] }

  function Sampled(s: Samples, trade: Trade): Samples {
    Samples(s.fees + Amount(trade.fees), s.slippage + Amount(trade.slippage), s.exposure + Amount(trade.holdingMinutes),
            s.mae + Sample(trade.maePct), s.mfe + Sample(trade.mfePct),
            if trade.status == OPEN then s.holding else s.holding + Sample(trade.holdingMinutes))
  }

  function Collected(trades: seq<Trade>): Samples {
    if trades == [] then Samples(0.0, 0.0, 0.0, [], [], [])
    else Sampled(Collected(trades[..|trades| - 1]), trades[|trades| - 1])
  }

  function Total(xs: seq<real>): real { if xs == [] then 0.0 else Total(xs[..|xs| - 1]) + xs[|xs| - 1] }

  /** Holding minutes of the trades still open. */
  function OpenMinutes(trades: seq<Trade>): real {
    if trades == [] then 0.0
    else
      var t := trades[|trades| - 1];
      OpenMinutes(trades[..|trades| - 1]) + (if t.status == OPEN then Amount(t.holdingMinutes) else 0.0)
  }

  /** At most one sample per trade, and holding times of closed trades only: the exposure is what those add
      up to plus the minutes of the trades still open. */
  lemma {:induction false} SamplesAgree(trades: seq<Trade>)
    ensures var s := Collected(trades);
            && |s.mae| <= |trades| && |s.mfe| <= |trades| && |s.holding| <= Accumulated(trades).completed
            && s.exposure == Total(s.holding) + OpenMinutes(trades)
  {
    if trades != [] {
      var n := |trades| - 1;
      SamplesAgree(trades[..n]);
      var h, x := Collected(trades[..n]).holding, trades[n].holdingMinutes;
      if x.Some? { assert (h + [x.value])[..|h|] == h; }
      assert h + [] == h;
    }
  }

  // ---- sums over closed trades ---------------------------------------------------------------------

  function Net(closed: seq<Closed>): real {
    if closed == [] then 0.0 else Net(closed[..|closed| - 1]) + closed[|closed| - 1].net
  }

  function Loss(closed: seq<Closed>): real {
    if closed == [] then 0.0 else Loss(closed[..|closed| - 1]) + Max(-closed[|closed| - 1].net, 0.0)
  }

  function Profit(closed: seq<Closed>): real {
    if closed == [] then 0.0 else Profit(closed[..|closed| - 1]) + Max(closed[|closed| - 1].net, 0.0)
  }

  /** Every trade is counted once, by outcome and by result, and the realized amount is what was won less
      what was lost. */
  lemma {:induction false} TotalsAgree(trades: seq<Trade>)
    ensures var t := Accumulated(trades);
            && t.completed + t.open == |trades| && t.completed == |t.closed|
            && t.winners + t.losers + t.breakeven == t.completed && t.targetHits + t.stopped + t.expired <= t.completed
            && t.realized == t.grossProfit - t.grossLoss && t.grossProfit >= 0.0 && t.grossLoss >= 0.0
            && t.realized == Net(t.closed) && t.grossLoss == Loss(t.closed) && t.grossProfit == Profit(t.closed)
  {
    if trades != [] {
      var n := |trades| - 1;
      TotalsAgree(trades[..n]);
      var t, trade := Accumulated(trades[..n]), trades[n];
      var item := Closed(trade.exitTime, Amount(trade.netPnl));
      assert (t.closed + [item])[..|t.closed|] == t.closed;
    }
  }

  // ---- the totals, said of the trades ---------------------------------------------------------------

  /** The trades with this property, in order. */
  ghost function Where(trades: seq<Trade>, p: Trade -> bool): seq<Trade> {
    if trades == [] then []
    else
      var last := trades[|trades| - 1];
      Where(trades[..|trades| - 1], p) + (if p(last) then [last] else [])
  }

  ghost function Sum(trades: seq<Trade>, amount: Trade -> Option<real>): real {
    if trades == [] then 0.0
    else
      var last := amount(trades[|trades| - 1]);
      Sum(trades[..|trades| - 1], amount) + (if last.Some? then last.value else 0.0)
  }

  ghost predicate IsOpen(x: Trade) { x.status == OPEN }

  ghost predicate IsDone(x: Trade) { x.status != OPEN }

  ghost predicate Won(x: Trade) { x.status != OPEN && x.netPnl.Some? && x.netPnl.value > 0.0 }

  ghost predicate Lost(x: Trade) { x.status != OPEN && x.netPnl.Some? && x.netPnl.value < 0.0 }

  ghost predicate Even(x: Trade) { x.status != OPEN && (x.netPnl.Some? ==> x.netPnl.value == 0.0) }

  ghost predicate HitTarget(x: Trade) { x.status == TARGET_HIT }

  ghost predicate WasStopped(x: Trade) { x.status == STOPPED }

  ghost predicate HasExpired(x: Trade) { x.status == EXPIRED }

  ghost function NetOf(x: Trade): Option<real> { x.netPnl }

  ghost function UnrealizedOf(x: Trade): Option<real> { x.unrealizedPnl }

  ghost function FeesOf(x: Trade): Option<real> { x.fees }

  ghost function SlippageOf(x: Trade): Option<real> { x.slippage }

  ghost function MinutesOf(x: Trade): Option<real> { x.holdingMinutes }

  ghost function MaeOf(x: Trade): Option<real> { x.maePct }

  ghost function MfeOf(x: Trade): Option<real> { x.mfePct }

  lemma WhereNext(trades: seq<Trade>, x: Trade, p: Trade -> bool)
    ensures Where(trades + [x], p) == if p(x) then Where(trades, p) + [x] else Where(trades, p)
  {
    assert (trades + [x])[..|trades|] == trades;
  }

  lemma SumNext(trades: seq<Trade>, x: Trade, amount: Trade -> Option<real>)
    ensures Sum(trades + [x], amount) == Sum(trades, amount) + (if amount(x).Some? then amount(x).value else 0.0)
  {
    assert (trades + [x])[..|trades|] == trades;
  }

  /** The closed list carries the exit time and net result of the trades that are not OPEN, in order. */
  ghost predicate Lists(closed: seq<Closed>, done: seq<Trade>) {
    |closed| == |done|
    && forall i :: 0 <= i < |done| ==>
         closed[i].time == done[i].exitTime
         && closed[i].net == if done[i].netPnl.Some? then done[i].netPnl.value else 0.0
  }

  ghost predicate AmountsOf(t: Totals, done: seq<Trade>, open: seq<Trade>) {
    && Lists(t.closed, done) && t.completed == |done| && t.open == |open|
    && t.realized == Sum(done, NetOf) && t.unrealized == Sum(open, UnrealizedOf)
  }

  lemma AmountsStep(t: Totals, done: seq<Trade>, open: seq<Trade>, x: Trade)
    requires AmountsOf(t, done, open)
    ensures if x.status == OPEN then AmountsOf(Add(t, x), done, open + [x]) else AmountsOf(Add(t, x), done + [x], open)
  {
    hide Sum;
    SumNext(done, x, NetOf);
    SumNext(open, x, UnrealizedOf);
  }

  /** The closed list, the realized and the unrealized amount, said of the trades themselves. */
  lemma {:induction false} AmountsAreOfTheTrades(trades: seq<Trade>)
    ensures AmountsOf(Accumulated(trades), Where(trades, IsDone), Where(trades, IsOpen))
  {
    if trades != [] {
      var front, x := trades[..|trades| - 1], trades[|trades| - 1];
      assert trades == front + [x] && Accumulated(trades) == Add(Accumulated(front), x);
      hide Where, Accumulated, AmountsOf, Add;
      AmountsAreOfTheTrades(front);
      WhereNext(front, x, IsDone);
      WhereNext(front, x, IsOpen);
      AmountsStep(Accumulated(front), Where(front, IsDone), Where(front, IsOpen), x);
    }
  }

  /** Every counter is the number of trades with that result or status. */
  lemma {:induction false} CountsAreOfTheTrades(trades: seq<Trade>)
    ensures var t := Accumulated(trades);
            && t.winners == |Where(trades, Won)| && t.losers == |Where(trades, Lost)|
            && t.breakeven == |Where(trades, Even)| && t.targetHits == |Where(trades, HitTarget)|
            && t.stopped == |Where(trades, WasStopped)| && t.expired == |Where(trades, HasExpired)|
  {
    if trades != [] {
      var front, x := trades[..|trades| - 1], trades[|trades| - 1];
      assert trades == front + [x] && Accumulated(trades) == Add(Accumulated(front), x);
      hide Where, Accumulated;
      CountsAreOfTheTrades(front);
      WhereNext(front, x, Won);
      WhereNext(front, x, Lost);
      WhereNext(front, x, Even);
      WhereNext(front, x, HitTarget);
      WhereNext(front, x, WasStopped);
      WhereNext(front, x, HasExpired);
    }
  }

  /** The values that are there, in order. */
  ghost function Values(trades: seq<Trade>, amount: Trade -> Option<real>): seq<real> {
    if trades == [] then []
    else
      var last := amount(trades[|trades| - 1]);
      Values(trades[..|trades| - 1], amount) + (if last.Some? then [last.value] else [])
  }

  lemma ValuesNext(trades: seq<Trade>, x: Trade, amount: Trade -> Option<real>)
    ensures Values(trades + [x], amount)
         == if amount(x).Some? then Values(trades, amount) + [amount(x).value] else Values(trades, amount)
  {
    assert (trades + [x])[..|trades|] == trades;
  }

  ghost predicate SamplesOf(s: Samples, trades: seq<Trade>, done: seq<Trade>) {
    && s.fees == Sum(trades, FeesOf) && s.slippage == Sum(trades, SlippageOf) && s.exposure == Sum(trades, MinutesOf)
    && s.mae == Values(trades, MaeOf) && s.mfe == Values(trades, MfeOf) && s.holding == Values(done, MinutesOf)
  }

  lemma SamplesStep(s: Samples, trades: seq<Trade>, done: seq<Trade>, x: Trade)
    requires SamplesOf(s, trades, done)
    ensures SamplesOf(Sampled(s, x), trades + [x], if x.status == OPEN then done else done + [x])
  {
    hide Sum, Values;
    SumNext(trades, x, FeesOf);
    SumNext(trades, x, SlippageOf);
    SumNext(trades, x, MinutesOf);
    ValuesNext(trades, x, MaeOf);
    ValuesNext(trades, x, MfeOf);
    ValuesNext(done, x, MinutesOf);
    assert s.mae + [] == s.mae && s.mfe + [] == s.mfe && s.holding + [] == s.holding;
  }

  /** Costs and exposure are the sums over all trades; the samples are the values the trades carry, in order, the
      holding times those of trades that are not OPEN. */
  lemma {:induction false} SamplesAreOfTheTrades(trades: seq<Trade>)
    ensures SamplesOf(Collected(trades), trades, Where(trades, IsDone))
  {
    if trades != [] {
      var front, x := trades[..|trades| - 1], trades[|trades| - 1];
      assert trades == front + [x] && Collected(trades) == Sampled(Collected(front), x);
      hide Where, Collected, SamplesOf, Sampled;
      SamplesAreOfTheTrades(front);
      WhereNext(front, x, IsDone);
      SamplesStep(Collected(front), front, Where(front, IsDone), x);
    }
  }

  // ---- drawdown ------------------------------------------------------------------------------------

  /** Equity after the first i closed trades. */
  function Equity(closed: seq<Closed>, i: nat): real
    requires i <= |closed|
  {
    Net(closed[..i])
  }

  /** The largest fall from any point to a later one, the start included. */
  ghost predicate IsDrawdown(closed: seq<Closed>, worst: real) {
    && (exists i, j :: 0 <= i <= j <= |closed| && worst == Equity(closed, i) - Equity(closed, j))
    && (forall i, j :: 0 <= i <= j <= |closed| ==> Equity(closed, i) - Equity(closed, j) <= worst)
  }

  lemma DrawdownIsUnique(closed: seq<Closed>, a: real, b: real)
    requires IsDrawdown(closed, a) && IsDrawdown(closed, b)
    ensures a == b
  {}

  lemma {:induction false} FallWithinLosses(closed: seq<Closed>, i: nat, j: nat)
    requires i <= j <= |closed|
    ensures Equity(closed, i) - Equity(closed, j) <= Loss(closed[..j]) - Loss(closed[..i])
    decreases j
  {
    if i < j {
      FallWithinLosses(closed, i, j - 1);
      assert closed[..j][..j - 1] == closed[..j - 1];
    }
  }

  lemma {:induction false} LossGrows(closed: seq<Closed>, j: nat)
    requires j <= |closed|
    ensures 0.0 <= Loss(closed[..j]) <= Loss(closed)
    decreases |closed|
  {
    if closed != [] {
      var n := |closed| - 1;
      if j <= n {
        LossGrows(closed[..n], j);
        assert closed[..n][..j] == closed[..j];
      } else {
        LossGrows(closed[..n], n);
        assert closed[..j] == closed && closed[..n][..n] == closed[..n];
      }
    }
  }

  /** A drawdown is at least what the run lost overall and at most its gross loss. */
  lemma DrawdownBounds(closed: seq<Closed>, worst: real)
    requires IsDrawdown(closed, worst)
    ensures 0.0 <= worst && -Net(closed) <= worst <= Loss(closed)
  {
    var i, j :| 0 <= i <= j <= |closed| && worst == Equity(closed, i) - Equity(closed, j);
    FallWithinLosses(closed, i, j);
    LossGrows(closed, j);
    LossGrows(closed, i);
    assert closed[..|closed|] == closed && Equity(closed, 0) - Equity(closed, |closed|) <= worst;
    assert Equity(closed, 0) - Equity(closed, 0) <= worst;
  }

  // ---- time order ----------------------------------------------------------------------------------

  /** Python's stable sort by timestamp, one insertion at a time. */
  function Insert(sorted: seq<Closed>, x: Closed): seq<Closed> {
    if sorted == [] || sorted[|sorted| - 1].time <= x.time then sorted + [x]
    else Insert(sorted[..|sorted| - 1], x) + [sorted[|sorted| - 1]]
  }

  function InTimeOrder(closed: seq<Closed>): seq<Closed> {
    if closed == [] then [] else Insert(InTimeOrder(closed[..|closed| - 1]), closed[|closed| - 1])
  }

  ghost predicate Chronological(closed: seq<Closed>) {
    forall i, j :: 0 <= i < j < |closed| ==> closed[i].time <= closed[j].time
  }

  function AtTime(closed: seq<Closed>, time: int): seq<Closed> {
    if closed == [] then []
    else
      var last := closed[|closed| - 1];
      AtTime(closed[..|closed| - 1], time) + (if last.time == time then [last] else [])
  }

  function Only(x: Closed, time: int): seq<Closed> { if x.time == time then [x] else [] }

  lemma SumsNext(closed: seq<Closed>, x: Closed)
    ensures Net(closed + [x]) == Net(closed) + x.net && Loss(closed + [x]) == Loss(closed) + Max(-x.net, 0.0)
  {
    assert (closed + [x])[..|closed|] == closed;
  }

  lemma AtTimeNext(closed: seq<Closed>, x: Closed, time: int)
    ensures AtTime(closed + [x], time) == AtTime(closed, time) + Only(x, time)
  {
    assert (closed + [x])[..|closed|] == closed;
  }

  lemma {:induction false} InsertSums(sorted: seq<Closed>, x: Closed)
    ensures Net(Insert(sorted, x)) == Net(sorted) + x.net && Loss(Insert(sorted, x)) == Loss(sorted) + Max(-x.net, 0.0)
  {
    hide Net, Loss;
    SumsNext(sorted, x);
    if sorted != [] && sorted[|sorted| - 1].time > x.time {
      var front, last := sorted[..|sorted| - 1], sorted[|sorted| - 1];
      InsertSums(front, x);
      SumsNext(Insert(front, x), last);
      SumsNext(front, last);
      assert sorted == front + [last];
    }
  }

  lemma SwapOnly(s: seq<Closed>, x: Closed, y: Closed, time: int)
    requires x.time != y.time
    ensures s + Only(x, time) + Only(y, time) == s + Only(y, time) + Only(x, time)
  {}

  lemma {:induction false} InsertStable(sorted: seq<Closed>, x: Closed, time: int)
    ensures AtTime(Insert(sorted, x), time) == AtTime(sorted, time) + Only(x, time)
  {
    hide AtTime, Only;
    if sorted == [] || sorted[|sorted| - 1].time <= x.time {
      AtTimeNext(sorted, x, time);
    } else {
      var front, last := sorted[..|sorted| - 1], sorted[|sorted| - 1];
      assert sorted == front + [last];
      InsertStable(front, x, time);
      var inserted := Insert(front, x);
      assert Insert(sorted, x) == inserted + [last];
      hide Insert;
      AtTimeNext(inserted, last, time);
      AtTimeNext(front, last, time);
      SwapOnly(AtTime(front, time), x, last, time);
    }
  }

  lemma {:induction false} InsertOrdered(sorted: seq<Closed>, x: Closed)
    requires Chronological(sorted)
    ensures Chronological(Insert(sorted, x))
    ensures forall y :: y in Insert(sorted, x) ==> y in sorted || y == x
  {
    if sorted != [] && sorted[|sorted| - 1].time > x.time {
      var n := |sorted| - 1;
      InsertOrdered(sorted[..n], x);
      var front, last := Insert(sorted[..n], x), sorted[n];
      assert forall y :: y in front ==> y.time <= last.time;
      forall i, j | 0 <= i < j < |front| + 1 ensures (front + [last])[i].time <= (front + [last])[j].time {
        if j == |front| { assert front[i] in front; }
      }
    }
  }

  /** Sorting orders by time, reorders nothing within one timestamp and changes no sum. */
  lemma {:induction false} TimeOrderKeeps(closed: seq<Closed>, time: int)
    ensures Chronological(InTimeOrder(closed)) && AtTime(InTimeOrder(closed), time) == AtTime(closed, time)
    ensures Net(InTimeOrder(closed)) == Net(closed) && Loss(InTimeOrder(closed)) == Loss(closed)
  {
    if closed != [] {
      var front, last := closed[..|closed| - 1], closed[|closed| - 1];
      var sorted := InTimeOrder(front);
      assert InTimeOrder(closed) == Insert(sorted, last) && closed == front + [last];
      hide Chronological, InTimeOrder, Insert, Net, Loss, AtTime, Only;
      TimeOrderKeeps(front, time);
      InsertOrdered(sorted, last);
      InsertSums(sorted, last);
      InsertStable(sorted, last, time);
      SumsNext(front, last);
      AtTimeNext(front, last, time);
    }
  }

  /** The single pass: the running peak and the deepest fall below it. */
  method WorstFall(closed: seq<Closed>) returns (worst: real)
    ensures IsDrawdown(closed, worst)
  {
    assert Equity(closed, 0) == 0.0;
    hide Equity;
    var peak, equity, lowest := 0.0, 0.0, 0.0;
    var n := 0;
    ghost var top, from, to := 0, 0, 0;
    while n < |closed|
      invariant 0 <= n <= |closed| && equity == Equity(closed, n)
      invariant 0 <= top <= n && peak == Equity(closed, top) && lowest <= 0.0
      invariant forall i :: 0 <= i <= n ==> Equity(closed, i) <= peak
      invariant 0 <= from <= to <= n && -lowest == Equity(closed, from) - Equity(closed, to)
      invariant forall i, j :: 0 <= i <= j <= n ==> Equity(closed, i) - Equity(closed, j) <= -lowest
    {
      EquityNext(closed, n);
      equity := equity + closed[n].net;
      n := n + 1;
      if equity > peak { peak, top := equity, n; }
      assert forall i :: 0 <= i <= n ==> Equity(closed, i) <= peak;
      if equity - peak < lowest { lowest, from, to := equity - peak, top, n; }
    }
    worst := if lowest < 0.0 then -lowest else lowest;
  }

  lemma EquityNext(closed: seq<Closed>, n: nat)
    requires n < |closed|
    ensures Equity(closed, n + 1) == Equity(closed, n) + closed[n].net
  {
    assert closed[..n + 1][..n] == closed[..n];
  }

  class MetricsAccumulator {
    var completed: nat
    var targetHits: nat
    var stopped: nat
    var expired: nat
    var open: nat
    var winners: nat
    var losers: nat
    var breakeven: nat
    var realized: real
    var unrealized: real
    var grossProfit: real
    var grossLoss: real
    var closed: seq<Closed>
    var fees: real
    var slippage: real
    var exposure: real
    var mae: seq<real>
    var mfe: seq<real>
    var holding: seq<real>

    ghost function View(): Totals
      reads this
    {
      Totals(completed, targetHits, stopped, expired, open, winners, losers, breakeven,
             realized, unrealized, grossProfit, grossLoss, closed)
    }

    ghost function Taken(): Samples
      reads this
    {
      Samples(fees, slippage, exposure, mae, mfe, holding)
    }

    /** The trades recorded so far. */
    ghost var trades: seq<Trade>

    ghost predicate Valid()
      reads this
    {
      View() == Accumulated(trades) && Taken() == Collected(trades)
    }

    constructor ()
      ensures Valid() && trades == []
    {
      completed, targetHits, stopped, expired, open := 0, 0, 0, 0, 0;
      winners, losers, breakeven := 0, 0, 0;
      realized, unrealized, grossProfit, grossLoss := 0.0, 0.0, 0.0, 0.0;
      fees, slippage, exposure := 0.0, 0.0, 0.0;
      mae, mfe, holding := [], [], [];
      closed, trades := [], [];
    }

    method AddTrade(trade: Trade)
      requires Valid()
      modifies this
      ensures Valid() && trades == old(trades) + [trade]
    {
      hide Accumulated, Collected, AddOpen, AddClosed, Sampled, Amount;
      AccumulatedNext(trades, trade);
      trades := trades + [trade];
      TakeSamples(trade);
      if trade.status == OPEN {
        RecordOpen(Amount(trade.unrealizedPnl));
        return;
      }
      RecordClosed(trade.status, Amount(trade.netPnl), trade.exitTime);
    }

    method TakeSamples(trade: Trade)
      modifies this`fees, this`slippage, this`exposure, this`mae, this`mfe, this`holding
      ensures Taken() == Sampled(old(Taken()), trade)
    {
      fees := fees + Amount(trade.fees);
      slippage := slippage + Amount(trade.slippage);
      if trade.maePct.Some? { mae := mae + [trade.maePct.value]; }
      if trade.mfePct.Some? { mfe := mfe + [trade.mfePct.value]; }
      if trade.holdingMinutes.Some? {
        exposure := exposure + trade.holdingMinutes.value;
        if trade.status != OPEN { holding := holding + [trade.holdingMinutes.value]; }
      }
    }

    method RecordOpen(amount: real)
      modifies this`open, this`unrealized
      ensures View() == AddOpen(old(View()), amount)
    {
      open := open + 1;
      unrealized := unrealized + amount;
    }

    method RecordClosed(status: Status, net: real, time: int)
      modifies this
      ensures View() == AddClosed(old(View()), status, net, time) && trades == old(trades) && Taken() == old(Taken())
    {
      CountResult(net);
      CountStatus(status);
      closed := closed + [Closed(time, net)];
    }

    /** A closed trade by its result: won, lost or neither. */
    method CountResult(net: real)
      modifies this`completed, this`realized, this`winners, this`losers, this`breakeven
      modifies this`grossProfit, this`grossLoss
      ensures completed == old(completed) + 1 && realized == old(realized) + net
      ensures winners == old(winners) + One(net > 0.0) && losers == old(losers) + One(net < 0.0)
      ensures breakeven == old(breakeven) + One(net == 0.0)
      ensures grossProfit == old(grossProfit) + Max(net, 0.0) && grossLoss == old(grossLoss) + Max(-net, 0.0)
    {
      completed := completed + 1;
      realized := realized + net;
      if net > 0.0 {
        winners := winners + 1;
        grossProfit := grossProfit + net;
      } else if net < 0.0 {
        losers := losers + 1;
        grossLoss := grossLoss + Abs(net);
      } else {
        breakeven := breakeven + 1;
      }
    }

    method CountStatus(status: Status)
      modifies this`targetHits, this`stopped, this`expired
      ensures targetHits == old(targetHits) + One(status == TARGET_HIT)
      ensures stopped == old(stopped) + One(status == STOPPED)
      ensures expired == old(expired) + One(status == EXPIRED)
    {
      match status
      case TARGET_HIT => targetHits := targetHits + 1;
      case STOPPED => stopped := stopped + 1;
      case EXPIRED => expired := expired + 1;
      case _ =>
    }

    /** The drawdown of the closed trades in time order; never more than the gross loss, never less than
        the realized loss. */
    method MaximumDrawdown() returns (worst: real)
      requires Valid()
      ensures IsDrawdown(InTimeOrder(closed), worst)
      ensures 0.0 <= worst && -realized <= worst <= grossLoss
    {
      worst := WorstFall(InTimeOrder(closed));
      DrawdownBounds(InTimeOrder(closed), worst);
      TimeOrderKeeps(closed, 0);
      TotalsAgree(trades);
    }
  }

  lemma AccumulatedNext(trades: seq<Trade>, trade: Trade)
    ensures Accumulated(trades + [trade]) == Add(Accumulated(trades), trade)
    ensures Collected(trades + [trade]) == Sampled(Collected(trades), trade)
  {
    assert (trades + [trade])[..|trades|] == trades;
  }
}
