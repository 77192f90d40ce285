/** Gap detection over candle times (backend/data/timescale.py): which candles a market should have, and
    the missing ones grouped into contiguous ranges. Times are whole seconds since the epoch, UTC. */
module GapRanges {

  datatype Timeframe = M1 | M5 | M15 | M30 | H1 | H4 | D1

  function Seconds(t: Timeframe): (s: int)
    ensures s > 0
  {
    match t
    case M1 => 60
    case M5 => 300
    case M15 => 900
    case M30 => 1800
    case H1 => 3600
    case H4 => 14400
    case D1 => 86400
  }

  // ---- sorted sets ---------------------------------------------------------------------------------

  function Elements(s: seq<int>): set<int> { set x | x in s }

  ghost predicate Increasing(s: seq<int>) { forall i, j :: 0 <= i < j < |s| ==> s[i] < s[j] }

  lemma {:induction false} LeastExists(s: set<int>) returns (m: int)
    requires s != {}
    ensures m in s && forall x :: x in s ==> m <= x
  {
    if forall y :: y !in s { assert false; }
    var y :| y in s;
    m := y;
    var rest := s - {y};
    if rest != {} {
      var n := LeastExists(rest);
      if n < y { m := n; }
      forall x | x in s ensures m <= x { assert x == y || x in rest; }
    } else {
      assert s == {y};
    }
  }

  function Least(s: set<int>): (m: int)
    requires s != {}
    ensures m in s && forall x :: x in s ==> m <= x
  {
    assert exists m :: m in s && forall x :: x in s ==> m <= x by { var m := LeastExists(s); }
    var m :| m in s && forall x :: x in s ==> m <= x;
    m
  }

  /** `sorted` of a set. */
  function Sorted(s: set<int>): seq<int> {
    if s == {} then [] else [Least(s)] + Sorted(s - {Least(s)})
  }

  lemma ElementsNext(m: int, rest: seq<int>)
    ensures Elements([m] + rest) == {m} + Elements(rest)
    ensures Increasing(rest) && (forall x :: x in Elements(rest) ==> m < x) ==> Increasing([m] + rest)
  {
    if Increasing(rest) && (forall x :: x in Elements(rest) ==> m < x) {
      var all := [m] + rest;
      forall i, j | 0 <= i < j < |all| ensures all[i] < all[j] {
        assert all[j] == rest[j - 1] && rest[j - 1] in Elements(rest);
      }
    }
  }

  lemma {:induction false} SortedNext(s: set<int>, m: int)
    requires s != {} && m == Least(s)
    ensures Sorted(s) == [m] + Sorted(s - {m})
  {}

  lemma {:induction false} Without(s: set<int>, m: int)
    requires m in s
    ensures |s| == |s - {m}| + 1 && {m} + (s - {m}) == s
  {}

  lemma {:induction false} SortedSorts(s: set<int>)
    ensures Increasing(Sorted(s)) && Elements(Sorted(s)) == s && |Sorted(s)| == |s|
  {
    if s != {} {
      var m := Least(s);
      var rest := s - {m};
      assert forall x :: x in rest ==> m < x;
      SortedSorts(rest);
      SortedNext(s, m);
      Without(s, m);
      hide Increasing, Elements, Sorted, Least;
      ElementsNext(m, Sorted(rest));
    }
  }

  // ---- ranges --------------------------------------------------------------------------------------

  datatype MissingRange = MissingRange(start: int, end: int, count: nat)

  /** The k-th time after `start`. */
  function At(start: int, k: int, step: int): int { start + k * step }

  lemma AtNext(start: int, k: int, step: int)
    ensures At(start, 0, step) == start && At(start, k + 1, step) == At(start, k, step) + step
    ensures At(start + step, k, step) == At(start, k, step) + step
  {}

  /** The candle times a range stands for: `count` of them, a step apart. */
  function Points(start: int, count: nat, step: int): seq<int> { seq(count, i => At(start, i, step)) }

  function AllPoints(ranges: seq<MissingRange>, step: int): seq<int> {
    if ranges == [] then []
    else
      var last := ranges[|ranges| - 1];
      AllPoints(ranges[..|ranges| - 1], step) + Points(last.start, last.count, step)
  }

  /** Each range spans exactly its count of steps. */
  ghost predicate Spanning(ranges: seq<MissingRange>, step: int) {
    forall r :: r in ranges ==> r.count >= 1 && r.end == At(r.start, r.count, step)
  }

  /** No range ends where the next begins. */
  ghost predicate Separated(ranges: seq<MissingRange>) {
    forall i :: 0 <= i < |ranges| - 1 ==> ranges[i].end != ranges[i + 1].start
  }

  /** Time by time: extend the last range when the time continues it, otherwise open a new one. */
  function Grouped(times: seq<int>, step: int): seq<MissingRange> {
    if times == [] then []
    else
      var n, x := |times| - 1, times[|times| - 1];
      var ranges := Grouped(times[..n], step);
      var k := |ranges| - 1;
      if ranges != [] && ranges[k].end == x
      then ranges[..k] + [MissingRange(ranges[k].start, x + step, ranges[k].count + 1)]
      else ranges + [MissingRange(x, x + step, 1)]
  }

  lemma PointsNext(start: int, count: nat, step: int)
    ensures Points(start, count + 1, step) == Points(start, count, step) + [At(start, count, step)]
    ensures Points(start, 1, step) == [start]
  {}

  /** The ranges describe these times: each spans exactly its candles, their grid points in order are
      the times themselves, and no two neighbours could be merged. */
  ghost predicate Describes(ranges: seq<MissingRange>, times: seq<int>, step: int) {
    AllPoints(ranges, step) == times && Spanning(ranges, step) && Separated(ranges)
  }

  lemma DescribesNone(step: int)
    ensures Describes([], [], step) && Grouped([], step) == []
  {}

  lemma Extended(ranges: seq<MissingRange>, times: seq<int>, step: int)
    requires ranges != [] && Describes(ranges, times, step)
    ensures var k := |ranges| - 1;
            var r := ranges[k];
            Describes(ranges[..k] + [MissingRange(r.start, r.end + step, r.count + 1)], times + [r.end], step)
  {
    hide At, Points;
    var k := |ranges| - 1;
    var r := ranges[k];
    var after := ranges[..k] + [MissingRange(r.start, r.end + step, r.count + 1)];
    assert r in ranges && after[..k] == ranges[..k];
    PointsNext(r.start, r.count, step);
    AtNext(r.start, r.count, step);
    assert forall q :: q in after ==> q in ranges || q == after[k];
  }

  lemma Opened(ranges: seq<MissingRange>, times: seq<int>, x: int, step: int)
    requires Describes(ranges, times, step) && (ranges == [] || ranges[|ranges| - 1].end != x)
    ensures Describes(ranges + [MissingRange(x, x + step, 1)], times + [x], step)
  {
    hide At, Points;
    var after := ranges + [MissingRange(x, x + step, 1)];
    assert after[..|ranges|] == ranges;
    PointsNext(x, 1, step);
    AtNext(x, 0, step);
  }

  lemma {:induction false} GroupedNext(times: seq<int>, before: seq<MissingRange>, step: int)
    requires times != [] && before == Grouped(times[..|times| - 1], step)
    ensures var x, k := times[|times| - 1], |before| - 1;
            Grouped(times, step) ==
              if before != [] && before[k].end == x
              then before[..k] + [MissingRange(before[k].start, x + step, before[k].count + 1)]
              else before + [MissingRange(x, x + step, 1)]
  {}

  /** Grouping describes the times it is given, whatever they are. */
  lemma {:induction false} GroupedDescribes(times: seq<int>, step: int)
    ensures Describes(Grouped(times, step), times, step)
  {
    hide Describes, Grouped;
    if times == [] {
      DescribesNone(step);
    } else {
      var n, x := |times| - 1, times[|times| - 1];
      var before := Grouped(times[..n], step);
      GroupedDescribes(times[..n], step);
      GroupedNext(times, before, step);
      assert times == times[..n] + [x];
      if before != [] && before[|before| - 1].end == x {
        Extended(before, times[..n], step);
      } else {
        Opened(before, times[..n], x, step);
      }
    }
  }

  lemma {:induction false} GroupedLast(times: seq<int>, step: int)
    ensures Grouped(times, step) == [] <==> times == []
    ensures times != [] ==> Grouped(times, step)[|Grouped(times, step)| - 1].end == times[|times| - 1] + step
  {}

  lemma DropLast(ranges: seq<MissingRange>, times: seq<int>, step: int)
    requires ranges != [] && Describes(ranges, times, step) && ranges[|ranges| - 1].count == 1
    ensures times != [] && Describes(ranges[..|ranges| - 1], times[..|times| - 1], step)
    ensures var r := ranges[|ranges| - 1]; r.start == times[|times| - 1] && r.end == r.start + step
    ensures |ranges| > 1 ==> ranges[|ranges| - 2].end != ranges[|ranges| - 1].start
  {
    hide At, Points;
    var r := ranges[|ranges| - 1];
    assert r in ranges;
    PointsNext(r.start, 1, step);
    AtNext(r.start, 0, step);
    assert times == AllPoints(ranges[..|ranges| - 1], step) + [r.start];
  }

  lemma ShortenLast(ranges: seq<MissingRange>, times: seq<int>, step: int)
    requires ranges != [] && Describes(ranges, times, step) && ranges[|ranges| - 1].count > 1
    ensures var r := ranges[|ranges| - 1];
            && times != [] && r.end - step == times[|times| - 1]
            && Describes(ranges[..|ranges| - 1] + [MissingRange(r.start, r.end - step, r.count - 1)],
               times[..|times| - 1], step)
  {
    hide At, Points;
    var n := |ranges| - 1;
    var r := ranges[n];
    assert r in ranges;
    var shorter := ranges[..n] + [MissingRange(r.start, r.end - step, r.count - 1)];
    PointsNext(r.start, r.count - 1, step);
    AtNext(r.start, r.count - 1, step);
    assert shorter[..n] == ranges[..n];
    assert forall q :: q in shorter ==> q in ranges || q == shorter[n];
    assert times == AllPoints(shorter, step) + [r.end - step];
  }

  lemma DescribesNothing(times: seq<int>, step: int)
    requires Describes([], times, step)
    ensures times == []
  {}

  /** The converse: nothing else describes them, so the ranges returned are the only grouping. */
  lemma {:induction false} GroupedIsUnique(ranges: seq<MissingRange>, times: seq<int>, step: int)
    requires Describes(ranges, times, step)
    ensures Grouped(times, step) == ranges
    decreases |times|
  {
    hide Grouped;
    if ranges == [] {
      DescribesNothing(times, step);
      DescribesNone(step);
    } else {
      var n := |ranges| - 1;
      var r := ranges[n];
      assert ranges == ranges[..n] + [r];
      assert r.count >= 1 by { assert r in ranges; }
      hide Describes;
      if r.count == 1 {
        DropLast(ranges, times, step);
        GroupedIsUnique(ranges[..n], times[..|times| - 1], step);
        GroupedNext(times, ranges[..n], step);
      } else {
        ShortenLast(ranges, times, step);
        var shorter := ranges[..n] + [MissingRange(r.start, r.end - step, r.count - 1)];
        GroupedIsUnique(shorter, times[..|times| - 1], step);
        GroupedNext(times, shorter, step);
        assert shorter[..n] == ranges[..n];
      }
    }
  }

  // ---- order and maximality ------------------------------------------------------------------------

  ghost predicate Spaced(times: seq<int>, step: int) {
    forall i :: 0 <= i < |times| - 1 ==> times[i] + step <= times[i + 1]
  }

  ghost predicate Ordered(ranges: seq<MissingRange>) {
    forall i :: 0 <= i < |ranges| - 1 ==> ranges[i].end <= ranges[i + 1].start
  }

  /** The ranges come in order without overlap exactly when the missing times are a step apart. */
  lemma {:induction false} OrderedExactlyWhenSpaced(times: seq<int>, step: int)
    requires step > 0
    ensures Ordered(Grouped(times, step)) <==> Spaced(times, step)
  {
    if times == [] {
      assert Grouped(times, step) == [];
    } else {
      hide Ordered, Spaced, Grouped;
      var n, x := |times| - 1, times[|times| - 1];
      var before := Grouped(times[..n], step);
      GroupedNext(times, before, step);
      OrderedExactlyWhenSpaced(times[..n], step);
      GroupedLast(times[..n], step);
      SpacedNext(times, step);
      OrderedStep(before, x, step);
    }
  }

  /** One more time keeps the ranges in order exactly when it is not before the end of the last. */
  lemma OrderedStep(before: seq<MissingRange>, x: int, step: int)
    ensures var k := |before| - 1;
            var after := if before != [] && before[k].end == x
                         then before[..k] + [MissingRange(before[k].start, x + step, before[k].count + 1)]
                         else before + [MissingRange(x, x + step, 1)];
            Ordered(after) <==> Ordered(before) && (before != [] ==> before[k].end <= x)
  {
    hide Ordered;
    var k := |before| - 1;
    if before != [] && before[k].end == x {
      OrderedExtend(before, MissingRange(before[k].start, x + step, before[k].count + 1));
    } else {
      var after := before + [MissingRange(x, x + step, 1)];
      assert after[..k + 1] == before;
      OrderedNext(after);
    }
  }

  lemma SpacedNext(times: seq<int>, step: int)
    requires times != []
    ensures var n := |times| - 1;
            Spaced(times, step) <==> Spaced(times[..n], step) && (n > 0 ==> times[n - 1] + step <= times[n])
  {
    var n := |times| - 1;
    if Spaced(times[..n], step) && (n > 0 ==> times[n - 1] + step <= times[n]) {
      forall i | 0 <= i < |times| - 1 ensures times[i] + step <= times[i + 1] {
        if i < n - 1 { assert times[..n][i] + step <= times[..n][i + 1]; }
      }
    }
  }

  lemma OrderedNext(ranges: seq<MissingRange>)
    requires ranges != []
    ensures var n := |ranges| - 1;
            Ordered(ranges) <==> Ordered(ranges[..n]) && (n > 0 ==> ranges[n - 1].end <= ranges[n].start)
  {
    var n := |ranges| - 1;
    if Ordered(ranges[..n]) && (n > 0 ==> ranges[n - 1].end <= ranges[n].start) {
      forall i | 0 <= i < |ranges| - 1 ensures ranges[i].end <= ranges[i + 1].start {
        if i < n - 1 { assert ranges[..n][i].end <= ranges[..n][i + 1].start; }
      }
    }
  }

  lemma OrderedExtend(ranges: seq<MissingRange>, last: MissingRange)
    requires ranges != [] && last.start == ranges[|ranges| - 1].start
    ensures Ordered(ranges[..|ranges| - 1] + [last]) <==> Ordered(ranges)
  {
    var k := |ranges| - 1;
    OrderedNext(ranges);
    OrderedNext(ranges[..k] + [last]);
    assert (ranges[..k] + [last])[..k] == ranges[..k];
  }

  /** A range lies after everything before it: strictly, when neighbours cannot be merged. */
  lemma {:induction false} OrderedAll(ranges: seq<MissingRange>, step: int, i: nat, j: nat)
    requires step > 0 && Ordered(ranges) && Spanning(ranges, step) && i < j < |ranges|
    ensures ranges[i].end <= ranges[j].start
    ensures Separated(ranges) ==> ranges[i].end < ranges[j].start
    decreases j
  {
    if i < j - 1 {
      OrderedAll(ranges, step, i, j - 1);
      assert ranges[j - 1] in ranges;
      Between(ranges[j - 1].start, 0, ranges[j - 1].count, step);
    }
  }

  lemma {:induction false} PointOwner(ranges: seq<MissingRange>, step: int, t: int) returns (i: nat, k: nat)
    requires t in AllPoints(ranges, step)
    ensures i < |ranges| && k < ranges[i].count && t == At(ranges[i].start, k, step)
  {
    hide At;
    var n := |ranges| - 1;
    if t in AllPoints(ranges[..n], step) {
      i, k := PointOwner(ranges[..n], step, t);
    } else {
      i := n;
      k :| 0 <= k < ranges[n].count && Points(ranges[n].start, ranges[n].count, step)[k] == t;
    }
  }

  lemma Between(start: int, k: nat, count: nat, step: int)
    requires k < count && step > 0
    ensures start <= At(start, k, step) && At(start, k, step) + step <= At(start, count, step)
  {
    var d := count - (k + 1);
    assert d * step >= 0 && k * step >= 0;
    assert count * step == d * step + k * step + step by { assert count == d + k + 1; }
  }

  /** With times a step apart, no range can be extended at either end by another missing time. */
  lemma RangesAreMaximal(ranges: seq<MissingRange>, times: seq<int>, step: int, i: nat)
    requires step > 0 && Spaced(times, step) && ranges == Grouped(times, step) && i < |ranges|
    ensures ranges[i].end !in times && ranges[i].start - step !in times
  {
    hide Grouped, Spaced;
    GroupedDescribes(times, step);
    OrderedExactlyWhenSpaced(times, step);
    NotOnARange(ranges, step, i, ranges[i].end);
    NotOnARange(ranges, step, i, ranges[i].start - step);
  }

  lemma NotOnARange(ranges: seq<MissingRange>, step: int, i: nat, t: int)
    requires step > 0 && i < |ranges| && Ordered(ranges) && Spanning(ranges, step) && Separated(ranges)
    requires t == ranges[i].end || t == ranges[i].start - step
    ensures t !in AllPoints(ranges, step)
  {
    hide At, AllPoints, Ordered, Separated;
    var r := ranges[i];
    assert r in ranges;
    Between(r.start, 0, r.count, step);
    if t in AllPoints(ranges, step) {
      var j, k := PointOwner(ranges, step, t);
      assert ranges[j] in ranges;
      Between(ranges[j].start, k, ranges[j].count, step);
      if j < i { OrderedAll(ranges, step, j, i); } else if j > i { OrderedAll(ranges, step, i, j); }
    }
  }

  function TotalMissing(ranges: seq<MissingRange>): nat {
    if ranges == [] then 0 else TotalMissing(ranges[..|ranges| - 1]) + ranges[|ranges| - 1].count
  }

  lemma {:induction false} TotalIsPoints(ranges: seq<MissingRange>, step: int)
    ensures TotalMissing(ranges) == |AllPoints(ranges, step)|
  {
    if ranges != [] { TotalIsPoints(ranges[..|ranges| - 1], step); }
  }

  function Missing(expected: seq<int>, actual: set<int>): set<int> { Elements(expected) - actual }

  /** Nothing is reported exactly when nothing is missing; otherwise the ranges' candles are exactly the
      missing ones. */
  lemma {:induction false} RangesAreTheMissing(expected: seq<int>, actual: set<int>, step: int)
    ensures var ranges := Grouped(Sorted(Missing(expected, actual)), step);
            && Elements(AllPoints(ranges, step)) == Missing(expected, actual)
            && TotalMissing(ranges) == |Missing(expected, actual)|
            && (ranges == [] <==> Elements(expected) <= actual)
  {
    hide Sorted, Grouped, Elements;
    var missing := Sorted(Missing(expected, actual));
    SortedSorts(Missing(expected, actual));
    GroupedDescribes(missing, step);
    GroupedLast(missing, step);
    TotalIsPoints(Grouped(missing, step), step);
    assert missing == [] <==> |Missing(expected, actual)| == 0;
    SubtractNothing(Elements(expected), actual);
  }

  lemma ElementsWithin(times: seq<int>, within: set<int>)
    ensures Elements(times) <= within <==> forall t :: t in times ==> t in within
  {
    assert forall t :: t in times <==> t in Elements(times);
    if forall t :: t in times ==> t in within {
      assert forall t :: t in Elements(times) ==> t in within;
    }
  }

  lemma SubtractNothing(a: set<int>, b: set<int>)
    ensures a <= b <==> |a - b| == 0
  {
    assert a <= b ==> a - b == {};
    assert forall x :: x in a && x !in b ==> x in a - b;
    if forall x :: x in a ==> x in b { assert a <= b; }
  }

  /** The scan of `contiguous_missing_ranges` over the sorted missing times. */
  method GroupTimes(missing: seq<int>, step: int) returns (result: seq<MissingRange>)
    ensures result == Grouped(missing, step)
  {
    hide Grouped;
    DescribesNone(step);
    if |missing| == 0 {
      return [];
    }
    result := [];
    var start, previous, count := missing[0], missing[0], 1;
    var i := 1;
    assert missing[..1][..0] == [];
    GroupedNext(missing[..1], [], step);
    while i < |missing|
      invariant 1 <= i <= |missing| && count >= 1
      invariant Grouped(missing[..i], step) == result + [MissingRange(start, previous + step, count)]
    {
      var item := missing[i];
      assert missing[..i + 1][..i] == missing[..i];
      ghost var before := Grouped(missing[..i], step);
      GroupedNext(missing[..i + 1], before, step);
      assert before[..|before| - 1] == result;
      if item == previous + step {
        previous, count := item, count + 1;
      } else {
        result := result + [MissingRange(start, previous + step, count)];
        start, previous, count := item, item, 1;
      }
      i := i + 1;
    }
    assert missing[..i] == missing;
    result := result + [MissingRange(start, previous + step, count)];
  }

  /** `contiguous_missing_ranges`. */
  method ContiguousMissingRanges(expected: seq<int>, actual: set<int>, step: int) returns (result: seq<MissingRange>)
    ensures result == Grouped(Sorted(Missing(expected, actual)), step)
    ensures Elements(AllPoints(result, step)) == Missing(expected, actual)
    ensures TotalMissing(result) == |Missing(expected, actual)|
    ensures result == [] <==> Elements(expected) <= actual
  {
    result := GroupTimes(Sorted(Missing(expected, actual)), step);
    RangesAreTheMissing(expected, actual, step);
  }

  /** Gaps of spaced expected times are themselves spaced. */
  lemma MissingIsSpaced(expected: seq<int>, actual: set<int>, step: int)
    requires step > 0 && Spaced(expected, step)
    ensures Spaced(Sorted(Missing(expected, actual)), step)
  {
    var missing := Sorted(Missing(expected, actual));
    SortedSorts(Missing(expected, actual));
    forall i | 0 <= i < |missing| - 1 ensures missing[i] + step <= missing[i + 1] {
      assert missing[i] in Elements(missing) && missing[i + 1] in Elements(missing);
      var a :| 0 <= a < |expected| && expected[a] == missing[i];
      var b :| 0 <= b < |expected| && expected[b] == missing[i + 1];
      if a <= b { SpacedAll(expected, step, a, b); } else { SpacedAll(expected, step, b, a); }
    }
  }

  lemma {:induction false} SpacedAll(times: seq<int>, step: int, i: nat, j: nat)
    requires step > 0 && Spaced(times, step) && i <= j < |times|
    ensures times[i] <= times[j] && (i < j ==> times[i] + step <= times[j])
    decreases j
  {
    if i < j { SpacedAll(times, step, i, j - 1); }
  }

  // ---- expected times -------------------------------------------------------------------------------

  /** The candles of one trading period that lie in the window: those from `from` on, one step after
      another, that close by `until`. */
  function Candles(from: int, until: int, lower: int, upper: int, step: int): seq<int>
    requires step > 0
    decreases until - from
  {
    if from + step <= until
    then (if from >= lower && from + step <= upper then [from] else [])
      + Candles(from + step, until, lower, upper, step)
    else []
  }

  ghost predicate OnGrid(t: int, from: int, until: int, step: int) {
    exists k: nat :: t == At(from, k, step) && t + step <= until
  }

  lemma OnGridNext(t: int, from: int, until: int, step: int)
    requires step > 0
    ensures OnGrid(t, from, until, step) <==> (t == from && t + step <= until) || OnGrid(t, from + step, until, step)
    ensures OnGrid(t, from, until, step) ==> from <= t && t + step <= until
  {
    hide At;
    if OnGrid(t, from, until, step) {
      var k: nat :| t == At(from, k, step) && t + step <= until;
      AtNext(from, k - 1, step);
      Between(from, k, k + 1, step);
      if k > 0 { assert t == At(from + step, k - 1, step); }
    }
    if OnGrid(t, from + step, until, step) {
      var k: nat :| t == At(from + step, k, step) && t + step <= until;
      AtNext(from, k, step);
      assert t == At(from, k + 1, step);
    }
    AtNext(from, 0, step);
  }

  /** Exactly the candles on the grid that lie in the window, in order and at least a step apart. */
  lemma {:induction false} CandlesExact(from: int, until: int, lower: int, upper: int, step: int, t: int)
    requires step > 0
    ensures t in Candles(from, until, lower, upper, step) <==>
              OnGrid(t, from, until, step) && lower <= t && t + step <= upper
    decreases until - from
  {
    hide OnGrid;
    OnGridNext(t, from, until, step);
    if from + step <= until {
      CandlesExact(from + step, until, lower, upper, step, t);
      var rest := Candles(from + step, until, lower, upper, step);
      assert t in Candles(from, until, lower, upper, step) <==>
        (t == from && from >= lower && from + step <= upper) || t in rest;
    } else {
      OnGridNext(t, from + step, until, step);
    }
  }

  ghost predicate Apart(times: seq<int>, step: int) {
    forall i, j :: 0 <= i < j < |times| ==> times[i] + step <= times[j]
  }

  lemma ApartJoins(a: seq<int>, b: seq<int>, step: int)
    requires Apart(a, step) && Apart(b, step) && forall x, y :: x in a && y in b ==> x + step <= y
    ensures Apart(a + b, step)
  {
    var all := a + b;
    forall i, j | 0 <= i < j < |all| ensures all[i] + step <= all[j] {
      if i < |a| <= j { assert all[i] in a && all[j] in b; }
    }
  }

  lemma {:induction false} CandlesApart(from: int, until: int, lower: int, upper: int, step: int)
    requires step > 0
    ensures Apart(Candles(from, until, lower, upper, step), step)
    decreases until - from
  {
    if from + step <= until {
      CandlesApart(from + step, until, lower, upper, step);
      var rest := Candles(from + step, until, lower, upper, step);
      forall y | y in rest ensures from + step <= y {
        CandlesExact(from + step, until, lower, upper, step, y);
        OnGridNext(y, from + step, until, step);
      }
      ApartJoins(if from >= lower && from + step <= upper then [from] else [], rest, step);
    }
  }

  const DAY := 86400

  // The NSE session, in seconds of the UTC day.
  /** 09:15 of the day in India, which is five and a half hours ahead. */
  function OpensAt(day: int): (r: int)
    ensures r + 5 * 3600 + 30 * 60 == day * 86400 + 9 * 3600 + 15 * 60
  {
    day * DAY + 13500
  }

  /** And 15:30. */
  function ClosesAt(day: int): (r: int)
    ensures r + 5 * 3600 + 30 * 60 == day * 86400 + 15 * 3600 + 30 * 60
  {
    day * DAY + 36000
  }

  function SessionCandles(day: int, lower: int, upper: int, step: int): seq<int>
    requires step > 0
  {
    Candles(OpensAt(day), ClosesAt(day), lower, upper, step)
  }

  function NseTimes(days: seq<int>, lower: int, upper: int, step: int): seq<int>
    requires step > 0
  {
    if days == [] then []
    else NseTimes(days[..|days| - 1], lower, upper, step) + SessionCandles(days[|days| - 1], lower, upper, step)
  }

  ghost predicate InSession(t: int, day: int, step: int) { OnGrid(t, OpensAt(day), ClosesAt(day), step) }

  lemma {:induction false} NseTimesExact(days: seq<int>, lower: int, upper: int, step: int, t: int)
    requires step > 0
    ensures t in NseTimes(days, lower, upper, step) <==>
              (exists d :: d in days && InSession(t, d, step)) && lower <= t && t + step <= upper
  {
    hide OnGrid, Candles;
    if days != [] {
      var n := |days| - 1;
      NseTimesExact(days[..n], lower, upper, step, t);
      CandlesExact(OpensAt(days[n]), ClosesAt(days[n]), lower, upper, step, t);
      assert days == days[..n] + [days[n]];
      assert InSession(t, days[n], step) == OnGrid(t, OpensAt(days[n]), ClosesAt(days[n]), step);
    }
  }

  lemma {:induction false} NseTimesApart(days: seq<int>, lower: int, upper: int, step: int)
    requires step > 0 && Increasing(days)
    ensures Apart(NseTimes(days, lower, upper, step), step)
  {
    hide Candles;
    if days != [] {
      var n := |days| - 1;
      var early, late := NseTimes(days[..n], lower, upper, step), SessionCandles(days[n], lower, upper, step);
      NseTimesApart(days[..n], lower, upper, step);
      CandlesApart(OpensAt(days[n]), ClosesAt(days[n]), lower, upper, step);
      forall x, y | x in early && y in late ensures x + step <= y {
        NseTimesExact(days[..n], lower, upper, step, x);
        CandlesExact(OpensAt(days[n]), ClosesAt(days[n]), lower, upper, step, y);
        hide OnGrid;
        var d :| d in days[..n] && InSession(x, d, step);
        OnGridNext(x, OpensAt(d), ClosesAt(d), step);
        OnGridNext(y, OpensAt(days[n]), ClosesAt(days[n]), step);
      }
      ApartJoins(early, late, step);
    }
  }

  // ---- the builders --------------------------------------------------------------------------------

  /** `crypto_expected_open_times`: a crypto market trades without a break. */
  method CryptoExpectedOpenTimes(start: int, end: int, step: int) returns (result: seq<int>)
    requires step > 0
    ensures result == Candles(start, end, start, end, step)
  {
    result := [];
    var current := start;
    while current + step <= end
      invariant current >= start
      invariant result + Candles(current, end, start, end, step) == Candles(start, end, start, end, step)
      decreases end - current
    {
      result := result + [current];
      current := current + step;
    }
  }

  /** `nse_expected_open_times`: explicit session dates only, each once and in order. */
  method NseExpectedOpenTimes(sessions: set<int>, lower: int, upper: int, step: int) returns (result: seq<int>)
    requires step > 0
    ensures result == NseTimes(Sorted(sessions), lower, upper, step)
  {
    hide Sorted;
    var days := Sorted(sessions);
    result := [];
    var i := 0;
    while i < |days|
      invariant 0 <= i <= |days|
      invariant result == NseTimes(days[..i], lower, upper, step)
    {
      var before := result;
      var current, closed := OpensAt(days[i]), ClosesAt(days[i]);
      while current + step <= closed
        invariant result + Candles(current, closed, lower, upper, step) ==
                    before + SessionCandles(days[i], lower, upper, step)
        decreases closed - current
      {
        if current >= lower && current + step <= upper {
          result := result + [current];
        }
        current := current + step;
      }
      i := i + 1;
      assert days[..i][..i - 1] == days[..i - 1];
    }
    assert days[..i] == days;
  }

  // ---- what a series should hold -------------------------------------------------------------------

  datatype Market = NSE | CRYPTO | OtherMarket

  /** `session_dates` reads the trading days whose UTC date lies between those of the two times. */
  function SessionDates(calendar: set<int>, start: int, end: int): set<int> {
    set d | d in calendar && start / DAY <= d <= end / DAY
  }

  /** `expected_times`; other markets are refused before this is reached. */
  function Expected(market: Market, calendar: set<int>, start: int, end: int, step: int): seq<int>
    requires step > 0
  {
    match market
    case CRYPTO => Candles(start, end, start, end, step)
    case NSE => NseTimes(Sorted(SessionDates(calendar, start, end)), start, end, step)
    case OtherMarket => []
  }

  /** The candle that opens at t trades on this market. */
  ghost predicate Trades(market: Market, calendar: set<int>, start: int, end: int, step: int, t: int) {
    match market
    case CRYPTO => OnGrid(t, start, end, step)
    case NSE => exists d :: d in calendar && InSession(t, d, step)
    case OtherMarket => false
  }

  /** The expected times of a window are exactly the market's candles in it: reading only the session
      dates near the window loses none. */
  lemma ExpectedExact(market: Market, calendar: set<int>, start: int, end: int, step: int, t: int)
    requires step > 0
    ensures t in Expected(market, calendar, start, end, step) <==>
              Trades(market, calendar, start, end, step, t) && start <= t && t + step <= end
  {
    hide OnGrid, Candles, NseTimes;
    match market
    case CRYPTO => CandlesExact(start, end, start, end, step, t);
    case OtherMarket =>
    case NSE =>
      var days := SessionDates(calendar, start, end);
      SortedSorts(days);
      NseTimesExact(Sorted(days), start, end, step, t);
      forall d ensures d in Sorted(days) <==> d in days { assert d in Elements(Sorted(days)) <==> d in days; }
      if start <= t && t + step <= end {
        forall d | d in calendar && InSession(t, d, step) ensures d in days { NearTheWindow(d, start, end, step, t); }
      }
  }

  lemma NearTheWindow(d: int, start: int, end: int, step: int, t: int)
    requires step > 0 && InSession(t, d, step) && start <= t && t + step <= end
    ensures start / DAY <= d <= end / DAY
  {
    OnGridNext(t, OpensAt(d), ClosesAt(d), step);
    DayOf(t, d);
    DayOrder(start, t);
    DayOrder(t, end);
  }

  lemma DayOf(t: int, d: int)
    requires d * DAY <= t < d * DAY + DAY
    ensures t / DAY == d
  {}

  lemma DayOrder(a: int, b: int)
    requires a <= b
    ensures a / DAY <= b / DAY
  {}

  /** Expected times are always a step apart, so the gap ranges of either market are ordered, disjoint and
      maximal. */
  lemma GapsAreOrdered(market: Market, calendar: set<int>, start: int, end: int, step: int, actual: set<int>)
    requires step > 0
    ensures var ranges := Grouped(Sorted(Missing(Expected(market, calendar, start, end, step), actual)), step);
            && Ordered(ranges)
            && forall i :: 0 <= i < |ranges| ==>
                 && ranges[i].end !in Missing(Expected(market, calendar, start, end, step), actual)
                 && ranges[i].start - step !in Missing(Expected(market, calendar, start, end, step), actual)
  {
    hide Candles, NseTimes, Grouped, Ordered;
    var expected := Expected(market, calendar, start, end, step);
    assert Apart(expected, step) by {
      match market
      case CRYPTO => CandlesApart(start, end, start, end, step);
      case OtherMarket =>
      case NSE =>
        SortedSorts(SessionDates(calendar, start, end));
        NseTimesApart(Sorted(SessionDates(calendar, start, end)), start, end, step);
    }
    MissingIsSpaced(expected, actual, step);
    var missing := Missing(expected, actual);
    var times := Sorted(missing);
    SortedSorts(missing);
    OrderedExactlyWhenSpaced(times, step);
    var ranges := Grouped(times, step);
    forall i | 0 <= i < |ranges| ensures ranges[i].end !in missing && ranges[i].start - step !in missing {
      RangesAreMaximal(ranges, times, step, i);
      assert forall x :: x in Elements(times) <==> x in missing;
    }
  }

  lemma NoDailySession(t: int, d: int)
    ensures !InSession(t, d, Seconds(D1))
  {
    OnGridNext(t, OpensAt(d), ClosesAt(d), Seconds(D1));
  }

  /** An NSE session is shorter than a day, so no daily candle is ever expected of that market. */
  lemma DailySessionsExpectNothing(calendar: set<int>, start: int, end: int)
    ensures forall t :: t !in Expected(NSE, calendar, start, end, Seconds(D1))
  {
    var expected := Expected(NSE, calendar, start, end, Seconds(D1));
    hide OnGrid, Expected;
    forall t ensures t !in expected {
      ExpectedExact(NSE, calendar, start, end, Seconds(D1), t);
      forall d ensures !InSession(t, d, Seconds(D1)) { NoDailySession(t, d); }
    }
  }
}
