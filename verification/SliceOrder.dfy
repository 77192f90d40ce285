/** What sorting the purchases by time does to a FIFO queue: cutting the same units off the front leaves the
    same queue exactly when the purchases that are still held were already in their place. */
module SliceOrder {
  import opened Common
  import opened Fifo

  /** Where a purchase goes among earlier ones in order of time: after every one not later than it. */
  ghost function Rank(sorted: seq<Slice>, at: int): nat
    ensures Rank(sorted, at) <= |sorted|
  {
    if sorted == [] || sorted[|sorted| - 1].at <= at then |sorted| else Rank(sorted[..|sorted| - 1], at)
  }

  ghost function Spliced(s: seq<Slice>, p: nat, x: Slice): seq<Slice>
    requires p <= |s|
  {
    s[..p] + [x] + s[p..]
  }

  /** The purchases in order of time, those of one time in the order given. */
  ghost function ByTime(s: seq<Slice>): seq<Slice> {
    if s == [] then []
    else
      var n := |s| - 1;
      var rest := ByTime(s[..n]);
      Spliced(rest, Rank(rest, s[n].at), s[n])
  }

  ghost predicate InTime(s: seq<Slice>) { forall i, j :: 0 <= i < j < |s| ==> s[i].at <= s[j].at }

  ghost predicate DistinctIds(s: seq<Slice>) { forall i, j :: 0 <= i < j < |s| ==> s[i].id != s[j].id }

  ghost predicate AllBy(s: seq<Slice>, at: int) { forall i :: 0 <= i < |s| ==> s[i].at <= at }

  ghost predicate AllAfter(s: seq<Slice>, at: int) { forall i :: 0 <= i < |s| ==> s[i].at > at }

  lemma {:induction false} RankSplit(x: seq<Slice>, y: seq<Slice>, at: int)
    requires AllBy(x, at) && AllAfter(y, at)
    ensures Rank(x + y, at) == |x|
    decreases |y|
  {
    if y == [] {
      assert x + y == x;
    } else {
      var n := |y| - 1;
      RankSplit(x, y[..n], at);
      assert (x + y)[..|x + y| - 1] == x + y[..n];
    }
  }

  lemma {:induction false} RankAfter(s: seq<Slice>, at: int)
    requires InTime(s)
    ensures AllBy(s[..Rank(s, at)], at) && AllAfter(s[Rank(s, at)..], at)
  {
    if s != [] && s[|s| - 1].at > at {
      var n := |s| - 1;
      RankAfter(s[..n], at);
      var p := Rank(s[..n], at);
      assert s[..n][..p] == s[..p] && s[p..] == s[..n][p..] + [s[n]];
    }
  }

  lemma SplicedIs(s: seq<Slice>, p: nat, x: Slice)
    requires p <= |s|
    ensures multiset(Spliced(s, p, x)) == multiset(s) + multiset{x} && |Spliced(s, p, x)| == |s| + 1
    ensures Quantity(Spliced(s, p, x)) == Quantity(s) + x.quantity
    ensures InTime(s) && AllBy(s[..p], x.at) && AllAfter(s[p..], x.at) ==> InTime(Spliced(s, p, x))
  {
    var a, b := s[..p], s[p..];
    assert s == a + b;
    QuantityJoins(a, b);
    QuantityJoins(a, [x]);
    QuantityJoins(a + [x], b);
    assert [x][1..] == [];
    assert Quantity([x]) == x.quantity;
    if InTime(s) && AllBy(a, x.at) && AllAfter(b, x.at) { SplicedInTime(a, b, x); }
  }

  lemma SplicedInTime(a: seq<Slice>, b: seq<Slice>, x: Slice)
    requires InTime(a + b) && AllBy(a, x.at) && AllAfter(b, x.at)
    ensures InTime(a + [x] + b)
  {
    var s, r := a + b, a + [x] + b;
    forall i, j | 0 <= i < j < |r| ensures r[i].at <= r[j].at {
      if i != |a| && j != |a| {
        var i', j' := if i < |a| then i else i - 1, if j < |a| then j else j - 1;
        assert r[i] == s[i'] && r[j] == s[j'];
      }
    }
  }

  lemma {:induction false} QuantityJoins(a: seq<Slice>, b: seq<Slice>)
    ensures Quantity(a + b) == Quantity(a) + Quantity(b)
  {
    if a == [] {
      assert a + b == b;
    } else {
      assert (a + b)[1..] == a[1..] + b;
      QuantityJoins(a[1..], b);
    }
  }

  /** The same purchases, in time order, with the same units. */
  lemma {:induction false} ByTimeSorts(s: seq<Slice>)
    ensures multiset(ByTime(s)) == multiset(s) && |ByTime(s)| == |s| && InTime(ByTime(s))
    ensures Quantity(ByTime(s)) == Quantity(s)
  {
    hide InTime, AllBy, AllAfter, Spliced, Rank;
    if s == [] {
      EmptyInTime();
    } else {
      var n := |s| - 1;
      ByTimeSorts(s[..n]);
      var rest := ByTime(s[..n]);
      RankAfter(rest, s[n].at);
      SplicedIs(rest, Rank(rest, s[n].at), s[n]);
      assert s == s[..n] + [s[n]];
      assert multiset(s) == multiset(s[..n]) + multiset{s[n]};
      LastQuantity(s);
    }
  }

  lemma EmptyInTime()
    ensures InTime([])
  {}

  lemma LastQuantity(s: seq<Slice>)
    requires s != []
    ensures Quantity(s) == Quantity(s[..|s| - 1]) + s[|s| - 1].quantity
  {
    var n := |s| - 1;
    assert s == s[..n] + [s[n]] && [s[n]][1..] == [];
    QuantityJoins(s[..n], [s[n]]);
    assert Quantity([s[n]]) == s[n].quantity;
  }

  lemma SameElements(s: seq<Slice>, t: seq<Slice>, x: Slice)
    requires multiset(s) == multiset(t)
    ensures x in s <==> x in t
  {
    assert x in s <==> x in multiset(s);
    assert x in t <==> x in multiset(t);
  }

  lemma ByTimeSound(s: seq<Slice>)
    requires Sound(s)
    ensures Sound(ByTime(s))
  {
    ByTimeSorts(s);
    var r := ByTime(s);
    forall i | 0 <= i < |r| ensures ValidSlice(r[i]) {
      assert r[i] in r;
      SameElements(r, s, r[i]);
    }
  }

  // ---- cutting -------------------------------------------------------------------------------------

  /** The queue is the purchases from k on, the first perhaps in part. */
  ghost predicate TailOf(queue: seq<Slice>, s: seq<Slice>, k: nat) {
    k <= |s| && |queue| == |s| - k && forall j :: k <= j < |s| ==> queue[j - k].id == s[j].id
  }

  lemma TailOfNext(queue: seq<Slice>, s: seq<Slice>, k: nat)
    requires s != [] && TailOf(queue, s[1..], k)
    ensures TailOf(queue, s, k + 1)
  {
    forall j | k + 1 <= j < |s| ensures queue[j - (k + 1)].id == s[j].id {
      assert s[1..][j - 1] == s[j] && queue[(j - 1) - k].id == s[1..][j - 1].id;
    }
  }

  lemma {:induction false} CutShape(s: seq<Slice>, q: real) returns (k: nat)
    requires Sound(s) && 0.0 <= q <= Quantity(s)
    ensures TailOf(Cut(s, q), s, k) && Quantity(s[..k]) <= q
  {
    hide Worth, Share, PerUnit;
    k := 0;
    assert s[..0] == [];
    if q > 0.0 && s != [] && s[0].quantity <= q {
      assert Cut(s, q) == Cut(s[1..], q - s[0].quantity);
      var m := CutShape(s[1..], q - s[0].quantity);
      k := m + 1;
      hide Cut;
      TailOfNext(Cut(s, q), s, m);
      assert s[..k][1..] == s[1..][..m];
    }
  }

  lemma {:induction false} CutSkips(a: seq<Slice>, b: seq<Slice>, q: real)
    requires Sound(a) && Sound(b) && Quantity(a) <= q
    ensures Sound(a + b) && Cut(a + b, q) == Cut(b, q - Quantity(a))
  {
    hide Worth, Share, PerUnit;
    if a == [] {
      assert a + b == b;
    } else {
      QuantityNonNegative(a);
      QuantityNonNegative(a[1..]);
      assert (a + b)[1..] == a[1..] + b;
      CutSkips(a[1..], b, q - a[0].quantity);
    }
  }

  // ---- the exact condition ---------------------------------------------------------------------------

  ghost predicate Held(queue: seq<Slice>, id: string) { exists m :: 0 <= m < |queue| && queue[m].id == id }

  /** Every purchase still held is no earlier than those before it. */
  ghost predicate HeldInOrder(s: seq<Slice>, queue: seq<Slice>) {
    forall i, j :: 0 <= i < j < |s| && Held(queue, s[j].id) ==> s[i].at <= s[j].at
  }

  lemma LatestGoesLast(rest: seq<Slice>, x: Slice)
    requires AllBy(rest, x.at)
    ensures Spliced(rest, Rank(rest, x.at), x) == rest + [x]
  {
    RankSplit(rest, [], x.at);
    assert rest + [] == rest && rest[..|rest|] == rest && rest[|rest|..] == [];
  }

  lemma SortedBy(s: seq<Slice>, at: int)
    requires AllBy(s, at)
    ensures AllBy(ByTime(s), at)
  {
    ByTimeSorts(s);
    var rest := ByTime(s);
    forall i | 0 <= i < |rest| ensures rest[i].at <= at {
      assert rest[i] in rest;
      SameElements(rest, s, rest[i]);
    }
  }

  ghost predicate TailInOrder(
    s: seq<Slice>, k: nat) { forall i, j :: 0 <= i < j < |s| && k <= j ==> s[i].at <= s[j].at }

  lemma ByTimeNext(front: seq<Slice>, last: Slice)
    requires AllBy(front, last.at)
    ensures ByTime(front + [last]) == ByTime(front) + [last]
  {
    assert (front + [last])[..|front|] == front;
    hide Spliced, Rank, AllBy;
    SortedBy(front, last.at);
    LatestGoesLast(ByTime(front), last);
  }

  /** A tail that is in order behind everything before it stays where it is. */
  lemma {:induction false} TailStays(a: seq<Slice>, b: seq<Slice>)
    requires TailInOrder(a + b, |a|)
    ensures ByTime(a + b) == ByTime(a) + b
    decreases |b|
  {
    if b == [] {
      assert a + b == a && ByTime(a) + b == ByTime(a);
    } else {
      var n := |b| - 1;
      var front, last := a + b[..n], b[n];
      assert a + b == front + [last];
      assert AllBy(front, last.at) && TailInOrder(front, |a|) by { LastInOrder(front, last, |a|); }
      hide ByTime, AllBy, TailInOrder;
      TailStays(a, b[..n]);
      ByTimeNext(front, last);
      assert b == b[..n] + [last];
      assert ByTime(a) + b == ByTime(a) + b[..n] + [last];
    }
  }

  lemma LastInOrder(front: seq<Slice>, last: Slice, k: nat)
    requires k <= |front| && TailInOrder(front + [last], k)
    ensures AllBy(front, last.at) && TailInOrder(front, k)
  {
    var s := front + [last];
    assert forall i :: 0 <= i < |front| ==> s[i] == front[i];
    assert s[|front|] == last;
  }

  lemma InOrderSuffices(s: seq<Slice>, q: real)
    requires Sound(s) && 0.0 <= q <= Quantity(s) && HeldInOrder(s, Cut(s, q))
    ensures Sound(ByTime(s)) && Cut(ByTime(s), q) == Cut(s, q)
  {
    hide Worth, Share, PerUnit, Cut, Quantity, ByTime;
    ByTimeSound(s);
    var k := CutShape(s, q);
    assert TailInOrder(s, k) by {
      forall i, j | 0 <= i < j < |s| && k <= j ensures s[i].at <= s[j].at {
        assert Cut(s, q)[j - k].id == s[j].id;
        assert Held(Cut(s, q), s[j].id);
      }
    }
    var a, b := s[..k], s[k..];
    assert s == a + b;
    TailStays(a, b);
    ByTimeSound(a);
    ByTimeSorts(a);
    CutSkips(a, b, q);
    CutSkips(ByTime(a), b, q);
  }

  lemma {:induction false} InOrderNeeded(s: seq<Slice>, q: real, i: nat, j: nat)
    requires Sound(s) && 0.0 <= q <= Quantity(s) && DistinctIds(s)
    requires Sound(ByTime(s)) && Cut(ByTime(s), q) == Cut(s, q)
    requires i < j < |s| && Held(Cut(s, q), s[j].id)
    ensures s[i].at <= s[j].at
  {
    hide Worth, Share, PerUnit, Cut, Quantity, ByTime;
    var t := ByTime(s);
    ByTimeSorts(s);
    var k := CutShape(s, q);
    var k' := CutShape(t, q);
    assert k == k';
    assert k <= j by {
      var m :| 0 <= m < |Cut(s, q)| && Cut(s, q)[m].id == s[j].id;
      assert Cut(s, q)[(k + m) - k].id == s[k + m].id;
    }
    SameTail(s, t, k, q);
    SameElements(s, t, s[i]);
    assert s[i] in s;
    var p :| 0 <= p < |t| && t[p] == s[i];
    if p >= k { assert t[p] == s[p]; }
    assert t[j] == s[j];
  }

  /** Equal names in the tails make equal purchases. */
  lemma SameTail(s: seq<Slice>, t: seq<Slice>, k: nat, q: real)
    requires Sound(s) && Sound(t) && |s| == |t| && multiset(s) == multiset(t) && DistinctIds(s)
    requires Cut(s, q) == Cut(t, q) && TailOf(Cut(s, q), s, k) && TailOf(Cut(t, q), t, k)
    ensures forall j :: k <= j < |s| ==> t[j] == s[j]
  {
    hide Cut;
    forall j | k <= j < |s| ensures t[j] == s[j] {
      assert Cut(s, q)[j - k].id == s[j].id && Cut(t, q)[j - k].id == t[j].id;
      assert t[j] in t;
      SameElements(s, t, t[j]);
      var m :| 0 <= m < |s| && s[m] == t[j];
    }
  }

  /** Sorting the purchases leaves the queue alone exactly when every purchase still held is no earlier than
      those bought before it. */
  lemma QueueSurvivesSorting(s: seq<Slice>, q: real)
    requires Sound(s) && 0.0 <= q <= Quantity(s) && DistinctIds(s)
    ensures Sound(ByTime(s))
    ensures Cut(ByTime(s), q) == Cut(s, q) <==> HeldInOrder(s, Cut(s, q))
  {
    hide Cut, ByTime, Quantity;
    ByTimeSound(s);
    if HeldInOrder(s, Cut(s, q)) { InOrderSuffices(s, q); }
    if Cut(ByTime(s), q) == Cut(s, q) {
      forall i, j | 0 <= i < j < |s| && Held(Cut(s, q), s[j].id) ensures s[i].at <= s[j].at {
        InOrderNeeded(s, q, i, j);
      }
    }
  }
}
