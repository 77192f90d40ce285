/** The net-profit target search (backend/core/fifo.py): double an upper bound until it nets the
    desired proceeds, bisect 64 times, round up to a paisa. */
module TargetPrice {
  import opened Common
  import opened Fifo
  import opened Fees

  datatype TargetError = NonPositiveTarget | Unrepresentable

  const BISECTIONS: nat := 64

  /** `while proceeds(high) < desired: high *= 2`, giving up when the doubled bound is no longer
      a finite float, that is, when it reaches `limit`. */
  function DoubleUp(model: FeeModel, q: real, desired: real, high: real, limit: real): Option<real>
    requires high >= 1.0
    decreases limit - high
  {
    if Proceeds(model, high, q) >= desired then Some(high)
    else if high * 2.0 >= limit then None
    else DoubleUp(model, q, desired, high * 2.0, limit)
  }

  function Bisect(model: FeeModel, q: real, desired: real, low: real, high: real, n: nat): real
    decreases n
  {
    if n == 0 then high
    else
      var middle := (low + high) / 2.0;
      if Proceeds(model, middle, q) >= desired then Bisect(model, q, desired, low, middle, n - 1)
      else Bisect(model, q, desired, middle, high, n - 1)
  }

  function CeilPaisa(x: real): real { (-((-(x * 100.0)).Floor)) as real / 100.0 }

  /** What the sale must net: acquisition cost plus the configured percentage. */
  function Desired(m: Match, pct: real): real { m.AcquisitionCost() * (1.0 + pct / 100.0) }

  function FirstBound(m: Match, pct: real): real { Max(m.costBasis * (1.0 + pct / 100.0), 1.0) }

  function NetTarget(model: FeeModel, m: Match, pct: real, limit: real): Result<real, TargetError> {
    if pct <= 0.0 then Err(NonPositiveTarget)
    else
      match DoubleUp(model, m.quantity, Desired(m, pct), FirstBound(m, pct), limit)
      case None => Err(Unrepresentable)
      case Some(high) => Ok(CeilPaisa(Bisect(model, m.quantity, Desired(m, pct), 0.0, high, BISECTIONS)))
  }

  method NetProfitTargetPrice(model: FeeModel, m: Match, pct: real, limit: real)
    returns (r: Result<real, TargetError>)
    ensures r == NetTarget(model, m, pct, limit)
    ensures r == Err(NonPositiveTarget) <==> pct <= 0.0
    ensures ProceedsGrow(model) && m.quantity > 0.0 && r.Ok? ==>
              Proceeds(model, r.value, m.quantity) >= (m.costBasis * m.quantity + m.entryFees) * (1.0 + pct / 100.0)
  {
    hide Proceeds, Worth;
    if pct <= 0.0 { return Err(NonPositiveTarget); }
    var desired := Desired(m, pct);
    var low, high := 0.0, FirstBound(m, pct);
    ghost var bound := DoubleUp(model, m.quantity, desired, high, limit);
    while Proceeds(model, high, m.quantity) < desired
      invariant high >= 1.0
      invariant bound == DoubleUp(model, m.quantity, desired, high, limit)
      decreases limit - high
    {
      high := high * 2.0;
      if high >= limit { return Err(Unrepresentable); }
    }
    ghost var found := Bisect(model, m.quantity, desired, low, high, BISECTIONS);
    for i := 0 to BISECTIONS
      invariant found == Bisect(model, m.quantity, desired, low, high, BISECTIONS - i)
    {
      var middle := (low + high) / 2.0;
      if Proceeds(model, middle, m.quantity) >= desired { high := middle; } else { low := middle; }
    }
    r := Ok(CeilPaisa(high));
    if ProceedsGrow(model) && m.quantity > 0.0 { TargetSuffices(model, m, pct, limit); }
  }

  // ---- what the search finds --------------------------------------------------------------

  ghost function Halved(x: real, n: nat): real
    decreases n
  {
    if n == 0 then x else Halved(x / 2.0, n - 1)
  }

  ghost function TwoTo(n: nat): (r: real)
    ensures r >= 1.0
  {
    if n == 0 then 1.0 else 2.0 * TwoTo(n - 1)
  }

  lemma {:induction false} HalvedIsQuotient(x: real, n: nat)
    ensures TwoTo(n) >= 1.0 && Halved(x, n) * TwoTo(n) == x
    decreases n
  {
    if n > 0 {
      HalvedIsQuotient(x / 2.0, n - 1);
      assert Halved(x, n) * TwoTo(n) == (Halved(x / 2.0, n - 1) * TwoTo(n - 1)) * 2.0;
    }
  }

  /** The bound found is sufficient; it is the first bound, or its half was insufficient. */
  lemma {:induction false} DoubleUpFinds(model: FeeModel, q: real, desired: real, high: real, limit: real)
    requires high >= 1.0
    ensures var r := DoubleUp(model, q, desired, high, limit);
            r.Some? ==>
              && r.value >= high
              && Proceeds(model, r.value, q) >= desired
              && (r.value == high || Proceeds(model, r.value / 2.0, q) < desired)
    decreases limit - high
  {
    hide Proceeds;
    if Proceeds(model, high, q) < desired && high * 2.0 < limit {
      DoubleUpFinds(model, q, desired, high * 2.0, limit);
    }
  }

  /** Giving up means no price below half the float limit would do. */
  lemma {:induction false} DoubleUpGivesUp(model: FeeModel, q: real, desired: real, high: real, limit: real, w: real)
    requires high >= 1.0 && ProceedsGrow(model) && q > 0.0
    requires DoubleUp(model, q, desired, high, limit).None? && 0.0 <= w && w * 2.0 < limit
    ensures Proceeds(model, w, q) < desired
    decreases limit - high
  {
    hide Proceeds;
    if high * 2.0 < limit {
      DoubleUpGivesUp(model, q, desired, high * 2.0, limit, w);
    } else {
      assert Proceeds(model, w, q) <= Proceeds(model, high, q);
    }
  }

  lemma SufficientIsAbove(model: FeeModel, q: real, desired: real, low: real, w: real)
    requires ProceedsGrow(model) && q > 0.0 && 0.0 <= low && 0.0 <= w
    requires Proceeds(model, low, q) < desired <= Proceeds(model, w, q)
    ensures low < w
  {
    hide Proceeds;
    assert w <= low ==> Proceeds(model, w, q) <= Proceeds(model, low, q);
  }

  /** Bisection keeps a sufficient upper end and shrinks the bracket by 2^n above any
      sufficient price. */
  lemma {:induction false} BisectFinds(model: FeeModel, q: real, desired: real, low: real, high: real, n: nat, w: real)
    requires ProceedsGrow(model) && q > 0.0
    requires 0.0 <= low <= high && Proceeds(model, high, q) >= desired
    requires low <= w && Proceeds(model, w, q) >= desired
    ensures var r := Bisect(model, q, desired, low, high, n);
            0.0 <= r && Proceeds(model, r, q) >= desired && r <= w + Halved(high - low, n)
    decreases n
  {
    hide Proceeds;
    if n > 0 {
      var middle := (low + high) / 2.0;
      if Proceeds(model, middle, q) >= desired {
        BisectFinds(model, q, desired, low, middle, n - 1, w);
        assert middle - low == (high - low) / 2.0;
      } else {
        SufficientIsAbove(model, q, desired, middle, w);
        BisectFinds(model, q, desired, middle, high, n - 1, w);
        assert high - middle == (high - low) / 2.0;
      }
    }
  }

  lemma CeilPaisaTight(x: real)
    ensures x <= CeilPaisa(x) < x + 0.01
    ensures Whole(CeilPaisa(x) * 100.0)
  {
    var n := -((-(x * 100.0)).Floor);
    assert x * 100.0 <= n as real < x * 100.0 + 1.0;
    WholeInt(n, CeilPaisa(x) * 100.0);
  }

  lemma DesiredIs(m: Match, pct: real)
    ensures Desired(m, pct) == (m.costBasis * m.quantity + m.entryFees) * (1.0 + pct / 100.0)
    ensures FirstBound(m, pct) == Max(m.costBasis * (1.0 + pct / 100.0), 1.0)
  {}

  /** The returned price is on the paisa grid, and a sale at it nets the cost of the units and their entry fees, with
      the percentage on top of both. */
  lemma TargetSuffices(model: FeeModel, m: Match, pct: real, limit: real)
    requires ProceedsGrow(model) && m.quantity > 0.0
    requires NetTarget(model, m, pct, limit).Ok?
    ensures var t := NetTarget(model, m, pct, limit).value;
            && t >= 0.0 && Whole(t * 100.0)
            && Proceeds(model, t, m.quantity) >= (m.costBasis * m.quantity + m.entryFees) * (1.0 + pct / 100.0)
  {
    DesiredIs(m, pct);
    hide Proceeds, Desired, FirstBound;
    FirstBoundAtLeastOne(m, pct);
    var q, desired := m.quantity, Desired(m, pct);
    DoubleUpFinds(model, q, desired, FirstBound(m, pct), limit);
    var high := DoubleUp(model, q, desired, FirstBound(m, pct), limit).value;
    BisectFinds(model, q, desired, 0.0, high, BISECTIONS, high);
    var found := Bisect(model, q, desired, 0.0, high, BISECTIONS);
    CeilPaisaTight(found);
    assert Proceeds(model, found, q) <= Proceeds(model, CeilPaisa(found), q);
  }

  lemma FirstBoundAtLeastOne(m: Match, pct: real)
    ensures FirstBound(m, pct) >= 1.0
  {}

  /** It exceeds every sufficient price by less than a paisa plus 2^-64 of the bracket, and the
      bracket is the first bound or less than twice that sufficient price. */
  lemma TargetTight(model: FeeModel, m: Match, pct: real, limit: real, w: real)
    requires ProceedsGrow(model) && m.quantity > 0.0
    requires NetTarget(model, m, pct, limit).Ok?
    requires 0.0 <= w
    requires Proceeds(model, w, m.quantity) >= (m.costBasis * m.quantity + m.entryFees) * (1.0 + pct / 100.0)
    ensures var first := Max(m.costBasis * (1.0 + pct / 100.0), 1.0);
            NetTarget(model, m, pct, limit).value < w + 0.01 + Max(first, 2.0 * w) / TwoTo(BISECTIONS)
  {
    DesiredIs(m, pct);
    hide Proceeds, Desired, FirstBound, TwoTo, Halved, CeilPaisa, Bisect, DoubleUp;
    FirstBoundAtLeastOne(m, pct);
    var q, desired := m.quantity, Desired(m, pct);
    DoubleUpFinds(model, q, desired, FirstBound(m, pct), limit);
    var high := DoubleUp(model, q, desired, FirstBound(m, pct), limit).value;
    if high != FirstBound(m, pct) { SufficientIsAbove(model, q, desired, high / 2.0, w); }
    BisectFinds(model, q, desired, 0.0, high, BISECTIONS, w);
    CeilPaisaTight(Bisect(model, q, desired, 0.0, high, BISECTIONS));
    BracketBound(high, Max(FirstBound(m, pct), 2.0 * w), BISECTIONS);
  }

  lemma BracketBound(a: real, b: real, n: nat)
    requires a <= b
    ensures TwoTo(n) > 0.0 && Halved(a, n) <= b / TwoTo(n)
  {
    HalvedIsQuotient(a, n);
  }

  /** On growing proceeds a positive target fails only when no price below half the float limit
      is sufficient. */
  lemma TargetFailsOnlyBeyondFloats(model: FeeModel, m: Match, pct: real, limit: real, w: real)
    requires ProceedsGrow(model) && m.quantity > 0.0 && pct > 0.0
    requires 0.0 <= w && w * 2.0 < limit
    requires Proceeds(model, w, m.quantity) >= (m.costBasis * m.quantity + m.entryFees) * (1.0 + pct / 100.0)
    ensures NetTarget(model, m, pct, limit).Ok?
  {
    DesiredIs(m, pct);
    hide Proceeds, Desired, FirstBound;
    FirstBoundAtLeastOne(m, pct);
    if DoubleUp(model, m.quantity, Desired(m, pct), FirstBound(m, pct), limit).None? {
      DoubleUpGivesUp(model, m.quantity, Desired(m, pct), FirstBound(m, pct), limit, w);
    }
  }
}
