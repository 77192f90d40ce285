/** The FIFO inventory ledger (backend/core/fifo.py): a queue of acquisition slices that
    sales consume from the front, splitting each slice's entry fees in proportion.

    `Sale` follows the source's loop and its 1e-9 tolerance for every real request.
    `Taken` and `Cut` are the exact reference: the first q units of the queue, and the rest. */
module Fifo {
  import opened Common

  datatype Slice = Slice(id: string, at: int, price: real, quantity: real, fees: real)

  datatype Allocation = Allocation(id: string, quantity: real, price: real, fees: real)

  datatype Match = Match(quantity: real, costBasis: real, entryFees: real, allocations: seq<Allocation>) {
    function AcquisitionCost(): real { Worth(costBasis, quantity) + entryFees }
  }

  datatype FifoError = BadAcquisition | NonPositiveSale | ShortInventory | ZeroDivision

  const EPSILON := 0.000000001

  // Products and quotients are named, so that proofs about queues can treat them as units.

  function Worth(price: real, quantity: real): real { price * quantity }

  function Share(fees: real, taken: real, quantity: real): real
    requires quantity > 0.0
  {
    fees * (taken / quantity)
  }

  function PerUnit(total: real, quantity: real): real
    requires quantity > 0.0
  {
    total / quantity
  }

  lemma WorthSplit(price: real, a: real, b: real)
    ensures Worth(price, a + b) == Worth(price, a) + Worth(price, b)
  {}

  lemma WorthMinus(a: real, b: real, q: real)
    ensures Worth(a - b, q) == Worth(a, q) - Worth(b, q)
  {}

  lemma WorthApart(a: real, b: real, q: real, e: real)
    requires Abs(a - b) <= e && q >= 0.0
    ensures Abs(Worth(a, q) - Worth(b, q)) <= e * q
  {
    assert Worth(a, q) - Worth(b, q) == (a - b) * q;
    ScaleOrder(q, a - b, e);
    ScaleOrder(q, -e, a - b);
  }

  lemma WholeShare(fees: real, quantity: real)
    requires quantity > 0.0
    ensures Share(fees, quantity, quantity) == fees
  {}

  lemma PerUnitBack(total: real, quantity: real)
    requires quantity > 0.0
    ensures Worth(PerUnit(total, quantity), quantity) == total
  {}

  // ---- what a queue and a list of allocations add up to --------------------------------

  function Quantity(s: seq<Slice>): real { if s == [] then 0.0 else s[0].quantity + Quantity(s[1..]) }

  function Cost(s: seq<Slice>): real { if s == [] then 0.0 else Worth(s[0].price, s[0].quantity) + Cost(s[1..]) }

  function EntryFees(s: seq<Slice>): real { if s == [] then 0.0 else s[0].fees + EntryFees(s[1..]) }

  ghost function Units(s: seq<Slice>, id: string): real {
    if s == [] then 0.0 else (if s[0].id == id then s[0].quantity else 0.0) + Units(s[1..], id)
  }

  function AllocatedQuantity(a: seq<Allocation>): real {
    if a == [] then 0.0 else a[0].quantity + AllocatedQuantity(a[1..])
  }

  function AllocatedCost(a: seq<Allocation>): real {
    if a == [] then 0.0 else Worth(a[0].price, a[0].quantity) + AllocatedCost(a[1..])
  }

  function AllocatedFees(a: seq<Allocation>): real {
    if a == [] then 0.0 else a[0].fees + AllocatedFees(a[1..])
  }

  ghost function AllocatedUnits(a: seq<Allocation>, id: string): real {
    if a == [] then 0.0 else (if a[0].id == id then a[0].quantity else 0.0) + AllocatedUnits(a[1..], id)
  }

  predicate ValidSlice(x: Slice) { x.price > 0.0 && x.quantity > 0.0 && x.fees >= 0.0 }

  predicate Sound(s: seq<Slice>) { forall i :: 0 <= i < |s| ==> ValidSlice(s[i]) }

  predicate WholeUnits(s: seq<Slice>) { forall i :: 0 <= i < |s| ==> Whole(s[i].quantity) }

  // ---- the source's sale ----------------------------------------------------------------

  /** The part of a slice that a sale of `taken` units is matched with. */
  function Allocate(x: Slice, taken: real): Allocation
    requires x.quantity > 0.0
  {
    Allocation(x.id, taken, x.price, Share(x.fees, taken, x.quantity))
  }

  /** What that sale leaves of the slice. */
  function Shrink(x: Slice, taken: real): Slice
    requires x.quantity > 0.0
  {
    x.(quantity := x.quantity - taken, fees := x.fees - Share(x.fees, taken, x.quantity))
  }

  /** The consuming loop: allocations made and queue left. */
  function Drain(s: seq<Slice>, remaining: real): (seq<Allocation>, seq<Slice>)
    requires Sound(s)
  {
    if remaining <= EPSILON || s == [] then ([], s)
    else
      var taken := Min(remaining, s[0].quantity);
      var left := Shrink(s[0], taken);
      if left.quantity <= EPSILON then
        var rest := Drain(s[1..], remaining - taken);
        ([Allocate(s[0], taken)] + rest.0, rest.1)
      else
        ([Allocate(s[0], taken)], [left] + s[1..])
  }

  function MatchOf(a: seq<Allocation>): Match
    requires AllocatedQuantity(a) > 0.0
  {
    Match(AllocatedQuantity(a), PerUnit(AllocatedCost(a), AllocatedQuantity(a)), AllocatedFees(a), a)
  }

  /** `consume`: the match and the queue after it, or what it raises. */
  function Sale(s: seq<Slice>, requested: real): Result<(Match, seq<Slice>), FifoError>
    requires Sound(s)
  {
    if requested <= 0.0 then Err(NonPositiveSale)
    else if requested > Quantity(s) + EPSILON then Err(ShortInventory)
    else
      var (allocations, left) := Drain(s, requested);
      if AllocatedQuantity(allocations) <= 0.0 then Err(ZeroDivision)
      else Ok((MatchOf(allocations), left))
  }

  /** `preview_allocations`: sales in turn on a copy of the queue. */
  function Preview(s: seq<Slice>, requests: seq<real>): Result<seq<Match>, FifoError>
    requires Sound(s)
    decreases |requests|
  {
    if requests == [] then Ok([])
    else
      match Sale(s, requests[0])
      case Err(e) => Err(e)
      case Ok((m, left)) =>
        DrainSound(s, requests[0]);
        match Preview(left, requests[1..])
        case Err(e) => Err(e)
        case Ok(rest) => Ok([m] + rest)
  }

  lemma {:induction false} DrainSound(s: seq<Slice>, remaining: real)
    requires Sound(s)
    ensures Sound(Drain(s, remaining).1)
    ensures AllocatedQuantity(Drain(s, remaining).0) >= 0.0
    ensures remaining > EPSILON && s != [] ==> AllocatedQuantity(Drain(s, remaining).0) > 0.0
  {
    hide Worth, Share, PerUnit;
    if remaining > EPSILON && s != [] {
      var taken := Min(remaining, s[0].quantity);
      ShrinkProportion(s[0], taken);
      DrainSound(s[1..], remaining - taken);
      var d := Drain(s, remaining);
      assert d.0[0].quantity == taken;
      if Shrink(s[0], taken).quantity <= EPSILON {
        assert d.0[1..] == Drain(s[1..], remaining - taken).0;
      } else {
        assert d.0[1..] == [];
      }
    }
  }

  lemma SaleLeavesSound(queue: seq<Slice>, q: real)
    requires Sound(queue)
    ensures Sale(queue, q).Ok? ==> Sound(Sale(queue, q).value.1)
  {
    DrainSound(queue, q);
  }

  /** One turn of the consuming loop. */
  lemma DrainStep(s: seq<Slice>, remaining: real)
    requires Sound(s) && s != [] && EPSILON < remaining <= Quantity(s) + EPSILON
    ensures var taken := Min(remaining, s[0].quantity);
            var left := Shrink(s[0], taken);
            var s' := if left.quantity <= EPSILON then s[1..] else [left] + s[1..];
            && s[0].quantity > 0.0 && Sound(s') && 0.0 < taken <= remaining <= taken + Quantity(s') + EPSILON
            && (|s'| < |s| || remaining - taken <= EPSILON)
            && Drain(s, remaining).0 == [Allocate(s[0], taken)] + Drain(s', remaining - taken).0
            && Drain(s, remaining).1 == Drain(s', remaining - taken).1
  {
    var taken := Min(remaining, s[0].quantity);
    ShrinkProportion(s[0], taken);
    QuantityNonNegative(s[1..]);
    hide Worth, Share, PerUnit;
  }

  lemma DrainDone(s: seq<Slice>, remaining: real)
    requires Sound(s)
    ensures remaining <= EPSILON ==> Drain(s, remaining) == ([], s)
    ensures EPSILON < remaining <= Quantity(s) + EPSILON ==> s != []
  {}

  /** What `Sale` answers once its two guards have passed. */
  lemma SaleAfterGuards(s: seq<Slice>, q: real)
    requires Sound(s) && 0.0 < q <= Quantity(s) + EPSILON
    ensures var d := Drain(s, q);
            && Sound(d.1)
            && (AllocatedQuantity(d.0) <= 0.0 ==> Sale(s, q) == Err(ZeroDivision) && d.1 == s)
            && (AllocatedQuantity(d.0) > 0.0 ==> Sale(s, q) == Ok((MatchOf(d.0), d.1)))
  {
    DrainSound(s, q);
    DrainDone(s, q);
  }

  /** Splitting a slice keeps its fees per unit: both parts carry the same rate. */
  lemma ShrinkProportion(x: Slice, taken: real)
    requires ValidSlice(x) && 0.0 <= taken <= x.quantity
    ensures var rate := x.fees / x.quantity;
            && rate >= 0.0
            && x.fees == rate * x.quantity
            && Allocate(x, taken).fees == rate * taken
            && Shrink(x, taken).fees == rate * (x.quantity - taken) >= 0.0
  {
    var rate := x.fees / x.quantity;
    assert Share(x.fees, taken, x.quantity) == rate * taken;
    assert rate * (x.quantity - taken) == rate * x.quantity - rate * taken;
    ScaleOrder(rate, 0.0, x.quantity - taken);
  }

  // ---- the exact reference: the first q units and the rest --------------------------------

  function Taken(s: seq<Slice>, q: real): seq<Allocation>
    requires Sound(s)
  {
    if q <= 0.0 || s == [] then []
    else if s[0].quantity <= q then [Allocate(s[0], s[0].quantity)] + Taken(s[1..], q - s[0].quantity)
    else [Allocate(s[0], q)]
  }

  function Cut(s: seq<Slice>, q: real): seq<Slice>
    requires Sound(s)
  {
    if q <= 0.0 || s == [] then s
    else if s[0].quantity <= q then Cut(s[1..], q - s[0].quantity)
    else [Shrink(s[0], q)] + s[1..]
  }

  lemma {:induction false} CutSound(s: seq<Slice>, q: real)
    requires Sound(s)
    ensures Sound(Cut(s, q))
    ensures WholeUnits(s) && Whole(q) ==> WholeUnits(Cut(s, q))
  {
    hide Worth, Share, PerUnit;
    if q > 0.0 && s != [] {
      if s[0].quantity <= q {
        CutSound(s[1..], q - s[0].quantity);
        if WholeUnits(s) && Whole(q) { WholeArithmetic(q, s[0].quantity); }
      } else {
        ShrinkProportion(s[0], q);
        if WholeUnits(s) && Whole(q) { WholeArithmetic(s[0].quantity, q); }
      }
    }
  }

  lemma {:induction false} QuantityNonNegative(s: seq<Slice>)
    requires Sound(s)
    ensures Quantity(s) >= 0.0 && (s != [] ==> Quantity(s) > 0.0)
  {
    hide Worth, Share, PerUnit;
    if s != [] { QuantityNonNegative(s[1..]); }
  }

  lemma {:induction false} TakenQuantity(s: seq<Slice>, q: real)
    requires Sound(s) && 0.0 <= q <= Quantity(s)
    ensures AllocatedQuantity(Taken(s, q)) == q
    ensures Quantity(s) == q + Quantity(Cut(s, q))
  {
    hide Worth, Share, PerUnit;
    if q > 0.0 && s != [] {
      var x := s[0];
      if x.quantity <= q {
        TakenQuantity(s[1..], q - x.quantity);
        assert Taken(s, q)[1..] == Taken(s[1..], q - x.quantity);
      } else {
        assert Taken(s, q)[1..] == [];
        assert Cut(s, q)[1..] == s[1..];
      }
    }
  }

  lemma {:induction false} TakenCost(s: seq<Slice>, q: real)
    requires Sound(s) && 0.0 <= q <= Quantity(s)
    ensures Cost(s) == AllocatedCost(Taken(s, q)) + Cost(Cut(s, q))
  {
    hide Worth, Share, PerUnit;
    if q > 0.0 && s != [] {
      var x := s[0];
      if x.quantity <= q {
        TakenCost(s[1..], q - x.quantity);
        assert Taken(s, q)[1..] == Taken(s[1..], q - x.quantity);
      } else {
        assert Taken(s, q)[1..] == [];
        assert Cut(s, q)[1..] == s[1..];
        WorthSplit(x.price, q, x.quantity - q);
      }
    }
  }

  lemma {:induction false} TakenFees(s: seq<Slice>, q: real)
    requires Sound(s) && 0.0 <= q <= Quantity(s)
    ensures EntryFees(s) == AllocatedFees(Taken(s, q)) + EntryFees(Cut(s, q))
  {
    hide Worth, Share, PerUnit;
    if q > 0.0 && s != [] {
      var x := s[0];
      if x.quantity <= q {
        WholeShare(x.fees, x.quantity);
        TakenFees(s[1..], q - x.quantity);
        assert Taken(s, q)[1..] == Taken(s[1..], q - x.quantity);
      } else {
        assert Taken(s, q)[1..] == [];
        assert Cut(s, q)[1..] == s[1..];
      }
    }
  }

  lemma {:induction false} TakenUnits(s: seq<Slice>, q: real, id: string)
    requires Sound(s) && 0.0 <= q <= Quantity(s)
    ensures Units(s, id) == AllocatedUnits(Taken(s, q), id) + Units(Cut(s, q), id)
  {
    hide Worth, Share, PerUnit;
    if q > 0.0 && s != [] {
      var x := s[0];
      if x.quantity <= q {
        TakenUnits(s[1..], q - x.quantity, id);
        assert Taken(s, q)[1..] == Taken(s[1..], q - x.quantity);
      } else {
        assert Taken(s, q)[1..] == [];
        assert Cut(s, q)[1..] == s[1..];
      }
    }
  }

  /** Nothing is lost or invented: units per acquisition, cost and fees of a queue are those
      of the units taken plus those of the units left. */
  lemma Conservation(s: seq<Slice>, q: real, id: string)
    requires Sound(s) && 0.0 <= q <= Quantity(s)
    ensures AllocatedQuantity(Taken(s, q)) == q
    ensures Quantity(s) == q + Quantity(Cut(s, q))
    ensures Cost(s) == AllocatedCost(Taken(s, q)) + Cost(Cut(s, q))
    ensures EntryFees(s) == AllocatedFees(Taken(s, q)) + EntryFees(Cut(s, q))
    ensures Units(s, id) == AllocatedUnits(Taken(s, q), id) + Units(Cut(s, q), id)
  {
    hide Worth, Share, PerUnit;
    TakenQuantity(s, q);
    TakenCost(s, q);
    TakenFees(s, q);
    TakenUnits(s, q, id);
  }

  /** Cutting a then b is cutting a + b. */
  lemma {:induction false} CutCut(s: seq<Slice>, a: real, b: real)
    requires Sound(s) && a >= 0.0 && b >= 0.0
    ensures Sound(Cut(s, a)) && Cut(Cut(s, a), b) == Cut(s, a + b)
  {
    hide Worth, Share, PerUnit;
    CutSound(s, a);
    if a > 0.0 && b > 0.0 && s != [] {
      var x := s[0];
      if x.quantity <= a {
        CutCut(s[1..], a - x.quantity, b);
        assert a + b - x.quantity == a - x.quantity + b;
      } else {
        ShrinkProportion(x, a);
        assert Cut(s, a)[1..] == s[1..];
        if x.quantity <= a + b {
          assert b - (x.quantity - a) == a + b - x.quantity;
        } else {
          ShrinkShrink(x, a, b);
        }
      }
    }
  }

  lemma ShrinkShrink(x: Slice, a: real, b: real)
    requires ValidSlice(x) && 0.0 <= a && 0.0 <= b && a + b < x.quantity
    ensures ValidSlice(Shrink(x, a)) && Shrink(Shrink(x, a), b) == Shrink(x, a + b)
  {
    ShrinkProportion(x, a);
    ShrinkProportion(x, a + b);
    var y := Shrink(x, a);
    ShrinkProportion(y, b);
    var rate := x.fees / x.quantity;
    assert y.fees / y.quantity == rate by {
      assert y.fees == rate * y.quantity;
    }
  }

  /** Adding at the back commutes with any feasible cut. */
  lemma {:induction false} CutAppend(s: seq<Slice>, x: Slice, q: real)
    requires Sound(s) && ValidSlice(x) && 0.0 <= q <= Quantity(s)
    ensures Sound(s + [x]) && Cut(s + [x], q) == Cut(s, q) + [x]
  {
    hide Worth, Share, PerUnit;
    if q > 0.0 {
      assert s != [];
      assert (s + [x])[1..] == s[1..] + [x];
      if s[0].quantity <= q {
        CutAppend(s[1..], x, q - s[0].quantity);
      }
    }
  }

  /** The first units are the same whatever is added at the back. */
  lemma {:induction false} TakenAppend(s: seq<Slice>, x: Slice, q: real)
    requires Sound(s) && ValidSlice(x) && 0.0 <= q <= Quantity(s)
    ensures Sound(s + [x]) && Taken(s + [x], q) == Taken(s, q)
  {
    hide Worth, Share, PerUnit;
    if q > 0.0 {
      assert s != [];
      assert (s + [x])[1..] == s[1..] + [x];
      if s[0].quantity <= q { TakenAppend(s[1..], x, q - s[0].quantity); }
    }
  }

  lemma {:induction false} SumsAppend(s: seq<Slice>, x: Slice)
    ensures Quantity(s + [x]) == Quantity(s) + x.quantity
    ensures Cost(s + [x]) == Cost(s) + Worth(x.price, x.quantity)
    ensures EntryFees(s + [x]) == EntryFees(s) + x.fees
  {
    hide Worth, Share, PerUnit;
    if s == [] {
      assert s + [x] == [x];
    } else {
      assert (s + [x])[1..] == s[1..] + [x];
      SumsAppend(s[1..], x);
    }
  }

  // ---- the source's loop against the reference ---------------------------------------------

  /** On whole quantities the tolerance is inert: the loop takes exactly the first q units. */
  lemma {:induction false} DrainExact(s: seq<Slice>, q: real)
    requires Sound(s) && WholeUnits(s) && Whole(q) && 0.0 <= q
    ensures Drain(s, q) == (Taken(s, q), Cut(s, q))
  {
    hide Worth, Share, PerUnit;
    if q > 0.0 && s != [] {
      WholeFromOne(q);
      var x := s[0];
      if x.quantity <= q {
        WholeArithmetic(q, x.quantity);
        DrainExact(s[1..], q - x.quantity);
      } else {
        WholeArithmetic(x.quantity, q);
        WholeFromOne(x.quantity - q);
      }
    }
  }

  /** For every real request the loop takes some m within the tolerance of it: the allocations
      are exactly the first m units, and the queue left is the rest, less at most one leading
      remnant no larger than the tolerance. */
  lemma {:induction false} DrainWithinTolerance(s: seq<Slice>, q: real) returns (m: real)
    requires Sound(s) && 0.0 <= q <= Quantity(s) + EPSILON
    ensures q - EPSILON <= m <= q && 0.0 <= m <= Quantity(s)
    ensures Drain(s, q).0 == Taken(s, m)
    ensures var rest := Cut(s, m);
            || Drain(s, q).1 == rest
            || (rest != [] && rest[0].quantity <= EPSILON && Drain(s, q).1 == rest[1..])
  {
    hide Worth, Share, PerUnit;
    QuantityNonNegative(s);
    if q <= EPSILON || s == [] {
      m := 0.0;
    } else {
      var x := s[0];
      if x.quantity <= q {
        m := DrainWithinTolerance(s[1..], q - x.quantity);
        m := m + x.quantity;
        assert m - x.quantity >= 0.0;
        if m - x.quantity == 0.0 { assert Taken(s[1..], 0.0) == [] && Cut(s[1..], 0.0) == s[1..]; }
      } else {
        m := q;
        QuantityNonNegative(s[1..]);
        assert Drain(s[1..], 0.0) == ([], s[1..]);
      }
    }
  }

  /** A sale of whole units succeeds exactly when it is positive and covered. */
  lemma SaleSucceeds(s: seq<Slice>, q: real)
    requires Sound(s) && WholeUnits(s) && Whole(q)
    ensures Sale(s, q).Ok? <==> 0.0 < q <= Quantity(s)
  {
    hide Worth, Share, PerUnit;
    if q > 0.0 {
      QuantityWhole(s);
      if q > Quantity(s) {
        WholeArithmetic(q, Quantity(s));
        WholeFromOne(q - Quantity(s));
      } else {
        DrainExact(s, q);
        TakenQuantity(s, q);
      }
    }
  }

  /** A successful sale of whole units is matched with exactly the first q units of the queue,
      at their cost and entry fees, and leaves exactly the rest. */
  lemma SaleExact(s: seq<Slice>, q: real)
    requires Sound(s) && WholeUnits(s) && Whole(q) && Sale(s, q).Ok?
    ensures var (m, left) := Sale(s, q).value;
            && m.quantity == q && m.allocations == Taken(s, q) && left == Cut(s, q)
            && Worth(m.costBasis, q) == AllocatedCost(Taken(s, q))
            && m.entryFees == AllocatedFees(Taken(s, q))
            && Sound(left) && WholeUnits(left)
  {
    hide Worth, Share, PerUnit;
    SaleSucceeds(s, q);
    DrainExact(s, q);
    TakenQuantity(s, q);
    CutSound(s, q);
    PerUnitBack(AllocatedCost(Taken(s, q)), q);
  }

  lemma {:induction false} QuantityWhole(s: seq<Slice>)
    requires WholeUnits(s)
    ensures Whole(Quantity(s))
  {
    hide Worth, Share, PerUnit;
    if s != [] {
      QuantityWhole(s[1..]);
      WholeArithmetic(s[0].quantity, Quantity(s[1..]));
    }
  }

  /** `consume` promises a match for any positive covered request, yet raises a division by
      zero for one inside the tolerance, and only there. */
  lemma SaleDividesByZero(s: seq<Slice>, q: real)
    requires Sound(s) && 0.0 < q <= Quantity(s) + EPSILON
    ensures Sale(s, q) == Err(ZeroDivision) <==> q <= EPSILON
    ensures Sale(s, q).Ok? <==> q > EPSILON
  {
    hide Worth, Share, PerUnit;
    DrainSound(s, q);
    QuantityNonNegative(s);
  }

  /** Two sales match in total what one sale of both quantities matches. */
  lemma SalesAdd(s: seq<Slice>, a: real, b: real, id: string)
    requires Sound(s) && 0.0 <= a && 0.0 <= b && a + b <= Quantity(s)
    ensures Sound(Cut(s, a))
    ensures AllocatedCost(Taken(s, a)) + AllocatedCost(Taken(Cut(s, a), b)) == AllocatedCost(Taken(s, a + b))
    ensures AllocatedFees(Taken(s, a)) + AllocatedFees(Taken(Cut(s, a), b)) == AllocatedFees(Taken(s, a + b))
    ensures AllocatedUnits(Taken(s, a), id) + AllocatedUnits(Taken(Cut(s, a), b), id)
         == AllocatedUnits(Taken(s, a + b), id)
  {
    hide Worth, Share, PerUnit;
    Conservation(s, a, id);
    CutCut(s, a, b);
    Conservation(Cut(s, a), b, id);
    Conservation(s, a + b, id);
  }

  // ---- histories ------------------------------------------------------------------------

  datatype Movement = Buy(slice: Slice) | Sell(quantity: real)

  function Apply(s: seq<Slice>, t: Movement): (r: Result<seq<Slice>, FifoError>)
    requires Sound(s)
    ensures r.Ok? ==> Sound(r.value)
  {
    match t
    case Buy(x) => if ValidSlice(x) then Ok(s + [x]) else Err(BadAcquisition)
    case Sell(q) =>
      match Sale(s, q)
      case Err(e) => Err(e)
      case Ok((_, left)) => DrainSound(s, q); Ok(left)
  }

  /** The queue after a history, oldest trade first. */
  function QueueAfter(h: seq<Movement>): (r: Result<seq<Slice>, FifoError>)
    ensures r.Ok? ==> Sound(r.value)
  {
    if h == [] then Ok([])
    else
      match QueueAfter(h[..|h| - 1])
      case Err(e) => Err(e)
      case Ok(s) => Apply(s, h[|h| - 1])
  }

  ghost function Bought(h: seq<Movement>): seq<Slice> {
    if h == [] then []
    else
      var t := h[|h| - 1];
      Bought(h[..|h| - 1]) + (if t.Buy? then [t.slice] else [])
  }

  ghost function Sold(h: seq<Movement>): real {
    if h == [] then 0.0
    else
      var t := h[|h| - 1];
      Sold(h[..|h| - 1]) + (if t.Sell? then t.quantity else 0.0)
  }

  ghost predicate WholeMovements(h: seq<Movement>) {
    forall i :: 0 <= i < |h| ==> Whole(if h[i].Buy? then h[i].slice.quantity else h[i].quantity)
  }

  /** Every acquisition is well formed, every sale positive, and no prefix sells more than it bought. */
  ghost predicate Legal(h: seq<Movement>) {
    && (forall i :: 0 <= i < |h| ==> if h[i].Buy? then ValidSlice(h[i].slice) else h[i].quantity > 0.0)
    && (forall n :: 0 <= n <= |h| ==> Sold(h[..n]) <= Quantity(Bought(h[..n])))
  }

  /** One more trade on a queue in normal form keeps it in normal form, when it is legal. */
  lemma NormalStep(buys: seq<Slice>, sold: real, t: Movement)
    requires Sound(buys) && WholeUnits(buys) && Whole(sold) && 0.0 <= sold <= Quantity(buys)
    requires Whole(if t.Buy? then t.slice.quantity else t.quantity)
    ensures Sound(Cut(buys, sold))
    ensures t.Buy? ==>
              if ValidSlice(t.slice)
              then Sound(buys + [t.slice]) && Apply(Cut(buys, sold), t) == Ok(Cut(buys + [t.slice], sold))
              else Apply(Cut(buys, sold), t).Err?
    ensures t.Sell? ==>
              if 0.0 < t.quantity <= Quantity(buys) - sold
              then Apply(Cut(buys, sold), t) == Ok(Cut(buys, sold + t.quantity))
              else Apply(Cut(buys, sold), t).Err?
  {
    hide Worth, Share, PerUnit, Sale, Drain, Cut, Taken, Quantity;
    CutSound(buys, sold);
    TakenQuantity(buys, sold);
    match t
    case Buy(x) =>
      if ValidSlice(x) { CutAppend(buys, x, sold); }
    case Sell(q) =>
      SaleSucceeds(Cut(buys, sold), q);
      if 0.0 < q <= Quantity(buys) - sold {
        SaleExact(Cut(buys, sold), q);
        CutCut(buys, sold, q);
      }
  }

  lemma LegalEmpty()
    ensures Legal([]) && Cut([], 0.0) == [] && Quantity([]) == 0.0
  {}

  lemma LegalStep(h: seq<Movement>)
    requires h != []
    ensures var p, t := h[..|h| - 1], h[|h| - 1];
            Legal(h) <==>
              && Legal(p)
              && (if t.Buy? then ValidSlice(t.slice) else t.quantity > 0.0)
              && Sold(h) <= Quantity(Bought(h))
  {
    hide Worth, Share, PerUnit, Sold, Bought, Quantity, ValidSlice;
    var n := |h| - 1;
    var p := h[..n];
    assert h[..|h|] == h;
    assert forall k :: 0 <= k <= n ==> p[..k] == h[..k];
    assert forall i :: 0 <= i < n ==> p[i] == h[i];
    assert Legal(h) ==> Legal(p);
    if Legal(p) && Sold(h) <= Quantity(Bought(h)) {
      forall k | 0 <= k <= |h| ensures Sold(h[..k]) <= Quantity(Bought(h[..k])) {
        if k <= n { assert Sold(p[..k]) <= Quantity(Bought(p[..k])); }
      }
    }
  }

  /** Normal form: a whole-unit history goes through exactly when it is legal, and then the
      queue is the acquisitions in order with the total sold cut off the front. */
  lemma {:induction false} NormalForm(h: seq<Movement>)
    requires WholeMovements(h)
    ensures QueueAfter(h).Ok? <==> Legal(h)
    ensures Legal(h) ==>
              && Sound(Bought(h)) && WholeUnits(Bought(h))
              && Whole(Sold(h)) && 0.0 <= Sold(h) <= Quantity(Bought(h))
              && QueueAfter(h) == Ok(Cut(Bought(h), Sold(h)))
  {
    hide Worth, Share, PerUnit, Cut, Apply, Legal, Quantity;
    if h == [] {
      LegalEmpty();
    } else {
      var p, t := h[..|h| - 1], h[|h| - 1];
      assert WholeMovements(p) && Whole(if t.Buy? then t.slice.quantity else t.quantity);
      LastMovement(h);
      hide WholeMovements, Bought, Sold, QueueAfter;
      NormalForm(p);
      LegalStep(h);
      if Legal(p) {
        NormalStep(Bought(p), Sold(p), t);
        match t
        case Buy(x) => SumsAppend(Bought(p), x);
        case Sell(q) => WholeArithmetic(Sold(p), q);
      }
    }
  }

  lemma LastMovement(h: seq<Movement>)
    requires h != []
    ensures var p, t := h[..|h| - 1], h[|h| - 1];
            && Bought(h) == (if t.Buy? then Bought(p) + [t.slice] else Bought(p))
            && Sold(h) == (if t.Sell? then Sold(p) + t.quantity else Sold(p))
            && (QueueAfter(p).Err? ==> QueueAfter(h).Err?)
            && (QueueAfter(p).Ok? ==> QueueAfter(h) == Apply(QueueAfter(p).value, t))
  {
    hide Apply;
  }

  /** The queue depends only on the order of the buys and the total sold, not on when the
      sales happened. */
  lemma SalesMayMove(h: seq<Movement>, k: seq<Movement>)
    requires WholeMovements(h) && WholeMovements(k) && Legal(h) && Legal(k)
    requires Bought(h) == Bought(k) && Sold(h) == Sold(k)
    ensures QueueAfter(h) == QueueAfter(k)
  {
    hide Worth, Share, PerUnit;
    NormalForm(h);
    NormalForm(k);
  }

  // ---- the mutable ledger -------------------------------------------------------------------

  class FifoInventory {
    var slices: seq<Slice>

    ghost predicate Valid()
      reads this
    {
      Sound(slices)
    }

    constructor ()
      ensures Valid() && slices == []
    {
      slices := [];
    }

    method Add(id: string, at: int, price: real, quantity: real, fees: real) returns (r: Result<(), FifoError>)
      requires Valid()
      modifies this
      ensures Valid()
      ensures var x := Slice(id, at, price, quantity, fees);
              if ValidSlice(x) then r.Ok? && slices == old(slices) + [x]
              else r == Err(BadAcquisition) && slices == old(slices)
    {
      if quantity <= 0.0 || price <= 0.0 || fees < 0.0 { return Err(BadAcquisition); }
      slices := slices + [Slice(id, at, price, quantity, fees)];
      r := Ok(());
    }

    method Consume(quantity: real) returns (r: Result<Match, FifoError>)
      requires Valid()
      modifies this
      ensures Valid()
      ensures var sale := Sale(old(slices), quantity);
              if sale.Ok? then r == Ok(sale.value.0) && slices == sale.value.1
              else r == Err(sale.error) && slices == old(slices)
    {
      if quantity <= 0.0 { return Err(NonPositiveSale); }
      if quantity > Quantity(slices) + EPSILON { return Err(ShortInventory); }
      hide Drain, Quantity, Sale, AllocatedCost, AllocatedQuantity, AllocatedFees, PerUnit, Sound;
      SaleAfterGuards(slices, quantity);
      var allocations := TakeFront(quantity);
      var cost := AllocatedCost(allocations);
      var matched := AllocatedQuantity(allocations);
      if matched <= 0.0 { return Err(ZeroDivision); }
      r := Ok(Match(matched, PerUnit(cost, matched), AllocatedFees(allocations), allocations));
    }

    /** The loop of `consume`: shrink the front slice, and drop it once only the tolerance is left. */
    method TakeFront(requested: real) returns (allocations: seq<Allocation>)
      requires Valid() && requested <= Quantity(slices) + EPSILON
      modifies this
      ensures Valid() && (allocations, slices) == Drain(old(slices), requested)
    {
      hide Drain, Quantity, Allocate, Shrink, Min, Sound, ValidSlice, Share;
      ghost var all := Drain(slices, requested);
      var remaining := requested;
      allocations := [];
      while remaining > EPSILON
        invariant Valid()
        invariant remaining <= Quantity(slices) + EPSILON
        invariant Drain(slices, remaining).1 == all.1
        invariant allocations + Drain(slices, remaining).0 == all.0
        decreases |slices|, remaining > EPSILON
      {
        DrainDone(slices, remaining);
        DrainStep(slices, remaining);
        var item := slices[0];
        var taken := Min(remaining, item.quantity);
        ghost var before, d := allocations, Drain(slices, remaining).0;
        allocations := allocations + [Allocate(item, taken)];
        assert allocations + d[1..] == before + ([Allocate(item, taken)] + d[1..]);
        item := Shrink(item, taken);
        var rest := slices[1..];
        remaining := remaining - taken;
        slices := [item] + rest;
        if item.quantity <= EPSILON {
          slices := slices[1..];
          assert slices == rest;
        }
      }
      DrainDone(slices, remaining);
      assert allocations + [] == allocations;
    }

    /** Runs the sales on a clone; this ledger is not touched (there is no modifies clause). */
    method PreviewAllocations(quantities: seq<real>) returns (r: Result<seq<Match>, FifoError>)
      requires Valid()
      ensures r == Preview(slices, quantities)
    {
      hide Worth, Share, PerUnit, Drain, Sale;
      var clone := new FifoInventory();
      clone.slices := slices;
      var matches: seq<Match> := [];
      assert quantities[0..] == quantities;
      assert forall rest: seq<Match> :: [] + rest == rest;
      for i := 0 to |quantities|
        invariant clone.Valid() && fresh(clone)
        invariant match Preview(clone.slices, quantities[i..])
                  case Ok(rest) => Preview(slices, quantities) == Ok(matches + rest)
                  case Err(e) => Preview(slices, quantities) == Err(e)
      {
        assert quantities[i..][1..] == quantities[i + 1..];
        ghost var before := clone.slices;
        DrainSound(before, quantities[i]);
        var m := clone.Consume(quantities[i]);
        if m.Err? { return Err(m.error); }
        match Preview(clone.slices, quantities[i + 1..]) {
          case Ok(rest) => assert matches + ([m.value] + rest) == matches + [m.value] + rest;
          case Err(_) =>
        }
        matches := matches + [m.value];
      }
      assert quantities[|quantities|..] == [] && matches + [] == matches;
      r := Ok(matches);
    }
  }
}
