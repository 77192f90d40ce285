/** The price-band ladder (backend/strategies/lot_policy.py) shared by replay and broker, and the
    rounding the stored fields go through. */
module LotPolicy {
  import opened Common
  import opened Fifo

  datatype Market = NSE | CRYPTO

  datatype Ladder = Ladder(threshold: real, high: seq<real>, low: seq<real>, dipPct: real, capital: real) {

    function MaximumEntries(): nat { |high| }

    function Quantity(entry: nat, firstPrice: real): Option<real> {
      if entry >= |high| || entry >= |low| then None
      else Some(if firstPrice >= threshold then high[entry] else low[entry])
    }

    predicate AdditionalEntryAllowed(price: real, lastEntry: real) {
      price <= lastEntry * (1.0 - dipPct / 100.0)
    }

    predicate WithinCapital(openCapital: real, price: real, quantity: real) {
      openCapital + Worth(price, quantity) <= capital
    }

    /** What `from_config` insists on. */
    ghost predicate Valid() {
      && |high| == |low| && |high| > 0
      && (forall i :: 0 <= i < |high| ==> high[i] > 0.0 && Whole(high[i]))
      && (forall i :: 0 <= i < |low| ==> low[i] > 0.0 && Whole(low[i]))
      && threshold > 0.0 && 0.0 < dipPct < 100.0 && capital > 0.0
    }
  }

  /** `round(x, 2)` and `round(x, 4)`, known only to lie within a stated error of x. */
  datatype Rounding = Rounding(two: real -> real, four: real -> real) {
    ghost predicate Within(e2: real, e4: real) {
      && (forall x :: Abs(two(x) - x) <= e2)
      && (forall x :: Abs(four(x) - x) <= e4)
    }
  }

  function Power(base: real, n: nat): real { if n == 0 then 1.0 else base * Power(base, n - 1) }

  /** The size planned for the k-th further lot of a cycle: each a share of the one before, or all the same share of the
      first. */
  ghost function Planned(initial: real, pct: real, everyLot: bool, k: nat): real {
    if k == 0 then initial
    else (if everyLot then Planned(initial, pct, everyLot, k - 1) else initial) * (pct / 100.0)
  }

  lemma {:induction false} PlannedIsPower(initial: real, pct: real, k: nat)
    ensures Planned(initial, pct, true, k) == initial * Power(pct / 100.0, k)
  {
    if k > 0 {
      PlannedIsPower(initial, pct, k - 1);
      var r, p := pct / 100.0, Power(pct / 100.0, k - 1);
      assert initial * p * r == initial * (r * p);
    }
  }

  lemma PlannedIs(initial: real, pct: real, everyLot: bool, k: nat)
    ensures Planned(initial, pct, everyLot, k)
         == if k == 0 then initial else if everyLot then initial * Power(pct / 100.0, k) else initial * (pct / 100.0)
  {
    if everyLot { PlannedIsPower(initial, pct, k); }
    hide Power;
  }
}
