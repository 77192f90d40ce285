/** Execution costs: a fill is the price actually paid or received and the fees on top
    (backend/markets/base.py), produced by a fee model for each side. */
module Fees {
  import opened Common
  import opened Fifo

  datatype Fill = Fill(price: real, fees: real, slippage: real)

  datatype FeeModel = FeeModel(buy: (real, real) -> Fill, sell: (real, real) -> Fill)

  /** Cash from selling `quantity` at the raw market price, after fees. */
  function Proceeds(model: FeeModel, price: real, quantity: real): real {
    var fill := model.sell(price, quantity);
    Worth(fill.price, quantity) - fill.fees
  }

  /** A higher raw price never brings in less. */
  ghost predicate ProceedsGrow(model: FeeModel) {
    forall a, b, q :: q > 0.0 && 0.0 <= a <= b ==> Proceeds(model, a, q) <= Proceeds(model, b, q)
  }

  /** A charge proportional to turnover plus a fixed one, on a price moved against the trader.
      Every shipped model has this form. */
  function LinearFill(price: real, quantity: real, executed: real, rate: real, fixed: real): Fill {
    Fill(executed, executed * quantity * rate + fixed, Abs(executed - price) * quantity)
  }

  /** The price with slippage added, or taken off when it is negative. */
  function Moved(price: real, slippage: real): real { price * (1.0 + slippage) }

  /** The NSE equity model: variable rate, fixed charge per order and slippage rate. */
  function Nse(rate: real, fixed: real, slippage: real): FeeModel {
    FeeModel(
      (price: real, quantity: real) => LinearFill(price, quantity, Moved(price, slippage), rate, fixed),
      (price: real, quantity: real) => LinearFill(price, quantity, Moved(price, -slippage), rate, fixed))
  }

  /** The research model: percentage cost and slippage in basis points, no fixed charge. */
  function Percentage(costBps: real, slippageBps: real): FeeModel {
    Nse(costBps / 10000.0, 0.0, slippageBps / 10000.0)
  }

  const NSE_DEFAULT := Nse(0.00111, 20.0, 0.0005)

  /** What a linear sale nets, with the two rates collected into one factor. */
  function Keep(rate: real, slippage: real): real { (1.0 - slippage) * (1.0 - rate) }

  lemma LinearProceeds(price: real, q: real, rate: real, slippage: real, fixed: real)
    ensures var executed := price * (1.0 - slippage);
            Worth(executed, q) - (executed * q * rate + fixed) == Keep(rate, slippage) * (price * q) - fixed
  {
    var e := price * (1.0 - slippage);
    assert e * q - e * q * rate == (e * q) * (1.0 - rate);
    assert e * q == (1.0 - slippage) * (price * q);
    var w := price * q;
    assert ((1.0 - slippage) * w) * (1.0 - rate) == ((1.0 - slippage) * (1.0 - rate)) * w;
  }

  lemma NseProceeds(rate: real, fixed: real, slippage: real, price: real, q: real)
    ensures Proceeds(Nse(rate, fixed, slippage), price, q) == Keep(rate, slippage) * (price * q) - fixed
  {
    LinearProceeds(price, q, rate, slippage, fixed);
    assert Nse(rate, fixed, slippage).sell(price, q)
        == LinearFill(price, q, price * (1.0 - slippage), rate, fixed);
  }

  /** What a purchase costs: the raw value raised by slippage, the variable charge on top, and the fixed one; the
      slippage reported is the part of the price that was not asked for. */
  lemma NsePurchase(rate: real, fixed: real, slippage: real, price: real, q: real)
    requires slippage >= 0.0 && price >= 0.0
    ensures var fill := Nse(rate, fixed, slippage).buy(price, q);
            && Worth(fill.price, q) + fill.fees == (1.0 + slippage) * (1.0 + rate) * (price * q) + fixed
            && fill.slippage == slippage * (price * q)
  {
    var fill := Nse(rate, fixed, slippage).buy(price, q);
    assert fill.price == price * (1.0 + slippage);
    assert fill.fees == fill.price * q * rate + fixed && fill.slippage == Abs(fill.price - price) * q;
    PurchaseIs(price, q, fill.price, rate, slippage);
  }

  lemma PurchaseIs(price: real, q: real, executed: real, rate: real, slippage: real)
    requires slippage >= 0.0 && price >= 0.0 && executed == price * (1.0 + slippage)
    ensures executed * q + executed * q * rate == (1.0 + slippage) * (1.0 + rate) * (price * q)
    ensures Abs(executed - price) * q == slippage * (price * q)
  {
    var w := price * q;
    assert executed * q == (1.0 + slippage) * w;
    assert executed * q + executed * q * rate == (executed * q) * (1.0 + rate);
    assert ((1.0 + slippage) * w) * (1.0 + rate) == (1.0 + slippage) * (1.0 + rate) * w;
    ScaleOrder(price, 0.0, slippage);
    assert executed - price == slippage * price;
    assert (slippage * price) * q == slippage * (price * q);
  }

  lemma PercentageProceeds(costBps: real, slippageBps: real, price: real, q: real)
    ensures Proceeds(Percentage(costBps, slippageBps), price, q)
         == Keep(costBps / 10000.0, slippageBps / 10000.0) * (price * q)
  {
    NseProceeds(costBps / 10000.0, 0.0, slippageBps / 10000.0, price, q);
  }

  /** The NSE model's proceeds never fall as the price rises exactly when a sale keeps no negative share of its
      value, that is, unless one of rate and slippage, and not the other, is above 100%. */
  lemma NseGrows(rate: real, fixed: real, slippage: real)
    ensures ProceedsGrow(Nse(rate, fixed, slippage)) <==> Keep(rate, slippage) >= 0.0
    ensures Keep(rate, slippage) >= 0.0 <==> !((rate > 1.0 && slippage < 1.0) || (rate < 1.0 && slippage > 1.0))
  {
    var model, k := Nse(rate, fixed, slippage), Keep(rate, slippage);
    KeepSign(rate, slippage);
    hide Keep;
    if k >= 0.0 {
      forall a, b, q | q > 0.0 && 0.0 <= a <= b ensures Proceeds(model, a, q) <= Proceeds(model, b, q) {
        NseProceeds(rate, fixed, slippage, a, q);
        NseProceeds(rate, fixed, slippage, b, q);
        ScaleOrder(q, a, b);
        ScaleOrder(k, a * q, b * q);
      }
    } else {
      NseProceeds(rate, fixed, slippage, 0.0, 1.0);
      NseProceeds(rate, fixed, slippage, 1.0, 1.0);
      assert Proceeds(model, 0.0, 1.0) > Proceeds(model, 1.0, 1.0);
    }
  }

  lemma KeepSign(rate: real, slippage: real)
    ensures Keep(rate, slippage) >= 0.0 <==> !((rate > 1.0 && slippage < 1.0) || (rate < 1.0 && slippage > 1.0))
  {
    var a, b := 1.0 - slippage, 1.0 - rate;
    if a > 0.0 && b < 0.0 { Opposite(a, -b); assert a * b == -(a * (-b)); }
    if a < 0.0 && b > 0.0 { Opposite(-a, b); assert a * b == -((-a) * b); }
    if a >= 0.0 && b >= 0.0 { ScaleOrder(a, 0.0, b); }
    if a <= 0.0 && b <= 0.0 { ScaleOrder(-a, 0.0, -b); assert a * b == (-a) * (-b); }
  }

  lemma Opposite(a: real, b: real)
    requires a > 0.0 && b > 0.0
    ensures a * b > 0.0
  {}

  lemma KeepNonNegative(rate: real, slippage: real)
    requires 0.0 <= rate <= 1.0 && 0.0 <= slippage <= 1.0
    ensures Keep(rate, slippage) >= 0.0
    ensures Keep(rate, slippage) > 0.0 <==> rate < 1.0 && slippage < 1.0
  {
    var a, b := 1.0 - slippage, 1.0 - rate;
    assert a > 0.0 && b > 0.0 ==> a * b > 0.0;
    assert a == 0.0 || b == 0.0 ==> a * b == 0.0;
  }

  /** Every validated percentage model (0 to 10000 bps) has growing proceeds. */
  lemma PercentageGrows(costBps: real, slippageBps: real)
    requires 0.0 <= costBps <= 10000.0 && 0.0 <= slippageBps <= 10000.0
    ensures ProceedsGrow(Percentage(costBps, slippageBps))
  {
    NseGrows(costBps / 10000.0, 0.0, slippageBps / 10000.0);
    assert Percentage(costBps, slippageBps) == Nse(costBps / 10000.0, 0.0, slippageBps / 10000.0);
  }

  /** A validated percentage model can reach a positive amount exactly when neither of its
      charges takes everything. */
  lemma PercentageReaches(costBps: real, slippageBps: real, q: real, desired: real)
    requires 0.0 <= costBps <= 10000.0 && 0.0 <= slippageBps <= 10000.0
    requires q > 0.0 && desired > 0.0
    ensures (exists w :: 0.0 <= w && Proceeds(Percentage(costBps, slippageBps), w, q) >= desired)
       <==> costBps < 10000.0 && slippageBps < 10000.0
  {
    var model := Percentage(costBps, slippageBps);
    var k := Keep(costBps / 10000.0, slippageBps / 10000.0);
    KeepNonNegative(costBps / 10000.0, slippageBps / 10000.0);
    if costBps < 10000.0 && slippageBps < 10000.0 {
      var w := desired / k / q;
      PercentageProceeds(costBps, slippageBps, w, q);
      assert w * q == desired / k;
      assert k * (desired / k) == desired;
      assert w >= 0.0 && Proceeds(model, w, q) >= desired;
    } else {
      forall w | 0.0 <= w ensures Proceeds(model, w, q) < desired {
        PercentageProceeds(costBps, slippageBps, w, q);
        assert k == 0.0;
      }
    }
  }
}
