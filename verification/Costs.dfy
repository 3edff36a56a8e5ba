/** Trading costs in basis points. */
module Costs {
  function Notional(price: real, qty: real): real {
    price * qty
  }

  datatype CostModel = CostModel(feeBps: real, sellTaxBps: real, slippageBps: real)
  {
    function BuyPrice(ref: real): real {
      ref * (1.0 + slippageBps / 10000.0)
    }

    function SellPrice(ref: real): real {
      ref * (1.0 - slippageBps / 10000.0)
    }

    function Fee(notional: real): real {
      notional * feeBps / 10000.0
    }

    /** Only domestic sales are taxed. */
    function SellTax(notional: real, domestic: bool): real {
      if domestic then notional * sellTaxBps / 10000.0 else 0.0
    }

    /** Selling never costs more than it brings in. */
    predicate Sane() {
      0.0 <= slippageBps <= 10000.0 && feeBps >= 0.0 && sellTaxBps >= 0.0 && feeBps + sellTaxBps <= 10000.0
    }
  }

  /** Of something positive a part is left exactly when no more than all of it is taken. */
  lemma KeepsPart(notional: real, fee: real, tax: real)
    requires notional >= 0.0
    ensures notional - notional * fee / 10000.0 - notional * tax / 10000.0 >= 0.0 <==> notional == 0.0 || fee + tax <= 10000.0
  {
    var left := 10000.0 - fee - tax;
    assert notional * left == notional * 10000.0 - notional * fee - notional * tax;
    if notional > 0.0 {
      SignOfProduct(notional, left);
    }
  }

  lemma SignOfProduct(x: real, y: real)
    requires x > 0.0
    ensures x * y >= 0.0 <==> y >= 0.0
  {
    if y < 0.0 {
      ProductPositive(x, -y);
      assert x * y == -(x * -y);
    } else {
      ProductNonNegative(x, y);
    }
  }

  lemma ProductPositive(x: real, y: real)
    requires x > 0.0 && y > 0.0
    ensures x * y > 0.0
  {
  }

  lemma ProductNonNegative(x: real, y: real)
    requires x >= 0.0 && y >= 0.0
    ensures x * y >= 0.0
  {
  }
}
