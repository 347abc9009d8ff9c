/**
 * The profit calculator of the financial screen (`FinancialManager`): profit
 * and margin from a cost, a sale price and optional expenses typed as text.
 */
module Financial {
  import Numbers

  datatype ProfitCalculator = ProfitCalculator(
    costPrice: string,
    sellPrice: string,
    expenses: string,
    margin: Numbers.Number,
    profit: Numbers.Number)

  function Profit(sell: real, cost: real, expenses: real): real {
    sell - cost - expenses
  }

  /** The margin in percent of the sale price; JavaScript gives NaN or
      ±Infinity for a zero sale price. */
  function Margin(profit: real, sell: real): real
    requires sell != 0.0
  {
    profit / sell * 100.0
  }

  /** Cost, expenses and profit make up the sale price; the margin gives the
      profit back, has the sign of the profit for a positive sale price, and is
      100% exactly when cost and expenses sum to nothing. */
  lemma ProfitAndMarginSpec(sell: real, cost: real, expenses: real)
    ensures cost + expenses + Profit(sell, cost, expenses) == sell
    ensures sell != 0.0 ==> Margin(Profit(sell, cost, expenses), sell) * sell / 100.0 == Profit(sell, cost, expenses)
    ensures sell > 0.0 ==>
      && (Margin(Profit(sell, cost, expenses), sell) > 0.0 <==> Profit(sell, cost, expenses) > 0.0)
      && (Margin(Profit(sell, cost, expenses), sell) == 100.0 <==> cost + expenses == 0.0)
  {
    var p := Profit(sell, cost, expenses);
    if sell != 0.0 {
      var q := p / sell;
      assert q * sell == p;
      assert Margin(p, sell) * sell / 100.0 == q * sell;
    }
    if sell > 0.0 {
      var q := p / sell;
      assert q * sell == p;
      if q > 0.0 { Numbers.PositiveProduct(q, sell); }
      if p > 0.0 { assert q > 0.0 by { if q <= 0.0 { Numbers.NonNegativeProduct(-q, sell); } } }
      assert q == 1.0 <==> p == sell;
    }
  }

  /** `calculateProfit`'s arithmetic on parsed numbers: expenses that are empty
      or do not parse count as 0. */
  function ProfitOf(cost: Numbers.Number, sell: Numbers.Number, expenses: Numbers.Number): (r: Numbers.Number)
    ensures r.Finite? <==> cost.Finite? && sell.Finite?
    ensures r.Finite? ==> r.value == Profit(sell.value, cost.value, Numbers.OrZero(expenses))
  {
    Numbers.Sub(Numbers.Sub(sell, cost), Numbers.Finite(Numbers.OrZero(expenses)))
  }

  /** Blank expenses, and any that do not parse, weigh the same as 0. */
  lemma BlankExpensesCountAsZero(cost: Numbers.Number, sell: Numbers.Number, expenses: string)
    requires !Numbers.ParseFloat(expenses).Finite?
    ensures ProfitOf(cost, sell, Numbers.ParseFloat(expenses)) == ProfitOf(cost, sell, Numbers.Finite(0.0))
    ensures ProfitOf(cost, sell, Numbers.ParseFloat("")) == ProfitOf(cost, sell, Numbers.Finite(0.0))
  {
    Numbers.ParseEmpty();
  }

  function MarginOf(profit: Numbers.Number, sell: Numbers.Number): (r: Numbers.Number)
    ensures r.Finite? <==> profit.Finite? && sell.Finite? && sell.value != 0.0
    ensures r.Finite? ==> r.value == Margin(profit.value, sell.value)
  {
    Numbers.Mul(Numbers.Div(profit, sell), Numbers.Finite(100.0))
  }

  class FinancialManager {
    var profitCalculator: ProfitCalculator

    constructor ()
      ensures profitCalculator == ProfitCalculator("", "", "", Numbers.Finite(0.0), Numbers.Finite(0.0))
    {
      profitCalculator := ProfitCalculator("", "", "", Numbers.Finite(0.0), Numbers.Finite(0.0));
    }

    /** An edit of the three inputs; the last results are kept. */
    method EditInputs(costPrice: string, sellPrice: string, expenses: string)
      modifies this`profitCalculator
      ensures profitCalculator == old(profitCalculator).(costPrice := costPrice,
        sellPrice := sellPrice, expenses := expenses)
    {
      profitCalculator := profitCalculator.(costPrice := costPrice,
        sellPrice := sellPrice, expenses := expenses);
    }

    /** `calculateProfit`: with a cost and a sale price typed, stores the profit
        and the margin and keeps the inputs; otherwise does nothing. */
    method CalculateProfit()
      modifies this`profitCalculator
      ensures var c := old(profitCalculator);
        if c.costPrice != "" && c.sellPrice != "" then
          var profit := ProfitOf(Numbers.ParseFloat(c.costPrice), Numbers.ParseFloat(c.sellPrice),
            Numbers.ParseFloat(c.expenses));
          profitCalculator == c.(profit := profit, margin := MarginOf(profit, Numbers.ParseFloat(c.sellPrice)))
        else
          profitCalculator == c
    {
      var c := profitCalculator;
      if c.costPrice != "" && c.sellPrice != "" {
        var cost := Numbers.ParseFloat(c.costPrice);
        var sell := Numbers.ParseFloat(c.sellPrice);
        var exp := Numbers.ParseFloat(c.expenses);
        var profit := ProfitOf(cost, sell, exp);
        profitCalculator := c.(profit := profit, margin := MarginOf(profit, sell));
      }
    }
  }
}
