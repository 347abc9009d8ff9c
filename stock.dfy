/**
 * Stock control (`StockManager`): the USD-to-BRL price calculator with a
 * profit margin, the product picker and the stock-entry form.
 */
module Stock {
  import opened Wrappers
  import Seqs
  import Numbers

  datatype StockItem = StockItem(
    id: int,
    name: string,
    code: string,
    quantity: int,
    costPrice: real,
    sellPrice: real,
    category: string,
    condition: string,
    controlType: string,
    identifiers: Option<seq<string>>)

  datatype EntryData = EntryData(quantity: string, costPrice: string, identifiers: string)

  /** The calculator's three text inputs and its last result. */
  datatype PriceCalculator = PriceCalculator(
    dollarPrice: string,
    exchangeRate: string,
    profitMargin: string,
    finalPrice: Numbers.Number)

  const BlankEntry := EntryData("", "", "")

  /** The sale price in reais for a dollar price, an exchange rate and a
      margin in percent. */
  function FinalPrice(dollarPrice: real, exchangeRate: real, profitMargin: real): real {
    dollarPrice * exchangeRate * (1.0 + profitMargin / 100.0)
  }

  /** The margin a final price represents over the plain conversion `base`. */
  function MarginOver(base: real, finalPrice: real): real
    requires base != 0.0
  {
    (finalPrice / base - 1.0) * 100.0
  }

  /** A zero margin is the plain conversion; for a positive conversion the price
      grows strictly with the margin, and the margin can be read back from it. */
  lemma FinalPriceSpec(dollarPrice: real, exchangeRate: real, m1: real, m2: real)
    ensures FinalPrice(dollarPrice, exchangeRate, 0.0) == dollarPrice * exchangeRate
    ensures dollarPrice * exchangeRate > 0.0 && m1 < m2 ==>
      FinalPrice(dollarPrice, exchangeRate, m1) < FinalPrice(dollarPrice, exchangeRate, m2)
    ensures dollarPrice * exchangeRate != 0.0 ==>
      MarginOver(dollarPrice * exchangeRate, FinalPrice(dollarPrice, exchangeRate, m1)) == m1
  {
    var base := dollarPrice * exchangeRate;
    if base > 0.0 && m1 < m2 {
      assert FinalPrice(dollarPrice, exchangeRate, m2) - FinalPrice(dollarPrice, exchangeRate, m1)
        == base * ((m2 - m1) / 100.0);
      Numbers.PositiveProduct(base, (m2 - m1) / 100.0);
    }
    if base != 0.0 {
      assert FinalPrice(dollarPrice, exchangeRate, m1) == base * (1.0 + m1 / 100.0);
      DivideBack(base, 1.0 + m1 / 100.0);
    }
  }

  lemma DivideBack(x: real, y: real)
    requires x != 0.0
    ensures (x * y) / x == y
  {
  }

  /** The formula on JavaScript numbers: finite exactly when all three inputs are. */
  function FinalPriceOf(dollarPrice: Numbers.Number, exchangeRate: Numbers.Number, profitMargin: Numbers.Number): (r: Numbers.Number)
    ensures r.Finite? <==> dollarPrice.Finite? && exchangeRate.Finite? && profitMargin.Finite?
    ensures r.Finite? ==> r.value == FinalPrice(dollarPrice.value, exchangeRate.value, profitMargin.value)
  {
    Numbers.Mul(Numbers.Mul(dollarPrice, exchangeRate),
      Numbers.Add(Numbers.Finite(1.0), Numbers.Div(profitMargin, Numbers.Finite(100.0))))
  }

  /** `id.toString()`. */
  function IdText(id: int): (r: string)
    ensures |r| >= 1 && (r[0] == '-' <==> id < 0)
  {
    if id >= 0 then Numbers.NatToString(id) else "-" + Numbers.NatToString(-id)
  }

  /** Different ids print differently. */
  lemma IdTextInjective(a: int, b: int)
    requires IdText(a) == IdText(b)
    ensures a == b
  {
    if a >= 0 && b >= 0 {
      Numbers.DigitsValueOfNatToString(a);
      Numbers.DigitsValueOfNatToString(b);
    } else if a < 0 && b < 0 {
      assert IdText(a)[1..] == Numbers.NatToString(-a);
      assert IdText(b)[1..] == Numbers.NatToString(-b);
      Numbers.DigitsValueOfNatToString(-a);
      Numbers.DigitsValueOfNatToString(-b);
    }
  }

  function ItemIdText(item: StockItem): string { IdText(item.id) }

  /** The picker: the first item whose id prints as the selected value. */
  function Selected(items: seq<StockItem>, value: string): (r: Option<StockItem>)
    ensures r.Some? ==> r.value in items && IdText(r.value.id) == value
    ensures r.None? <==> forall i :: 0 <= i < |items| ==> IdText(items[i].id) != value
    ensures forall i ::
      (0 <= i < |items| && IdText(items[i].id) == value
        && (forall j :: 0 <= j < i ==> IdText(items[j].id) != value)) ==> r == Some(items[i])
  {
    var found := Seqs.FindKey(items, ItemIdText, value);
    assert forall i :: 0 <= i < |items| ==> ItemIdText(items[i]) == IdText(items[i].id);
    if found.None? then None else Some(items[found.value])
  }

  /** With distinct ids, picking an item's own id selects that item. */
  lemma SelectOwnId(items: seq<StockItem>, i: nat)
    requires i < |items|
    requires forall j, k :: 0 <= j < k < |items| ==> items[j].id != items[k].id
    ensures Selected(items, IdText(items[i].id)) == Some(items[i])
  {
    var r := Seqs.FindKey(items, ItemIdText, IdText(items[i].id));
    assert ItemIdText(items[i]) == IdText(items[i].id);
    var j := r.value;
    IdTextInjective(items[j].id, items[i].id);
  }

  function SeedItems(): seq<StockItem> {
    [ StockItem(1, "iPhone 13 Pro Max 256GB", "IP13PM256", 5, 3800.00, 4200.00, "Smartphone",
        "new", "unique", Some(["IMEI001", "IMEI002", "IMEI003", "IMEI004", "IMEI005"])),
      StockItem(2, "Cabo USB-C", "CABO001", 50, 15.00, 25.00, "Acess\U{00F3}rios",
        "new", "quantity", None) ]
  }

  class StockManager {
    const stockItems: seq<StockItem>
    var selectedProduct: Option<StockItem>
    var entryData: EntryData
    var priceCalculator: PriceCalculator

    constructor ()
      ensures stockItems == SeedItems() && selectedProduct.None? && entryData == BlankEntry
      ensures priceCalculator == PriceCalculator("", "", "", Numbers.Finite(0.0))
    {
      stockItems := SeedItems();
      selectedProduct := None;
      entryData := BlankEntry;
      priceCalculator := PriceCalculator("", "", "", Numbers.Finite(0.0));
    }

    /** The product picker's `onValueChange`. */
    method SelectProduct(value: string)
      modifies this`selectedProduct
      ensures selectedProduct == Selected(stockItems, value)
    {
      selectedProduct := Selected(stockItems, value);
    }

    method EditEntry(data: EntryData)
      modifies this`entryData
      ensures entryData == data
    {
      entryData := data;
    }

    /** An edit of the calculator's three inputs; the result is kept. */
    method EditPriceInputs(dollarPrice: string, exchangeRate: string, profitMargin: string)
      modifies this`priceCalculator
      ensures priceCalculator == old(priceCalculator).(dollarPrice := dollarPrice,
        exchangeRate := exchangeRate, profitMargin := profitMargin)
    {
      priceCalculator := priceCalculator.(dollarPrice := dollarPrice,
        exchangeRate := exchangeRate, profitMargin := profitMargin);
    }

    /** `calculatePrice`: with all three inputs filled in, stores the parsed
        formula's value as the final price and keeps the inputs. */
    method CalculatePrice()
      modifies this`priceCalculator
      ensures var c := old(priceCalculator);
        if c.dollarPrice != "" && c.exchangeRate != "" && c.profitMargin != "" then
          priceCalculator == c.(finalPrice := FinalPriceOf(Numbers.ParseFloat(c.dollarPrice),
            Numbers.ParseFloat(c.exchangeRate), Numbers.ParseFloat(c.profitMargin)))
        else
          priceCalculator == c
    {
      var c := priceCalculator;
      if c.dollarPrice != "" && c.exchangeRate != "" && c.profitMargin != "" {
        var finalPrice := FinalPriceOf(Numbers.ParseFloat(c.dollarPrice),
          Numbers.ParseFloat(c.exchangeRate), Numbers.ParseFloat(c.profitMargin));
        priceCalculator := c.(finalPrice := finalPrice);
      }
    }

    /** `handleStockEntry`: with a product picked and a cost typed, clears the
        form and the selection; the stock list itself is never changed. */
    method StockEntry() returns (accepted: bool)
      modifies this`entryData, this`selectedProduct
      ensures accepted <==> old(selectedProduct).Some? && old(entryData).costPrice != ""
      ensures accepted ==> entryData == BlankEntry && selectedProduct.None?
      ensures !accepted ==> entryData == old(entryData) && selectedProduct == old(selectedProduct)
    {
      accepted := selectedProduct.Some? && entryData.costPrice != "";
      if accepted {
        entryData := BlankEntry;
        selectedProduct := None;
      }
    }
  }
}
