/**
 * The serialized inventory (`SerializedInventory`): one record per physical
 * unit, a three-way filter, the per-unit margin and the summary counters.
 */
module Inventory {
  import Seqs
  import Text

  datatype Status = Available | Sold | Reserved

  /** A unit in stock. Entry and sale dates and notes are not modelled. */
  datatype Unit = Unit(
    id: string,
    serialNumber: string,
    model: string,
    category: string,
    purchasePrice: real,
    salePrice: real,
    status: Status,
    supplier: string)

  /** The value the status selector uses for each status. */
  function StatusName(s: Status): string {
    match s
    case Available => "available"
    case Sold => "sold"
    case Reserved => "reserved"
  }

  const All := "all"

  /** Case-insensitive search in the model or the serial number. */
  predicate MatchesSearch(u: Unit, term: string) {
    Text.Contains(Text.Lower(u.model), Text.Lower(term))
    || Text.Contains(Text.Lower(u.serialNumber), Text.Lower(term))
  }

  predicate Matches(u: Unit, term: string, category: string, status: string) {
    && MatchesSearch(u, term)
    && (category == All || u.category == category)
    && (status == All || StatusName(u.status) == status)
  }

  function Matcher(term: string, category: string, status: string): Unit -> bool {
    (u: Unit) => Matches(u, term, category, status)
  }

  /** `filteredProducts`. */
  function FilteredUnits(units: seq<Unit>, term: string, category: string, status: string): seq<Unit> {
    Seqs.Filter(units, Matcher(term, category, status))
  }

  /** The filter keeps exactly the units passing all three tests, in order; with
      an empty search and both selectors on "all" it keeps everything. */
  lemma FilteredUnitsSpec(units: seq<Unit>, term: string, category: string, status: string)
    ensures forall u :: u in FilteredUnits(units, term, category, status) <==>
      u in units && Matches(u, term, category, status)
    ensures Seqs.IsSubsequence(FilteredUnits(units, term, category, status), units)
    ensures term == "" && category == All && status == All ==>
      FilteredUnits(units, term, category, status) == units
  {
    var p := Matcher(term, category, status);
    Seqs.FilterExact(units, p);
    if term == "" && category == All && status == All {
      forall i | 0 <= i < |units| ensures p(units[i]) {
        Text.ContainsEmpty(Text.Lower(units[i].model));
      }
      Seqs.FilterAll(units, p);
    }
  }

  /** `calculateMargin` before `toFixed(1)`: the markup over the purchase price,
      in percent. */
  function Margin(purchasePrice: real, salePrice: real): real
    requires purchasePrice != 0.0
  {
    (salePrice - purchasePrice) / purchasePrice * 100.0
  }

  /** Applying the margin to the purchase price gives the sale price back; the
      margin is positive exactly when a positive purchase price is exceeded. */
  lemma MarginSpec(purchasePrice: real, salePrice: real)
    requires purchasePrice != 0.0
    ensures purchasePrice * (1.0 + Margin(purchasePrice, salePrice) / 100.0) == salePrice
    ensures purchasePrice > 0.0 ==> (Margin(purchasePrice, salePrice) > 0.0 <==> salePrice > purchasePrice)
  {
    var q := (salePrice - purchasePrice) / purchasePrice;
    assert q * purchasePrice == salePrice - purchasePrice;
    assert Margin(purchasePrice, salePrice) / 100.0 == q;
    if purchasePrice > 0.0 {
      if q > 0.0 {
        assert q * purchasePrice > 0.0;
      } else {
        assert (-q) * purchasePrice >= 0.0;
      }
    }
  }

  function HasStatus(s: Status): Unit -> bool {
    (u: Unit) => u.status == s
  }

  function CountStatus(units: seq<Unit>, s: Status): nat {
    |Seqs.Filter(units, HasStatus(s))|
  }

  function SalePrice(u: Unit): real { u.salePrice }

  /** The counters of the summary cards. */
  datatype Stats = Stats(total: nat, available: nat, sold: nat, totalValue: real)

  /** `stats`: the stock value is the sale price of the available units only. */
  function StatsOf(units: seq<Unit>): Stats {
    Stats(|units|, CountStatus(units, Available), CountStatus(units, Sold),
      Seqs.Sum(Seqs.Filter(units, HasStatus(Available)), SalePrice))
  }

  /** The value each unit contributes to the stock value. */
  function AvailableValue(u: Unit): real {
    if u.status == Available then u.salePrice else 0.0
  }

  /** Every unit has exactly one of the three statuses, so reserved units are
      counted neither as available nor as sold. */
  lemma {:induction false} StatusPartition(units: seq<Unit>)
    ensures CountStatus(units, Available) + CountStatus(units, Sold) + CountStatus(units, Reserved) == |units|
    ensures StatsOf(units).available + StatsOf(units).sold <= StatsOf(units).total
  {
    if units != [] {
      StatusPartition(units[1..]);
    }
  }

  /** The stock value, unit by unit: a sold or reserved unit adds nothing. */
  lemma {:induction false} TotalValueSpec(units: seq<Unit>)
    ensures StatsOf(units).totalValue == Seqs.Sum(units, AvailableValue)
    ensures (forall i :: 0 <= i < |units| ==> units[i].salePrice >= 0.0) ==> StatsOf(units).totalValue >= 0.0
  {
    if units != [] {
      TotalValueSpec(units[1..]);
    }
  }

  function SeedUnits(): seq<Unit> {
    [ Unit("1", "IP13P001", "iPhone 13 Pro 128GB", "Smartphones", 3500.0, 4200.0, Available, "Tech Import"),
      Unit("2", "IP13P002", "iPhone 13 Pro 128GB", "Smartphones", 3600.0, 4200.0, Sold, "Tech Import") ]
  }

  /** The seeded stock: two units, one available and one sold, worth 4200. */
  lemma SeedStats()
    ensures StatsOf(SeedUnits()) == Stats(2, 1, 1, 4200.0)
  {
    var u := SeedUnits();
    assert u[1..][1..] == [];
    TotalValueSpec(u);
    assert Seqs.Sum(u, AvailableValue) == 4200.0 + Seqs.Sum(u[1..], AvailableValue);
  }
}
