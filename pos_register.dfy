/**
 * The older point-of-sale screen (`POSSystem`): serialized items added to a
 * sale, a percentage discount, and a sale completion that clears the sale but
 * keeps the chosen payment method.
 */
module PosRegister {
  import opened Wrappers
  import Seqs
  import Numbers

  datatype Product = Product(id: string, serialNumber: string, model: string, price: real)

  datatype SaleItem = SaleItem(id: string, serialNumber: string, model: string, price: real, quantity: int)

  datatype Customer = Customer(id: string, name: string, whatsapp: string, email: Option<string>)

  /** What `completeSale` hands to the log (the timestamp is left out). */
  datatype Receipt = Receipt(
    items: seq<SaleItem>,
    customer: Option<Customer>,
    paymentMethod: string,
    subtotal: real,
    discount: real,
    total: real)

  function ItemId(item: SaleItem): string { item.id }

  function LineTotal(item: SaleItem): real { item.price * item.quantity as real }

  function CustomerId(c: Customer): string { c.id }

  predicate UniqueIds(items: seq<SaleItem>) {
    Seqs.DistinctKeys(items, ItemId)
  }

  predicate PositiveQuantities(items: seq<SaleItem>) {
    forall k :: 0 <= k < |items| ==> items[k].quantity >= 1
  }

  /** `addToSale`. */
  function AddedToSale(items: seq<SaleItem>, p: Product): seq<SaleItem> {
    match Seqs.FindKey(items, ItemId, p.id)
    case None => items + [SaleItem(p.id, p.serialNumber, p.model, p.price, 1)]
    case Some(_) =>
      seq(|items|, k requires 0 <= k < |items| =>
        if items[k].id == p.id then items[k].(quantity := items[k].quantity + 1) else items[k])
  }

  function NotId(id: string): SaleItem -> bool {
    (item: SaleItem) => item.id != id
  }

  /** `removeFromSale`. */
  function Removed(items: seq<SaleItem>, id: string): seq<SaleItem> {
    Seqs.Filter(items, NotId(id))
  }

  /** `updateQuantity`: 0 or less removes the line, anything else is stored. */
  function QuantityUpdated(items: seq<SaleItem>, id: string, newQuantity: int): seq<SaleItem> {
    if newQuantity <= 0 then Removed(items, id)
    else
      seq(|items|, k requires 0 <= k < |items| =>
        if items[k].id == id then items[k].(quantity := newQuantity) else items[k])
  }

  function Subtotal(items: seq<SaleItem>): real {
    Seqs.Sum(items, LineTotal)
  }

  /** `discountAmount`: the discount is a percentage of the subtotal. */
  function DiscountAmount(items: seq<SaleItem>, discount: real): real {
    Subtotal(items) * discount / 100.0
  }

  function Total(items: seq<SaleItem>, discount: real): real {
    Subtotal(items) - DiscountAmount(items, discount)
  }

  /** Adding gives a one-unit line to a new product and one more unit to an
      existing line; ids stay unique and quantities positive. */
  lemma AddSpec(items: seq<SaleItem>, p: Product)
    requires UniqueIds(items) && PositiveQuantities(items)
    ensures var r := AddedToSale(items, p);
      && UniqueIds(r) && PositiveQuantities(r)
      && ((forall k :: 0 <= k < |items| ==> items[k].id != p.id) ==>
            r == items + [SaleItem(p.id, p.serialNumber, p.model, p.price, 1)])
      && (forall i :: 0 <= i < |items| && items[i].id == p.id ==>
            r == items[i := items[i].(quantity := items[i].quantity + 1)])
  {
    var r := AddedToSale(items, p);
    assert forall k :: 0 <= k < |items| ==> ItemId(r[k]) == ItemId(items[k]);
  }

  /** Updating removes the line for 0 or less and otherwise sets exactly the
      new quantity; ids stay unique and quantities positive. */
  lemma UpdateSpec(items: seq<SaleItem>, id: string, newQuantity: int)
    requires UniqueIds(items) && PositiveQuantities(items)
    ensures var r := QuantityUpdated(items, id, newQuantity);
      && UniqueIds(r) && PositiveQuantities(r)
      && (newQuantity <= 0 ==> forall x :: x in r <==> x in items && x.id != id)
      && (newQuantity > 0 ==> forall i :: 0 <= i < |items| && items[i].id == id ==>
            r == items[i := items[i].(quantity := newQuantity)])
  {
    var r := QuantityUpdated(items, id, newQuantity);
    if newQuantity <= 0 {
      forall x ensures x in r <==> x in items && x.id != id {
        Seqs.FilterMembership(items, NotId(id), x);
      }
      Seqs.FilterDistinct(items, NotId(id), ItemId);
      assert forall k :: 0 <= k < |r| ==> r[k] in r;
    } else {
      assert forall k :: 0 <= k < |items| ==> ItemId(r[k]) == ItemId(items[k]);
    }
  }

  /** With prices that are not negative and a discount in the 0..100 range of
      the input field, the total lies between 0 and the subtotal. */
  lemma TotalBounds(items: seq<SaleItem>, discount: real)
    requires PositiveQuantities(items)
    requires forall k :: 0 <= k < |items| ==> items[k].price >= 0.0
    requires 0.0 <= discount <= 100.0
    ensures 0.0 <= Total(items, discount) <= Subtotal(items)
  {
    forall k | 0 <= k < |items| ensures LineTotal(items[k]) >= 0.0 {
      Numbers.NonNegativeProduct(items[k].price, items[k].quantity as real);
    }
    Seqs.SumNonNegative(items, LineTotal);
    var s := Subtotal(items);
    Numbers.NonNegativeProduct(s, discount);
    Numbers.NonNegativeProduct(s, 100.0 - discount);
    assert s * (100.0 - discount) == s * 100.0 - s * discount;
  }

  /** The worked example: 4200 x 1 plus 25 x 2 is 4250, and 10% off is 3825. */
  lemma TenPercentExample()
    ensures var items := [SaleItem("1", "IP13P001", "iPhone 13 Pro 128GB", 4200.0, 1),
                          SaleItem("3", "CABO001", "Cabo USB-C", 25.0, 2)];
      Subtotal(items) == 4250.0 && Total(items, 10.0) == 3825.0
  {
    var items := [SaleItem("1", "IP13P001", "iPhone 13 Pro 128GB", 4200.0, 1),
                  SaleItem("3", "CABO001", "Cabo USB-C", 25.0, 2)];
    assert items[1..][1..] == [];
    assert Subtotal(items) == 4200.0 + 50.0;
  }

  /** The customer `select`: the value picks the first customer with that id;
      the empty "Selecionar cliente" option picks nobody. */
  function SelectedBy(customers: seq<Customer>, value: string): (r: Option<Customer>)
    ensures r.Some? ==> r.value in customers && r.value.id == value
    ensures r.None? <==> forall k :: 0 <= k < |customers| ==> customers[k].id != value
    ensures forall k ::
      (0 <= k < |customers| && customers[k].id == value
        && (forall j :: 0 <= j < k ==> customers[j].id != value)) ==> r == Some(customers[k])
    ensures (forall k :: 0 <= k < |customers| ==> customers[k].id != "") && value == "" ==> r == None
  {
    match Seqs.FindKey(customers, CustomerId, value)
    case None => None
    case Some(i) => Some(customers[i])
  }

  class Register {
    const products: seq<Product>
    const customers: seq<Customer>
    var saleItems: seq<SaleItem>
    var selectedCustomer: Option<Customer>
    var paymentMethod: string
    var discount: real

    ghost predicate Valid()
      reads this
    {
      UniqueIds(saleItems) && PositiveQuantities(saleItems)
    }

    constructor (catalogue: seq<Product>, registered: seq<Customer>)
      ensures Valid()
      ensures products == catalogue && customers == registered
      ensures saleItems == [] && selectedCustomer == None && paymentMethod == "pix" && discount == 0.0
    {
      products, customers := catalogue, registered;
      saleItems, selectedCustomer, paymentMethod, discount := [], None, "pix", 0.0;
    }

    method AddToSale(p: Product)
      requires Valid()
      modifies this`saleItems
      ensures Valid()
      ensures saleItems == AddedToSale(old(saleItems), p)
    {
      AddSpec(saleItems, p);
      saleItems := AddedToSale(saleItems, p);
    }

    method RemoveFromSale(id: string)
      requires Valid()
      modifies this`saleItems
      ensures Valid()
      ensures saleItems == Removed(old(saleItems), id)
    {
      UpdateSpec(saleItems, id, 0);
      saleItems := Removed(saleItems, id);
    }

    method UpdateQuantity(id: string, newQuantity: int)
      requires Valid()
      modifies this`saleItems
      ensures Valid()
      ensures saleItems == QuantityUpdated(old(saleItems), id, newQuantity)
    {
      UpdateSpec(saleItems, id, newQuantity);
      saleItems := QuantityUpdated(saleItems, id, newQuantity);
    }

    /** The customer `select`. */
    method SelectCustomer(value: string)
      modifies this`selectedCustomer
      ensures selectedCustomer == SelectedBy(customers, value)
    {
      selectedCustomer := SelectedBy(customers, value);
    }

    /** The discount field: `Number(value)` is stored without clamping to 0..100. */
    method SetDiscount(percent: real)
      modifies this`discount
      ensures discount == percent
    {
      discount := percent;
    }

    method SetPaymentMethod(m: string)
      modifies this`paymentMethod
      ensures paymentMethod == m
    {
      paymentMethod := m;
    }

    /** `completeSale`: nothing happens on an empty sale; otherwise the sale is
        recorded and the items, customer and discount are cleared, while the
        payment method stays as chosen. */
    method CompleteSale() returns (receipt: Option<Receipt>)
      requires Valid()
      modifies this`saleItems, this`selectedCustomer, this`discount
      ensures Valid()
      ensures old(saleItems) == [] ==>
        && receipt == None && saleItems == []
        && selectedCustomer == old(selectedCustomer) && discount == old(discount)
      ensures old(saleItems) != [] ==>
        && receipt == Some(Receipt(old(saleItems), old(selectedCustomer), paymentMethod,
             Subtotal(old(saleItems)), DiscountAmount(old(saleItems), old(discount)),
             Total(old(saleItems), old(discount))))
        && saleItems == [] && selectedCustomer == None && discount == 0.0
      ensures paymentMethod == old(paymentMethod)
    {
      if |saleItems| == 0 {
        return None;
      }
      receipt := Some(Receipt(saleItems, selectedCustomer, paymentMethod,
        Subtotal(saleItems), DiscountAmount(saleItems, discount), Total(saleItems, discount)));
      saleItems, selectedCustomer, discount := [], None, 0.0;
    }
  }
}
