/**
 * The point-of-sale wizard (`POSSystemNew`): four steps (products, customer,
 * payment, confirmation), a cart without a stock cap, and an absolute discount
 * subtracted from the subtotal.
 */
module PosWizard {
  import opened Wrappers
  import Seqs
  import Text
  import Numbers

  datatype Product = Product(id: int, name: string, code: string, price: real, stock: int, category: string)

  /** `{ ...product, quantity }`. */
  datatype CartLine = CartLine(product: Product, quantity: int)

  datatype Customer = Customer(id: int, name: string, cpf: string, phone: string)

  /** What `completeSale` hands to the log. */
  datatype SaleRecord = SaleRecord(
    customer: Option<Customer>,
    items: seq<CartLine>,
    paymentMethod: string,
    discount: real,
    total: real)

  /** The ids of the four payment buttons. */
  const PaymentMethods: set<string> := {"pix", "card", "cash", "trade"}

  const FirstStep := 1
  const LastStep := 4

  function LineId(line: CartLine): int { line.product.id }

  function LineTotal(line: CartLine): real { line.product.price * line.quantity as real }

  predicate UniqueIds(cart: seq<CartLine>) {
    Seqs.DistinctKeys(cart, LineId)
  }

  /** Every line holds at least one unit. */
  predicate PositiveQuantities(cart: seq<CartLine>) {
    forall k :: 0 <= k < |cart| ==> cart[k].quantity >= 1
  }

  /** `addToCart`: a new product gets a line of one unit, an existing line one
      more unit, with no stock check. */
  function AddedToCart(cart: seq<CartLine>, p: Product): seq<CartLine> {
    match Seqs.FindKey(cart, LineId, p.id)
    case None => cart + [CartLine(p, 1)]
    case Some(_) =>
      seq(|cart|, k requires 0 <= k < |cart| =>
        if cart[k].product.id == p.id then cart[k].(quantity := cart[k].quantity + 1) else cart[k])
  }

  function NotId(id: int): CartLine -> bool {
    (line: CartLine) => line.product.id != id
  }

  /** `removeFromCart`. */
  function Removed(cart: seq<CartLine>, id: int): seq<CartLine> {
    Seqs.Filter(cart, NotId(id))
  }

  /** `updateQuantity`: a quantity of 0 or less removes the line; any other
      value is stored as it is. */
  function QuantityUpdated(cart: seq<CartLine>, id: int, quantity: int): seq<CartLine> {
    if quantity <= 0 then Removed(cart, id)
    else
      seq(|cart|, k requires 0 <= k < |cart| =>
        if cart[k].product.id == id then cart[k].(quantity := quantity) else cart[k])
  }

  /** `getSubtotal`. */
  function Subtotal(cart: seq<CartLine>): real {
    Seqs.Sum(cart, LineTotal)
  }

  /** `getTotal`: the discount is an amount, subtracted with no lower bound. */
  function Total(cart: seq<CartLine>, discount: real): real {
    Subtotal(cart) - discount
  }

  /** The total is negative exactly when the discount exceeds the subtotal;
      with non-negative prices the subtotal itself is never negative. */
  lemma TotalSign(cart: seq<CartLine>, discount: real)
    ensures Total(cart, discount) < 0.0 <==> discount > Subtotal(cart)
    ensures PositiveQuantities(cart) && (forall k :: 0 <= k < |cart| ==> cart[k].product.price >= 0.0)
      ==> Subtotal(cart) >= 0.0
  {
    if PositiveQuantities(cart) && (forall k :: 0 <= k < |cart| ==> cart[k].product.price >= 0.0) {
      Seqs.SumNonNegative(cart, LineTotal);
    }
  }

  /** Adding appends a one-unit line for a new product and otherwise adds one
      unit to the existing line; ids stay unique and quantities positive. */
  lemma AddSpec(cart: seq<CartLine>, p: Product)
    requires UniqueIds(cart) && PositiveQuantities(cart)
    ensures var r := AddedToCart(cart, p);
      && UniqueIds(r) && PositiveQuantities(r)
      && ((forall k :: 0 <= k < |cart| ==> cart[k].product.id != p.id) ==> r == cart + [CartLine(p, 1)])
      && (forall i :: 0 <= i < |cart| && cart[i].product.id == p.id ==>
            r == cart[i := cart[i].(quantity := cart[i].quantity + 1)])
  {
    var r := AddedToCart(cart, p);
    assert forall k :: 0 <= k < |cart| ==> LineId(r[k]) == LineId(cart[k]);
  }

  /** Updating removes the line for a quantity of 0 or less and otherwise sets
      exactly that quantity on it; ids stay unique and quantities positive. */
  lemma UpdateSpec(cart: seq<CartLine>, id: int, quantity: int)
    requires UniqueIds(cart) && PositiveQuantities(cart)
    ensures var r := QuantityUpdated(cart, id, quantity);
      && UniqueIds(r) && PositiveQuantities(r)
      && (quantity <= 0 ==> forall x :: x in r <==> x in cart && x.product.id != id)
      && (quantity > 0 ==> forall i :: 0 <= i < |cart| && cart[i].product.id == id ==>
            r == cart[i := cart[i].(quantity := quantity)])
  {
    var r := QuantityUpdated(cart, id, quantity);
    if quantity <= 0 {
      forall x ensures x in r <==> x in cart && x.product.id != id {
        Seqs.FilterMembership(cart, NotId(id), x);
      }
      Seqs.FilterDistinct(cart, NotId(id), LineId);
      assert forall k :: 0 <= k < |r| ==> r[k] in r;
    } else {
      assert forall k :: 0 <= k < |cart| ==> LineId(r[k]) == LineId(cart[k]);
    }
  }

  predicate MatchesSearch(p: Product, term: string) {
    Text.Contains(Text.Lower(p.name), Text.Lower(term))
    || Text.Contains(Text.Lower(p.code), Text.Lower(term))
  }

  function SearchMatcher(term: string): Product -> bool {
    (p: Product) => MatchesSearch(p, term)
  }

  /** `filteredProducts`: search by name or code, case-insensitively. */
  function FilteredProducts(products: seq<Product>, term: string): seq<Product> {
    Seqs.Filter(products, SearchMatcher(term))
  }

  /** The listing keeps exactly the matching products in order; an empty
      search keeps them all. */
  lemma FilteredProductsSpec(products: seq<Product>, term: string)
    ensures forall p :: p in FilteredProducts(products, term) <==> p in products && MatchesSearch(p, term)
    ensures Seqs.IsSubsequence(FilteredProducts(products, term), products)
    ensures term == "" ==> FilteredProducts(products, term) == products
  {
    Seqs.FilterExact(products, SearchMatcher(term));
    if term == "" {
      forall i | 0 <= i < |products| ensures MatchesSearch(products[i], term) {
        Text.ContainsEmpty(Text.Lower(products[i].name));
      }
      Seqs.FilterAll(products, SearchMatcher(term));
    }
  }

  /** `nextStep`: one step forward, never past the last. */
  function StepAfterNext(step: int): (r: int)
    ensures FirstStep <= step <= LastStep ==> FirstStep <= r <= LastStep
    ensures step < LastStep <==> r > step
  {
    if step < LastStep then step + 1 else step
  }

  /** `prevStep`: one step back, never before the first. */
  function StepAfterPrev(step: int): (r: int)
    ensures FirstStep <= step <= LastStep ==> FirstStep <= r <= LastStep
    ensures step > FirstStep <==> r < step
  {
    if step > FirstStep then step - 1 else step
  }

  class Wizard {
    const products: seq<Product>
    const customers: seq<Customer>
    var currentStep: int
    var cart: seq<CartLine>
    var selectedCustomer: Option<Customer>
    var paymentMethod: string
    var discount: real
    var showSaleComplete: bool

    /** The step stays in 1..4, and a step is only reached once the steps before
        it are complete: a non-empty cart, then a customer, then a payment method. */
    ghost predicate Valid()
      reads this
    {
      && FirstStep <= currentStep <= LastStep
      && UniqueIds(cart) && PositiveQuantities(cart)
      && (currentStep >= 2 ==> |cart| > 0)
      && (currentStep >= 3 ==> selectedCustomer.Some?)
      && (currentStep >= 4 ==> paymentMethod != "")
    }

    /** Whether the "Continuar" button of the current step is enabled. */
    predicate CanAdvance()
      reads this
    {
      match currentStep
      case 1 => |cart| > 0
      case 2 => selectedCustomer.Some?
      case 3 => paymentMethod != ""
      case _ => false
    }

    constructor (catalogue: seq<Product>, registered: seq<Customer>)
      ensures Valid()
      ensures products == catalogue && customers == registered
      ensures currentStep == FirstStep && cart == [] && selectedCustomer == None
      ensures paymentMethod == "" && discount == 0.0 && !showSaleComplete
    {
      products, customers := catalogue, registered;
      currentStep, cart, selectedCustomer := FirstStep, [], None;
      paymentMethod, discount, showSaleComplete := "", 0.0, false;
    }

    /** The "+" button of a product listed on step 1, disabled when out of stock. */
    method AddToCart(p: Product)
      requires Valid() && currentStep == 1 && p in products && p.stock != 0
      modifies this`cart
      ensures Valid()
      ensures cart == AddedToCart(old(cart), p)
    {
      AddSpec(cart, p);
      cart := AddedToCart(cart, p);
    }

    /** The remove button of a cart line on step 1. */
    method RemoveFromCart(id: int)
      requires Valid() && currentStep == 1
      modifies this`cart
      ensures Valid()
      ensures cart == Removed(old(cart), id)
    {
      UpdateSpec(cart, id, 0);
      cart := Removed(cart, id);
    }

    /** The "-" and "+" buttons of a cart line on step 1. */
    method UpdateQuantity(id: int, quantity: int)
      requires Valid() && currentStep == 1
      modifies this`cart
      ensures Valid()
      ensures cart == QuantityUpdated(old(cart), id, quantity)
    {
      UpdateSpec(cart, id, quantity);
      cart := QuantityUpdated(cart, id, quantity);
    }

    /** The discount field on step 1: `parseFloat(value) || 0`, unbounded. */
    method SetDiscount(input: string)
      requires Valid() && currentStep == 1
      modifies this`discount
      ensures Valid()
      ensures discount == Numbers.OrZero(Numbers.ParseFloat(input))
    {
      discount := Numbers.OrZero(Numbers.ParseFloat(input));
    }

    /** A customer card on step 2. */
    method SelectCustomer(c: Customer)
      requires Valid() && currentStep == 2 && c in customers
      modifies this`selectedCustomer
      ensures Valid()
      ensures selectedCustomer == Some(c)
    {
      selectedCustomer := Some(c);
    }

    /** A payment button on step 3. */
    method SetPaymentMethod(m: string)
      requires Valid() && currentStep == 3 && m in PaymentMethods
      modifies this`paymentMethod
      ensures Valid()
      ensures paymentMethod == m
    {
      paymentMethod := m;
    }

    /** `nextStep`, fired by an enabled "Continuar" button. */
    method NextStep()
      requires Valid() && CanAdvance()
      modifies this`currentStep
      ensures Valid()
      ensures currentStep == StepAfterNext(old(currentStep)) == old(currentStep) + 1
    {
      currentStep := StepAfterNext(currentStep);
    }

    /** `prevStep`: only the step moves; everything entered is kept. */
    method PrevStep()
      requires Valid()
      modifies this`currentStep
      ensures Valid()
      ensures currentStep == StepAfterPrev(old(currentStep))
    {
      currentStep := StepAfterPrev(currentStep);
    }

    /** `completeSale` on step 4: the recorded sale always has items, a customer
        and a payment method, and its total is subtotal minus discount. */
    method CompleteSale() returns (sale: SaleRecord)
      requires Valid() && currentStep == LastStep
      modifies this`showSaleComplete
      ensures Valid() && showSaleComplete
      ensures sale.items == cart && |sale.items| > 0
      ensures sale.customer == selectedCustomer && sale.customer.Some?
      ensures sale.paymentMethod == paymentMethod && sale.paymentMethod != ""
      ensures sale.discount == discount && sale.total == Total(cart, discount)
    {
      sale := SaleRecord(selectedCustomer, cart, paymentMethod, discount, Total(cart, discount));
      showSaleComplete := true;
    }

    /** `resetSale`: back to an empty sale on step 1 with the dialog closed. */
    method ResetSale()
      requires Valid()
      modifies this
      ensures Valid()
      ensures cart == [] && selectedCustomer == None && paymentMethod == ""
      ensures discount == 0.0 && currentStep == FirstStep && !showSaleComplete
    {
      cart, selectedCustomer, paymentMethod := [], None, "";
      discount, currentStep, showSaleComplete := 0.0, FirstStep, false;
    }
  }
}
