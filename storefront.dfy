/**
 * The customer-facing storefront (`ModernStorefront`): a product listing with a
 * cart whose lines are capped by the stock each product had when it was added,
 * and a favourites list.
 */
module ModernStorefront {
  import opened Wrappers
  import Seqs
  import Catalog

  /** A cart line; `maxStock` is the product's stock when the line was created. */
  datatype CartItem = CartItem(id: string, name: string, price: real, quantity: int, maxStock: int)

  function ItemId(item: CartItem): string { item.id }

  function ProductId(p: Catalog.Product): string { p.id }

  function LineTotal(item: CartItem): real { item.price * item.quantity as real }

  function LineQuantity(item: CartItem): real { item.quantity as real }

  predicate UniqueIds(cart: seq<CartItem>) {
    Seqs.DistinctKeys(cart, ItemId)
  }

  /** No line holds more than its recorded stock. */
  predicate WithinStock(cart: seq<CartItem>) {
    forall k :: 0 <= k < |cart| ==> cart[k].quantity <= cart[k].maxStock
  }

  /** `cart.find(item => item.id === id)`. */
  function FindItem(cart: seq<CartItem>, id: string): Option<nat> {
    Seqs.FindKey(cart, ItemId, id)
  }

  function NewItem(p: Catalog.Product): CartItem {
    CartItem(p.id, p.name, p.price, 1, p.stock)
  }

  /** `cart.map(...)` adding one unit to the lines with that id. */
  function Incremented(cart: seq<CartItem>, id: string): (r: seq<CartItem>)
    ensures |r| == |cart|
  {
    seq(|cart|, k requires 0 <= k < |cart| =>
      if cart[k].id == id then cart[k].(quantity := cart[k].quantity + 1) else cart[k])
  }

  /** `addToCart`: a new product gets a line of one unit; an existing line gets
      one more unit while it is below the product's stock. */
  function AddedToCart(cart: seq<CartItem>, p: Catalog.Product): seq<CartItem> {
    match FindItem(cart, p.id)
    case None => cart + [NewItem(p)]
    case Some(i) => if cart[i].quantity < p.stock then Incremented(cart, p.id) else cart
  }

  function NotId(id: string): CartItem -> bool {
    (item: CartItem) => item.id != id
  }

  /** `removeFromCart`. */
  function Removed(cart: seq<CartItem>, id: string): seq<CartItem> {
    Seqs.Filter(cart, NotId(id))
  }

  /** `updateCartQuantity`: exactly 0 removes the line; any other value is
      stored, cut down to the line's `maxStock`. */
  function QuantityUpdated(cart: seq<CartItem>, id: string, newQuantity: int): (r: seq<CartItem>)
  {
    if newQuantity == 0 then Removed(cart, id)
    else
      seq(|cart|, k requires 0 <= k < |cart| =>
        if cart[k].id == id
        then cart[k].(quantity := if newQuantity < cart[k].maxStock then newQuantity else cart[k].maxStock)
        else cart[k])
  }

  /** `cartTotal`. */
  function CartTotal(cart: seq<CartItem>): real {
    Seqs.Sum(cart, LineTotal)
  }

  /** `cartItemsCount`. */
  function CartItemsCount(cart: seq<CartItem>): real {
    Seqs.Sum(cart, LineQuantity)
  }

  /** Adding a product the cart does not hold appends one line of one unit
      recorded at the product's stock, keeps every other line, and raises the
      total by the price and the item count by one. */
  lemma AddNewProduct(cart: seq<CartItem>, p: Catalog.Product)
    requires forall k :: 0 <= k < |cart| ==> cart[k].id != p.id
    ensures var r := AddedToCart(cart, p);
      && |r| == |cart| + 1 && r[..|cart|] == cart
      && r[|cart|].id == p.id && r[|cart|].quantity == 1 && r[|cart|].maxStock == p.stock
      && CartTotal(r) == CartTotal(cart) + p.price
      && CartItemsCount(r) == CartItemsCount(cart) + 1.0
  {
    var r := AddedToCart(cart, p);
    assert r == cart + [NewItem(p)];
    Seqs.SumConcat(cart, [NewItem(p)], LineTotal);
    Seqs.SumConcat(cart, [NewItem(p)], LineQuantity);
    Seqs.SumSingleton(NewItem(p), LineTotal);
    Seqs.SumSingleton(NewItem(p), LineQuantity);
  }

  /** Adding a product already in the cart adds one unit to its line while it is
      below the product's stock (raising the total by the line's price) and
      otherwise leaves the cart as it was. */
  lemma AddExistingProduct(cart: seq<CartItem>, p: Catalog.Product, i: nat)
    requires UniqueIds(cart) && i < |cart| && cart[i].id == p.id
    ensures var r := AddedToCart(cart, p);
      && (cart[i].quantity < p.stock ==>
            && r == cart[i := cart[i].(quantity := cart[i].quantity + 1)]
            && CartTotal(r) == CartTotal(cart) + cart[i].price
            && CartItemsCount(r) == CartItemsCount(cart) + 1.0)
      && (cart[i].quantity >= p.stock ==> r == cart)
  {
    assert FindItem(cart, p.id) == Some(i);
    if cart[i].quantity < p.stock {
      var line := cart[i].(quantity := cart[i].quantity + 1);
      assert Incremented(cart, p.id) == cart[i := line];
      Seqs.SumUpdate(cart, i, line, LineTotal);
      Seqs.SumUpdate(cart, i, line, LineQuantity);
    }
  }

  /** Adding never gives two lines the same id. */
  lemma AddKeepsIdsUnique(cart: seq<CartItem>, p: Catalog.Product)
    requires UniqueIds(cart)
    ensures UniqueIds(AddedToCart(cart, p))
  {
    match FindItem(cart, p.id)
    case None =>
      var r := cart + [NewItem(p)];
      assert forall k :: 0 <= k < |cart| ==> ItemId(r[k]) == ItemId(cart[k]);
    case Some(i) =>
      var r := Incremented(cart, p.id);
      assert forall k :: 0 <= k < |cart| ==> ItemId(r[k]) == ItemId(cart[k]);
  }

  /** Removing drops exactly the lines with that id, keeps the others in their
      order, keeps ids unique, and lowers the total by the removed line's total. */
  lemma RemoveSpec(cart: seq<CartItem>, id: string)
    ensures forall x :: x in Removed(cart, id) <==> x in cart && x.id != id
    ensures Seqs.IsSubsequence(Removed(cart, id), cart)
    ensures UniqueIds(cart) ==> UniqueIds(Removed(cart, id))
    ensures forall i :: UniqueIds(cart) && 0 <= i < |cart| && cart[i].id == id ==>
      CartTotal(Removed(cart, id)) == CartTotal(cart) - LineTotal(cart[i])
  {
    Seqs.FilterExact(cart, NotId(id));
    if UniqueIds(cart) {
      Seqs.FilterDistinct(cart, NotId(id), ItemId);
      forall i | 0 <= i < |cart| && cart[i].id == id
        ensures CartTotal(Removed(cart, id)) == CartTotal(cart) - LineTotal(cart[i])
      {
        Seqs.SumFilterOut(cart, ItemId, id, i, LineTotal, NotId(id));
      }
    }
  }

  /** Only a new quantity of exactly 0 removes the line; any other value,
      negative ones included, is stored, never above the line's `maxStock`,
      and every other line is kept. */
  lemma UpdateQuantitySpec(cart: seq<CartItem>, id: string, newQuantity: int)
    requires newQuantity != 0
    ensures var r := QuantityUpdated(cart, id, newQuantity);
      && |r| == |cart|
      && (forall k :: 0 <= k < |cart| && cart[k].id != id ==> r[k] == cart[k])
      && (forall k :: 0 <= k < |cart| && cart[k].id == id ==>
            r[k] == cart[k].(quantity := if newQuantity < cart[k].maxStock then newQuantity else cart[k].maxStock))
  {
  }

  /** Updating keeps ids unique, keeps the stock caps, and (only for 0) removes. */
  lemma UpdateKeepsInvariant(cart: seq<CartItem>, id: string, newQuantity: int)
    requires UniqueIds(cart) && WithinStock(cart)
    ensures UniqueIds(QuantityUpdated(cart, id, newQuantity))
    ensures WithinStock(QuantityUpdated(cart, id, newQuantity))
    ensures newQuantity == 0 ==> forall x :: x in QuantityUpdated(cart, id, newQuantity) ==> x.id != id
  {
    var r := QuantityUpdated(cart, id, newQuantity);
    if newQuantity == 0 {
      RemoveSpec(cart, id);
      assert forall k :: 0 <= k < |r| ==> r[k] in r && r[k] in cart;
    } else {
      assert forall k :: 0 <= k < |cart| ==> ItemId(r[k]) == ItemId(cart[k]);
    }
  }

  /** The storefront page: a fixed catalogue, the cart and the favourites. */
  class Storefront {
    const products: seq<Catalog.Product>
    var cart: seq<CartItem>
    var favorites: seq<string>
    var isCartOpen: bool
    /** Whether the page has handed the cart over to the checkout form. */
    var showCheckout: bool

    /** Cart lines are unique per id, within their cap, and a line's cap is the
        stock of the catalogue product with its id. The catalogue has distinct
        ids and no product with an empty stock (true of the storefront's own
        catalogue; with an empty-stock product the first add would create a
        line of one unit above its cap of 0). */
    ghost predicate Valid()
      reads this
    {
      && Seqs.DistinctKeys(products, ProductId)
      && (forall j :: 0 <= j < |products| ==> products[j].stock >= 1)
      && UniqueIds(cart)
      && WithinStock(cart)
      && (forall k, j :: 0 <= k < |cart| && 0 <= j < |products| && cart[k].id == products[j].id ==>
            cart[k].maxStock == products[j].stock)
    }

    constructor (catalogue: seq<Catalog.Product>)
      requires Seqs.DistinctKeys(catalogue, ProductId)
      requires forall j :: 0 <= j < |catalogue| ==> catalogue[j].stock >= 1
      ensures Valid()
      ensures products == catalogue && cart == [] && favorites == []
      ensures !isCartOpen && !showCheckout
    {
      products := catalogue;
      cart := [];
      favorites := [];
      isCartOpen, showCheckout := false, false;
    }

    /** The "Adicionar" button of a listed product. */
    method AddToCart(p: Catalog.Product)
      requires Valid() && p in products
      modifies this`cart
      ensures Valid()
      ensures cart == AddedToCart(old(cart), p)
      ensures favorites == old(favorites)
    {
      AddKeepsIdsUnique(cart, p);
      ghost var j :| 0 <= j < |products| && products[j] == p;
      ghost var old_cart := cart;
      cart := AddedToCart(cart, p);
      match FindItem(old_cart, p.id)
      case None =>
        assert cart == old_cart + [NewItem(p)];
        forall k, j' | 0 <= k < |cart| && 0 <= j' < |products| && cart[k].id == products[j'].id
          ensures cart[k].maxStock == products[j'].stock
        {
          if k == |old_cart| {
            assert products[j'].id == products[j].id;
          }
        }
      case Some(i) =>
        if old_cart[i].quantity < p.stock {
          assert old_cart[i].maxStock == p.stock;
          AddExistingProduct(old_cart, p, i);
        }
    }

    /** The "-" and "+" buttons of a cart line. */
    method UpdateCartQuantity(id: string, newQuantity: int)
      requires Valid()
      modifies this`cart
      ensures Valid()
      ensures cart == QuantityUpdated(old(cart), id, newQuantity)
      ensures favorites == old(favorites)
    {
      UpdateKeepsInvariant(cart, id, newQuantity);
      ghost var old_cart := cart;
      cart := QuantityUpdated(cart, id, newQuantity);
      if newQuantity == 0 {
        RemoveSpec(old_cart, id);
        assert forall k :: 0 <= k < |cart| ==> cart[k] in old_cart;
      }
    }

    /** The "x" button of a cart line. */
    method RemoveFromCart(id: string)
      requires Valid()
      modifies this`cart
      ensures Valid()
      ensures cart == Removed(old(cart), id)
      ensures favorites == old(favorites)
    {
      RemoveSpec(cart, id);
      ghost var old_cart := cart;
      cart := Removed(cart, id);
      assert forall k :: 0 <= k < |cart| ==> cart[k] in old_cart;
    }

    /** The heart button of a product card. */
    method ToggleFavorite(id: string)
      modifies this`favorites
      ensures favorites == Catalog.Toggled(old(favorites), id)
      ensures cart == old(cart)
    {
      favorites := Catalog.Toggled(favorites, id);
    }

    /** The cart button and the sheet's own open/close control. */
    method SetCartOpen(open: bool)
      modifies this`isCartOpen
      ensures isCartOpen == open
    {
      isCartOpen := open;
    }

    /** `handleCheckout`, from the "Finalizar Compra" button that the open
        cart sheet shows only for a non-empty cart: the sheet closes and the
        checkout form takes the cart as it is. */
    method BeginCheckout()
      requires isCartOpen && |cart| > 0
      modifies this`isCartOpen, this`showCheckout
      ensures !isCartOpen && showCheckout
    {
      isCartOpen, showCheckout := false, true;
    }

    /** The checkout form's `onBack`: back to the store with the cart kept. */
    method CheckoutBack()
      requires showCheckout
      modifies this`showCheckout
      ensures !showCheckout
    {
      showCheckout := false;
    }

    /** The checkout form's `onSuccess`: the order is placed, so the cart is
        emptied and the store is shown again. */
    method CheckoutSucceeded()
      requires Valid() && showCheckout
      modifies this`cart, this`showCheckout
      ensures Valid()
      ensures cart == [] && !showCheckout
    {
      cart, showCheckout := [], false;
    }
  }
}
