/**
 * The storefront checkout form (`CheckoutComponent`): totals with a fixed
 * shipping fee, PIX or card payment, the shipping address fields, and the
 * finalize button that starts a simulated processing delay.
 */
module CheckoutForm {
  import Seqs

  /** A line of the cart handed to the checkout. */
  datatype CartItem = CartItem(id: string, price: real, quantity: int)

  datatype PaymentMethod = Pix | Card

  datatype ShippingData = ShippingData(
    cep: string, street: string, number: string, complement: string, city: string, state: string)

  datatype ShippingField = Cep | Street | Number | Complement | City | State

  /** The fixed shipping fee (R$ 15,90). */
  const Shipping: real := 15.90

  function LineTotal(item: CartItem): real { item.price * item.quantity as real }

  function Subtotal(items: seq<CartItem>): real {
    Seqs.Sum(items, LineTotal)
  }

  function Total(items: seq<CartItem>): real {
    Subtotal(items) + Shipping
  }

  /** With lines that are not negative the total is at least the shipping fee,
      and the fee is all an empty cart costs. */
  lemma TotalAtLeastShipping(items: seq<CartItem>)
    requires forall k :: 0 <= k < |items| ==> items[k].price >= 0.0 && items[k].quantity >= 0
    ensures Total(items) >= Shipping
    ensures items == [] ==> Total(items) == Shipping
  {
    forall k | 0 <= k < |items| ensures LineTotal(items[k]) >= 0.0 {
      var p, q := items[k].price, items[k].quantity as real;
      assert p * q >= 0.0;
    }
    Seqs.SumNonNegative(items, LineTotal);
  }

  function FieldValue(data: ShippingData, field: ShippingField): string {
    match field
    case Cep => data.cep
    case Street => data.street
    case Number => data.number
    case Complement => data.complement
    case City => data.city
    case State => data.state
  }

  /** `setShippingData(prev => ({ ...prev, [field]: value }))`. */
  function WithField(data: ShippingData, field: ShippingField, value: string): ShippingData {
    match field
    case Cep => data.(cep := value)
    case Street => data.(street := value)
    case Number => data.(number := value)
    case Complement => data.(complement := value)
    case City => data.(city := value)
    case State => data.(state := value)
  }

  /** A field handler sets its own field and no other. */
  lemma WithFieldSpec(data: ShippingData, field: ShippingField, value: string)
    ensures FieldValue(WithField(data, field, value), field) == value
    ensures forall other :: other != field ==>
      FieldValue(WithField(data, field, value), other) == FieldValue(data, other)
  {
  }

  class Checkout {
    const cartItems: seq<CartItem>
    var paymentMethod: PaymentMethod
    var pixCode: string
    var pixCopied: bool
    var isProcessing: bool
    var succeeded: bool
    var shippingData: ShippingData

    /** `onSuccess` is only ever called after processing has started. */
    ghost predicate Valid()
      reads this
    {
      succeeded ==> isProcessing
    }

    /** Whether the "Finalizar Compra" button is enabled: not while processing,
        and for PIX not before the code has arrived. */
    predicate CanFinalize()
      reads this
    {
      !isProcessing && !(paymentMethod == Pix && pixCode == "")
    }

    constructor (items: seq<CartItem>)
      ensures Valid()
      ensures cartItems == items && paymentMethod == Pix && pixCode == ""
      ensures !pixCopied && !isProcessing && !succeeded
      ensures shippingData == ShippingData("", "", "", "", "", "")
    {
      cartItems, paymentMethod, pixCode := items, Pix, "";
      pixCopied, isProcessing, succeeded := false, false, false;
      shippingData := ShippingData("", "", "", "", "", "");
    }

    method SetPaymentMethod(m: PaymentMethod)
      modifies this`paymentMethod
      ensures paymentMethod == m
    {
      paymentMethod := m;
    }

    /** The delayed generation of the PIX code has finished (its content, a
        random imitation of a PIX payload, is a parameter). */
    method PixCodeReady(code: string)
      modifies this`pixCode
      ensures pixCode == code
    {
      pixCode := code;
    }

    /** `handleCopyPix`: the "copied" indicator comes on. */
    method CopyPix()
      modifies this`pixCopied
      ensures pixCopied
    {
      pixCopied := true;
    }

    /** Two seconds after a copy the indicator goes off again. */
    method CopyFeedbackElapsed()
      modifies this`pixCopied
      ensures !pixCopied
    {
      pixCopied := false;
    }

    /** `handleFinalizePurchase`, from an enabled button: processing starts. */
    method FinalizePurchase()
      requires Valid() && CanFinalize()
      modifies this`isProcessing
      ensures Valid() && isProcessing && !CanFinalize()
    {
      isProcessing := true;
    }

    /** Three seconds after finalizing, `onSuccess` is called. */
    method ProcessingElapsed()
      requires Valid() && isProcessing
      modifies this`succeeded
      ensures Valid() && succeeded
    {
      succeeded := true;
    }

    /** One of the six address inputs. */
    method SetShippingField(field: ShippingField, value: string)
      modifies this`shippingData
      ensures shippingData == WithField(old(shippingData), field, value)
    {
      shippingData := WithField(shippingData, field, value);
    }
  }
}
