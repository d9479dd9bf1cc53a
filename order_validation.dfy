/**
 * The request shapes of the order routes and the request validators that may
 * run in front of the handlers: predicates over the request body.
 */
module OrderValidation {
  import opened Wrappers
  import opened CartModel

  /** The body of a place-order request. `items` is None when missing or not an array. */
  datatype PlaceOrderBody = PlaceOrderBody(
    items: Option<seq<ItemInput>>,
    paymentMethod: Option<string>,
    shippingAddress: Option<string>)

  /** JavaScript truthiness of an optional string field. */
  predicate Truthy(s: Option<string>) {
    s.Some? && s.value != ""
  }

  const ValidatorPaymentMethods: seq<string> := ["cod", "COD", "Credit Card", "Debit Card", "UPI", "Net Banking"]
  const ValidatorStatuses: seq<string> := ["Pending", "Processing", "Shipped", "Delivered", "Cancelled"]
  const ValidatorPaymentStatuses: seq<string> := ["Pending", "Paid", "Failed", "Refunded", "Cancelled"]

  /** Each item needs a non-empty product and an integer quantity of at least 1; its price is not checked. */
  predicate ValidItem(it: ItemInput) {
    && it.product.Some? && it.product.value != ""
    && it.quantity.Some? && it.quantity.value >= 1
  }

  /** The validator never reads an item's price. */
  lemma ValidatorIgnoresPrice(it: ItemInput, p: Option<int>)
    ensures ValidItem(it) == ValidItem(it.(price := p))
  {
  }

  /** validatePlaceOrder: at least one item, every item valid, a payment method from the
      list (matched case-sensitively), and a non-empty shipping address. */
  function ValidatePlaceOrder(b: PlaceOrderBody): (r: bool)
    ensures r ==> Truthy(b.paymentMethod) && Truthy(b.shippingAddress)
    ensures r ==> b.items.Some? && forall i :: 0 <= i < |b.items.value| ==> Truthy(b.items.value[i].product)
  {
    && b.items.Some? && |b.items.value| >= 1
    && (forall i :: 0 <= i < |b.items.value| ==> ValidItem(b.items.value[i]))
    && b.paymentMethod.Some? && b.paymentMethod.value != "" && b.paymentMethod.value in ValidatorPaymentMethods
    && b.shippingAddress.Some? && b.shippingAddress.value != ""
  }

  /** validateOrderStatus: each field is optional, but a given value (even an empty one) must be in its list. */
  function ValidateOrderStatus(status: Option<string>, paymentStatus: Option<string>): (r: bool)
    ensures r ==> (status.Some? ==> Truthy(status)) && (paymentStatus.Some? ==> Truthy(paymentStatus))
  {
    && (status.Some? ==> status.value in ValidatorStatuses)
    && (paymentStatus.Some? ==> paymentStatus.value in ValidatorPaymentStatuses)
  }

  /** validateOrderStatusUpdate: validateOrderStatus, and at least one of the two fields truthy. */
  function ValidateOrderStatusUpdate(status: Option<string>, paymentStatus: Option<string>): (r: bool)
    ensures r <==> ValidateOrderStatus(status, paymentStatus) && (status.Some? || paymentStatus.Some?)
  {
    ValidateOrderStatus(status, paymentStatus) && (Truthy(status) || Truthy(paymentStatus))
  }

  /** An update that passes the validator names at least one field, and every field it names is non-empty. */
  lemma {:induction false} ValidatedUpdateFieldsTruthy(status: Option<string>, paymentStatus: Option<string>)
    requires ValidateOrderStatusUpdate(status, paymentStatus)
    ensures status.Some? ==> Truthy(status)
    ensures paymentStatus.Some? ==> Truthy(paymentStatus)
    ensures status.Some? || paymentStatus.Some?
  {
    if status.Some? {
      assert status.value in ValidatorStatuses;
    }
    if paymentStatus.Some? {
      assert paymentStatus.value in ValidatorPaymentStatuses;
    }
  }
}
