/**
 * The order document: owner, cart reference, captured total, status, payment
 * method, payment status, shipping address and creation time, with the schema's
 * enums, defaults and bounds.
 */
module OrderModel {
  import opened Wrappers
  import opened Schema

  const Statuses: seq<string> := ["Pending", "Processing", "Shipped", "Delivered", "Cancelled"]
  const PaymentMethods: seq<string> := ["COD", "Credit Card", "Debit Card", "UPI", "Net Banking"]
  /** The payment statuses the schema declares; "Cancelled" is missing. */
  const PaymentStatusesAsWritten: seq<string> := ["Pending", "Paid", "Failed", "Refunded"]
  /** The payment statuses the rest of the backend sets and accepts: the declared ones and "Cancelled". */
  const PaymentStatuses: seq<string> := PaymentStatusesAsWritten + ["Cancelled"]
  const DefaultStatus := "Pending"
  const DefaultPaymentStatus := "Pending"

  datatype Order = Order(
    id: nat,
    user: nat,
    cart: nat,
    totalPrice: int,
    status: string,
    paymentMethod: string,
    paymentStatus: string,
    shippingAddress: string,
    createdAt: int)

  /** The fields given when an order is created; status and payment status may be left out. */
  datatype OrderFields = OrderFields(
    user: nat,
    cart: nat,
    totalPrice: int,
    status: Option<string>,
    paymentMethod: string,
    paymentStatus: Option<string>,
    shippingAddress: string)

  /** A new document: the given fields, the defaults for the missing ones, and the creation time. */
  function NewDocument(f: OrderFields, id: nat, now: int): (o: Order)
    ensures o.id == id && o.createdAt == now
    ensures o.user == f.user && o.cart == f.cart && o.totalPrice == f.totalPrice
    ensures o.paymentMethod == f.paymentMethod && o.shippingAddress == f.shippingAddress
    ensures f.status.None? ==> o.status == DefaultStatus
    ensures f.status.Some? ==> o.status == f.status.value
    ensures f.paymentStatus.None? ==> o.paymentStatus == DefaultPaymentStatus
    ensures f.paymentStatus.Some? ==> o.paymentStatus == f.paymentStatus.value
  {
    Order(id, f.user, f.cart, f.totalPrice, f.status.GetOr(DefaultStatus), f.paymentMethod,
          f.paymentStatus.GetOr(DefaultPaymentStatus), f.shippingAddress, now)
  }

  /** What the schema accepts, given the list of payment statuses it allows. */
  function Conforms(o: Order, paymentStatuses: seq<string>): (r: bool)
    ensures r ==> o.status != "" && o.paymentMethod != ""
    ensures r && paymentStatuses == PaymentStatusesAsWritten ==> o.paymentStatus != "Cancelled"
  {
    && o.totalPrice >= 0
    && o.status in Statuses
    && o.paymentMethod in PaymentMethods
    && o.paymentStatus in paymentStatuses
    && o.shippingAddress != ""
  }

  function RequiredOrEnum(path: string, requiredMessage: string, value: string, allowed: seq<string>): seq<FieldError> {
    if value == "" then [FieldError(path, requiredMessage)]
    else if value !in allowed then [FieldError(path, EnumMessage(path, value))]
    else []
  }

  function EnumOnly(path: string, value: string, allowed: seq<string>): seq<FieldError> {
    if value !in allowed then [FieldError(path, EnumMessage(path, value))] else []
  }

  /** The validation errors of an order, in schema order; none exactly when it conforms. */
  function OrderErrors(o: Order, paymentStatuses: seq<string>): (r: seq<FieldError>)
    ensures r == [] <==> Conforms(o, paymentStatuses)
    ensures o.totalPrice < 0 ==> FieldError("totalPrice", "Total price cannot be negative") in r
    ensures o.paymentStatus != "" && o.paymentStatus !in paymentStatuses ==>
              FieldError("paymentStatus", EnumMessage("paymentStatus", o.paymentStatus)) in r
  {
    (if o.totalPrice < 0 then [FieldError("totalPrice", "Total price cannot be negative")] else [])
    + EnumOnly("status", o.status, Statuses)
    + RequiredOrEnum("paymentMethod", "Payment method is required", o.paymentMethod, PaymentMethods)
    + EnumOnly("paymentStatus", o.paymentStatus, paymentStatuses)
    + (if o.shippingAddress == "" then [FieldError("shippingAddress", "Shipping address is required")] else [])
  }

  /** Validation with the schema as declared. */
  function SchemaErrorsAsWritten(o: Order): seq<FieldError> {
    OrderErrors(o, PaymentStatusesAsWritten)
  }

  /** Validation with "Cancelled" among the payment statuses. */
  function SchemaErrors(o: Order): seq<FieldError> {
    OrderErrors(o, PaymentStatuses)
  }

  /** The declared schema rejects the payment status "Cancelled" on any order, with the enum message. */
  lemma CancelledPaymentRejectedAsWritten(o: Order)
    requires o.paymentStatus == "Cancelled"
    ensures SchemaErrorsAsWritten(o) != []
    ensures EnumMessage("paymentStatus", "Cancelled") in Messages(SchemaErrorsAsWritten(o))
  {
    var errs := SchemaErrorsAsWritten(o);
    var e := FieldError("paymentStatus", EnumMessage("paymentStatus", "Cancelled"));
    assert "Cancelled" !in PaymentStatusesAsWritten;
    assert e in errs;
    var k :| 0 <= k < |errs| && errs[k] == e;
    assert Messages(errs)[k] == e.message;
  }

  /** The corrected schema accepts exactly what the declared one accepts, and also "Cancelled". */
  lemma CorrectedSchemaWidensPaymentStatus(o: Order)
    ensures SchemaErrorsAsWritten(o) == [] ==> SchemaErrors(o) == []
    ensures SchemaErrors(o) == [] <==>
              SchemaErrorsAsWritten(o) == [] || (Conforms(o.(paymentStatus := "Pending"), PaymentStatusesAsWritten) && o.paymentStatus == "Cancelled")
  {
  }

  /** A document created without status and payment status starts as Pending / Pending, which the schema accepts. */
  lemma DefaultsConform(f: OrderFields, id: nat, now: int)
    requires f.status.None? && f.paymentStatus.None?
    requires f.totalPrice >= 0 && f.paymentMethod in PaymentMethods && f.shippingAddress != ""
    ensures NewDocument(f, id, now).status == "Pending" && NewDocument(f, id, now).paymentStatus == "Pending"
    ensures SchemaErrorsAsWritten(NewDocument(f, id, now)) == []
  {
  }
}
