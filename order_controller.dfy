/**
 * The order handlers: place an order from submitted items, list one's own or all
 * orders newest first, fetch one order, cancel it, and (for administrators) set
 * its status and payment status. The decisions are pure functions over one
 * order document; the store applies them to its collections.
 */
module OrderController {
  import opened Wrappers
  import opened Errors
  import opened Schema
  import opened Store
  import opened AsyncHandler
  import opened CartModel
  import opened OrderModel
  import opened OrderValidation

  /** The `:id` of a request: a well-formed ObjectId, or text that is not one. */
  datatype RequestId = ObjectId(id: nat) | Malformed(text: string)

  /** A save that failed validation, after the error translation. */
  function SaveFailure<T>(errors: seq<FieldError>): (r: Outcome<T>)
    ensures r == Err(ErrorResponse(Text(Join(Messages(errors), ", ")), 400))
  {
    Translate(ValidationErrorOf(Messages(errors)))
  }

  /** A lookup by a malformed id, after the error translation. */
  function CastFailure<T>(text: string): (r: Outcome<T>)
    ensures r == Err(ErrorResponse(Text("Invalid _id: " + text), 400))
  {
    assert "Invalid " + "_id" + ": " + text == "Invalid _id: " + text;
    Translate(CastErrorOf("_id", text))
  }

  // ----- placing an order -----

  function LowerChar(c: char): char {
    if 'A' <= c <= 'Z' then (c as int + 32) as char else c
  }

  /** ASCII lower-casing, character by character. */
  function Lower(s: string): (r: string)
    ensures |r| == |s|
    ensures forall i :: 0 <= i < |s| ==> r[i] == LowerChar(s[i])
  {
    seq(|s|, i requires 0 <= i < |s| => LowerChar(s[i]))
  }

  /** The payment method as stored: "COD" for any spelling of "cod", anything else unchanged. */
  function NormalizePaymentMethod(pm: string): (r: string)
    ensures r == "COD" <==> Lower(pm) == "cod"
    ensures r != "COD" ==> r == pm
  {
    if Lower(pm) == "cod" then "COD" else pm
  }

  /** The spellings that become "COD" are exactly the eight upper/lower-case variants of "cod". */
  lemma CodSpellings(pm: string)
    ensures Lower(pm) == "cod" <==>
              && |pm| == 3
              && (pm[0] == 'c' || pm[0] == 'C')
              && (pm[1] == 'o' || pm[1] == 'O')
              && (pm[2] == 'd' || pm[2] == 'D')
  {
    if |pm| == 3 {
      var l := Lower(pm);
      assert l == [LowerChar(pm[0]), LowerChar(pm[1]), LowerChar(pm[2])];
    }
  }

  /** Normalizing twice is normalizing once. */
  lemma NormalizeIdempotent(pm: string)
    ensures NormalizePaymentMethod(NormalizePaymentMethod(pm)) == NormalizePaymentMethod(pm)
  {
    if Lower(pm) == "cod" {
      assert Lower("COD") == "cod";
    }
  }

  /** After normalization the schema accepts exactly the spellings of "cod" and the other four methods written exactly. */
  lemma NormalizedMethodConforms(pm: string)
    ensures NormalizePaymentMethod(pm) in PaymentMethods <==>
              Lower(pm) == "cod" || pm in ["Credit Card", "Debit Card", "UPI", "Net Banking"]
  {
    if Lower(pm) != "cod" {
      assert Lower("COD") == "cod";
      assert pm != "COD";
    }
  }

  /** Every payment method the validator lets through is stored as one the schema accepts. */
  lemma ValidatedMethodConforms(pm: string)
    requires pm in ValidatorPaymentMethods
    ensures NormalizePaymentMethod(pm) in PaymentMethods
  {
    NormalizedMethodConforms(pm);
    assert Lower("cod") == "cod";
    assert Lower("COD") == "cod";
  }

  /** "Cod" is stored as "COD" by the handler, yet the validator rejects it: its list is case-sensitive. */
  lemma MixedCaseCod()
    ensures NormalizePaymentMethod("Cod") == "COD"
    ensures "Cod" !in ValidatorPaymentMethods
  {
    assert Lower("Cod") == "cod";
  }

  /** The handler's own input check. */
  function PlaceOrderGuard(b: PlaceOrderBody): (r: bool)
    ensures ValidatePlaceOrder(b) ==> r
    ensures r ==> b.items.Some? && b.items.value != []
  {
    && b.items.Some? && |b.items.value| > 0
    && Truthy(b.paymentMethod)
    && Truthy(b.shippingAddress)
  }

  /** The cart snapshot's fields: product, quantity and price of each item, in input order. */
  function Snapshot(items: seq<ItemInput>): (r: seq<ItemFields>)
    ensures |r| == |items|
    ensures forall i :: 0 <= i < |items| ==>
              r[i].product == items[i].product && r[i].quantity == items[i].quantity && r[i].price == items[i].price
  {
    seq(|items|, i requires 0 <= i < |items| => ItemFields(items[i].product, items[i].quantity, items[i].price))
  }

  predicate CartAccepted(b: PlaceOrderBody)
    requires PlaceOrderGuard(b)
  {
    CartErrors(Snapshot(b.items.value)) == []
  }

  /** The items the cart stores for an accepted request. */
  function CartItems(b: PlaceOrderBody): (r: seq<CartItem>)
    requires PlaceOrderGuard(b) && CartAccepted(b)
    ensures |r| == |b.items.value|
  {
    Materialize(Snapshot(b.items.value))
  }

  /** The order document the handler creates: the cart's total, the normalized
      payment method, status and payment status both "Pending". */
  function PlacedDocument(b: PlaceOrderBody, user: nat, cart: nat, id: nat, now: int): (o: Order)
    requires PlaceOrderGuard(b) && CartAccepted(b)
    ensures o.user == user && o.cart == cart && o.id == id && o.createdAt == now
    ensures o.totalPrice == Total(CartItems(b))
    ensures o.status == "Pending" && o.paymentStatus == "Pending"
    ensures o.paymentMethod == NormalizePaymentMethod(b.paymentMethod.value)
    ensures o.shippingAddress == b.shippingAddress.value
  {
    NewDocument(OrderFields(user, cart, Total(CartItems(b)), Some("Pending"),
                            NormalizePaymentMethod(b.paymentMethod.value), Some("Pending"),
                            b.shippingAddress.value), id, now)
  }

  /** A request that passes the validator, with every price given and at least 0, passes the
      handler's check, creates its cart and creates an order the schema accepts. */
  lemma ValidatedRequestPlacesOrder(b: PlaceOrderBody, user: nat, cart: nat, id: nat, now: int)
    requires ValidatePlaceOrder(b)
    requires forall i :: 0 <= i < |b.items.value| ==> b.items.value[i].price.Some? && b.items.value[i].price.value >= 0
    ensures PlaceOrderGuard(b) && CartAccepted(b)
    ensures SchemaErrorsAsWritten(PlacedDocument(b, user, cart, id, now)) == []
    ensures SchemaErrors(PlacedDocument(b, user, cart, id, now)) == []
  {
    var fs := Snapshot(b.items.value);
    assert forall i :: 0 <= i < |fs| ==> ItemAccepted(fs[i]) by {
      forall i | 0 <= i < |fs| ensures ItemAccepted(fs[i]) {
        assert ValidItem(b.items.value[i]);
      }
    }
    var items := CartItems(b);
    forall i | 0 <= i < |items| ensures items[i].quantity >= 0 && items[i].price >= 0 {
      assert ValidItem(b.items.value[i]);
    }
    TotalNonNegative(items);
    ValidatedMethodConforms(b.paymentMethod.value);
  }

  /** Without the validator, an item with quantity -1 passes the handler's check and the cart
      schema, but the order's negative total is rejected: the cart is created and the order is not. */
  lemma NegativeQuantityOrphansCart(user: nat, cart: nat, id: nat, now: int)
    ensures var b := PlaceOrderBody(Some([ItemInput(Some("p1"), None, None, Some(-1), Some(5))]), Some("cod"), Some("123 St"));
            && PlaceOrderGuard(b) && !ValidatePlaceOrder(b) && CartAccepted(b)
            && SchemaErrors(PlacedDocument(b, user, cart, id, now)) != []
  {
    var b := PlaceOrderBody(Some([ItemInput(Some("p1"), None, None, Some(-1), Some(5))]), Some("cod"), Some("123 St"));
    assert !ValidItem(b.items.value[0]);
    assert Snapshot(b.items.value) == [ItemFields(Some("p1"), Some(-1), Some(5))];
    NegativeQuantityAccepted();
  }

  /** A request with a negative or a missing price passes the validator and the handler's check,
      and then the cart schema rejects it with the price error: the order fails with that 400
      before anything is created. */
  lemma UnpricedItemRejectedByCart()
    ensures var b := PlaceOrderBody(Some([ItemInput(Some("p1"), None, None, Some(1), Some(-5))]), Some("cod"), Some("123 St"));
            && ValidatePlaceOrder(b) && PlaceOrderGuard(b) && !CartAccepted(b)
            && CartErrors(Snapshot(b.items.value)) == [FieldError("items.0.price", MinMessage("price", -5, 0))]
    ensures var b := PlaceOrderBody(Some([ItemInput(Some("p1"), None, None, Some(1), None)]), Some("cod"), Some("123 St"));
            && ValidatePlaceOrder(b) && PlaceOrderGuard(b) && !CartAccepted(b)
            && CartErrors(Snapshot(b.items.value)) == [FieldError("items.0.price", RequiredMessage("price"))]
  {
    var b := PlaceOrderBody(Some([ItemInput(Some("p1"), None, None, Some(1), Some(-5))]), Some("cod"), Some("123 St"));
    assert ValidItem(b.items.value[0]);
    assert Snapshot(b.items.value) == [ItemFields(Some("p1"), Some(1), Some(-5))];
    assert NatToString(0) == "0";
    assert "items." + NatToString(0) + "." + "price" == "items.0.price";
    var f := ItemFields(Some("p1"), Some(1), Some(-5));
    assert [f][1..] == [] && CartErrorsFrom([], 1) == [];
    assert CartErrors([f]) == ItemErrors(f, 0) + CartErrorsFrom([f][1..], 1);
    assert ItemErrors(f, 0) == [FieldError("items.0.price", MinMessage("price", -5, 0))];
    var b2 := PlaceOrderBody(Some([ItemInput(Some("p1"), None, None, Some(1), None)]), Some("cod"), Some("123 St"));
    assert ValidItem(b2.items.value[0]);
    assert Snapshot(b2.items.value) == [ItemFields(Some("p1"), Some(1), None)];
    var f2 := ItemFields(Some("p1"), Some(1), None);
    assert [f2][1..] == [];
    assert CartErrors([f2]) == ItemErrors(f2, 0) + CartErrorsFrom([f2][1..], 1);
    assert ItemErrors(f2, 0) == [FieldError("items.0.price", RequiredMessage("price"))];
  }

  // ----- reading and changing one order -----

  function HasId(id: nat): Order -> bool {
    (o: Order) => o.id == id
  }

  predicate IsOwnerOrAdmin(o: Order, user: nat, role: string) {
    o.user == user || role == "admin"
  }

  const CancellableStatuses: seq<string> := ["Pending", "Processing"]

  /** The cancel decision for a found order, including the save's validation against `paymentStatuses`. */
  function CancelDecision(o: Order, user: nat, role: string, paymentStatuses: seq<string>): (r: Outcome<Order>)
    ensures !IsOwnerOrAdmin(o, user, role) ==> r == Err(Unauthorized)
    ensures IsOwnerOrAdmin(o, user, role) && o.status !in CancellableStatuses ==> r == Err(CannotCancelOrder)
    ensures r.Ok? ==> r.statusCode == 200 && r.value.status == "Cancelled"
    ensures r.Ok? ==> r.value.paymentStatus == (if o.paymentStatus == "Paid" then "Refunded" else "Cancelled")
    ensures r.Ok? ==> r.value == o.(status := r.value.status, paymentStatus := r.value.paymentStatus)
    ensures r.Ok? ==> IsOwnerOrAdmin(o, user, role) && o.status in CancellableStatuses
    ensures r.Ok? ==> Conforms(r.value, paymentStatuses)
    ensures r.Err? || r.Ok?
    ensures var c := o.(status := "Cancelled", paymentStatus := if o.paymentStatus == "Paid" then "Refunded" else "Cancelled");
            && (r.Ok? <==> IsOwnerOrAdmin(o, user, role) && o.status in CancellableStatuses && Conforms(c, paymentStatuses))
            && (IsOwnerOrAdmin(o, user, role) && o.status in CancellableStatuses && !Conforms(c, paymentStatuses) ==>
                  r == SaveFailure(OrderErrors(c, paymentStatuses)))
  {
    if !IsOwnerOrAdmin(o, user, role) then Err(Unauthorized)
    else if o.status !in CancellableStatuses then Err(CannotCancelOrder)
    else
      var c := o.(status := "Cancelled", paymentStatus := if o.paymentStatus == "Paid" then "Refunded" else "Cancelled");
      var errors := OrderErrors(c, paymentStatuses);
      if errors != [] then SaveFailure(errors) else Ok(200, c)
  }

  /** With "Cancelled" a valid payment status, an owner or administrator can cancel every
      conforming order that is Pending or Processing. */
  lemma CancelSucceeds(o: Order, user: nat, role: string)
    requires Conforms(o, PaymentStatuses)
    requires IsOwnerOrAdmin(o, user, role) && o.status in CancellableStatuses
    ensures CancelDecision(o, user, role, PaymentStatuses).Ok?
  {
    var c := o.(status := "Cancelled", paymentStatus := if o.paymentStatus == "Paid" then "Refunded" else "Cancelled");
    assert Conforms(c, PaymentStatuses);
  }

  /** A cancelled order cannot be cancelled again, by anyone. */
  lemma CancelTwiceFails(o: Order, user: nat, role: string, user2: nat, role2: string, paymentStatuses: seq<string>)
    requires CancelDecision(o, user, role, paymentStatuses).Ok?
    ensures var c := CancelDecision(o, user, role, paymentStatuses).value;
            CancelDecision(c, user2, role2, paymentStatuses) ==
              (if IsOwnerOrAdmin(c, user2, role2) then Err(CannotCancelOrder) else Err(Unauthorized))
  {
  }

  /** With the schema as declared, cancelling a conforming, unpaid, Pending or Processing order
      always fails: the save rejects the payment status "Cancelled". */
  lemma CancelUnpaidFailsAsWritten(o: Order, user: nat, role: string)
    requires Conforms(o, PaymentStatusesAsWritten)
    requires IsOwnerOrAdmin(o, user, role) && o.status in CancellableStatuses
    requires o.paymentStatus != "Paid"
    ensures CancelDecision(o, user, role, PaymentStatusesAsWritten) ==
              Err(ErrorResponse(Text(EnumMessage("paymentStatus", "Cancelled")), 400))
  {
    var c := o.(status := "Cancelled", paymentStatus := "Cancelled");
    assert "Cancelled" !in PaymentStatusesAsWritten;
    var e := FieldError("paymentStatus", EnumMessage("paymentStatus", "Cancelled"));
    assert OrderErrors(c, PaymentStatusesAsWritten) == [e];
    assert Messages([e]) == [e.message];
  }

  /** A paid order is cancelled, and refunded, even with the schema as declared. */
  lemma CancelPaidSucceedsAsWritten(o: Order, user: nat, role: string)
    requires Conforms(o, PaymentStatusesAsWritten)
    requires IsOwnerOrAdmin(o, user, role) && o.status in CancellableStatuses
    requires o.paymentStatus == "Paid"
    ensures CancelDecision(o, user, role, PaymentStatusesAsWritten) ==
              Ok(200, o.(status := "Cancelled", paymentStatus := "Refunded"))
  {
    assert Conforms(o.(status := "Cancelled", paymentStatus := "Refunded"), PaymentStatusesAsWritten);
  }

  const UpdatableStatuses: seq<string> := ["Pending", "Processing", "Shipped", "Delivered", "Cancelled"]
  const UpdatablePaymentStatuses: seq<string> := ["Pending", "Paid", "Failed", "Refunded", "Cancelled"]

  /** The order after an update: a truthy field replaces the old value, an absent or empty one keeps it. */
  function Updated(o: Order, status: Option<string>, paymentStatus: Option<string>): (r: Order)
    ensures r.(status := o.status, paymentStatus := o.paymentStatus) == o
    ensures r.status == (if Truthy(status) then status.value else o.status)
    ensures r.paymentStatus == (if Truthy(paymentStatus) then paymentStatus.value else o.paymentStatus)
    ensures !Truthy(status) && !Truthy(paymentStatus) ==> r == o
  {
    o.(status := if Truthy(status) then status.value else o.status,
       paymentStatus := if Truthy(paymentStatus) then paymentStatus.value else o.paymentStatus)
  }

  /** The administrator's update of a found order, including the save's validation against `paymentStatuses`.
      No transition order is imposed: only enum membership is checked. */
  function UpdateDecision(o: Order, status: Option<string>, paymentStatus: Option<string>, paymentStatuses: seq<string>): (r: Outcome<Order>)
    ensures Truthy(status) && status.value !in UpdatableStatuses ==> r == Err(InvalidStatus)
    ensures && (Truthy(status) ==> status.value in UpdatableStatuses)
            && Truthy(paymentStatus) && paymentStatus.value !in UpdatablePaymentStatuses
            ==> r == Err(InvalidPaymentStatus)
    ensures r.Ok? ==> r.statusCode == 200
    ensures r.Ok? ==> r.value.status == (if Truthy(status) then status.value else o.status)
    ensures r.Ok? ==> r.value.paymentStatus == (if Truthy(paymentStatus) then paymentStatus.value else o.paymentStatus)
    ensures r.Ok? ==> r.value == o.(status := r.value.status, paymentStatus := r.value.paymentStatus)
    ensures r.Ok? <==>
              && (Truthy(status) ==> status.value in UpdatableStatuses)
              && (Truthy(paymentStatus) ==> paymentStatus.value in UpdatablePaymentStatuses)
              && Conforms(Updated(o, status, paymentStatus), paymentStatuses)
    ensures && (Truthy(status) ==> status.value in UpdatableStatuses)
            && (Truthy(paymentStatus) ==> paymentStatus.value in UpdatablePaymentStatuses)
            && !Conforms(Updated(o, status, paymentStatus), paymentStatuses)
            ==> r == SaveFailure(OrderErrors(Updated(o, status, paymentStatus), paymentStatuses))
    ensures r.Err? || r.Ok?
  {
    if Truthy(status) && status.value !in UpdatableStatuses then Err(InvalidStatus)
    else if Truthy(paymentStatus) && paymentStatus.value !in UpdatablePaymentStatuses then Err(InvalidPaymentStatus)
    else
      var u := Updated(o, status, paymentStatus);
      var errors := OrderErrors(u, paymentStatuses);
      if errors != [] then SaveFailure(errors) else Ok(200, u)
  }

  /** Any status can be set from any status: the update imposes no transition order. */
  lemma AnyStatusFromAnyStatus(o: Order, s: string)
    requires Conforms(o, PaymentStatuses)
    requires s in Statuses
    ensures UpdateDecision(o, Some(s), None, PaymentStatuses) == Ok(200, o.(status := s))
  {
    assert Conforms(o.(status := s), PaymentStatuses);
  }

  /** For instance, a delivered order can be set back to Pending. */
  lemma DeliveredBackToPending(o: Order)
    requires Conforms(o, PaymentStatuses) && o.status == "Delivered"
    ensures UpdateDecision(o, Some("Pending"), None, PaymentStatuses).Ok?
    ensures UpdateDecision(o, Some("Pending"), None, PaymentStatuses).value.status == "Pending"
  {
    AnyStatusFromAnyStatus(o, "Pending");
  }

  /** An update that passes the validator succeeds on any conforming order, once "Cancelled" is a valid payment status. */
  lemma ValidatedUpdateSucceeds(o: Order, status: Option<string>, paymentStatus: Option<string>)
    requires Conforms(o, PaymentStatuses)
    requires ValidateOrderStatusUpdate(status, paymentStatus)
    ensures UpdateDecision(o, status, paymentStatus, PaymentStatuses).Ok?
  {
    ValidatedUpdateFieldsTruthy(status, paymentStatus);
    assert Conforms(Updated(o, status, paymentStatus), PaymentStatuses);
  }

  /** With the schema as declared, setting the payment status "Cancelled", alone or together with
      any valid status, passes the validator and the handler's own checks, and then fails at the save. */
  lemma AdminCancelledPaymentFailsAsWritten(o: Order, status: Option<string>)
    requires Conforms(o, PaymentStatusesAsWritten)
    requires status.None? || status.value in Statuses
    ensures ValidateOrderStatusUpdate(status, Some("Cancelled"))
    ensures "Cancelled" in UpdatablePaymentStatuses
    ensures UpdateDecision(o, status, Some("Cancelled"), PaymentStatusesAsWritten) ==
              Err(ErrorResponse(Text(EnumMessage("paymentStatus", "Cancelled")), 400))
  {
    var u := Updated(o, status, Some("Cancelled"));
    assert u.status in Statuses;
    assert "Cancelled" !in PaymentStatusesAsWritten;
    var e := FieldError("paymentStatus", EnumMessage("paymentStatus", "Cancelled"));
    assert OrderErrors(u, PaymentStatusesAsWritten) == [e];
    assert Messages([e]) == [e.message];
  }

  // ----- listings -----

  /** The orders of one user, in collection order. */
  function OwnedBy(os: seq<Order>, user: nat): (r: seq<Order>)
    ensures forall o :: o in r <==> o in os && o.user == user
    decreases |os|
  {
    if os == [] then []
    else (if os[0].user == user then [os[0]] else []) + OwnedBy(os[1..], user)
  }

  /** The caller's orders appear as often as in the collection, and nobody else's appear at all. */
  lemma {:induction false} OwnedByCount(os: seq<Order>, user: nat, o: Order)
    ensures multiset(OwnedBy(os, user))[o] == (if o.user == user then multiset(os)[o] else 0)
    decreases |os|
  {
    if os != [] {
      assert os == [os[0]] + os[1..];
      OwnedByCount(os[1..], user, o);
    }
  }

  /** Placing an order appends it to its owner's orders and leaves everyone else's alone. */
  lemma {:induction false} OwnedByAppend(os: seq<Order>, o: Order, user: nat)
    ensures OwnedBy(os + [o], user) == OwnedBy(os, user) + (if o.user == user then [o] else [])
    decreases |os|
  {
    if os == [] {
      assert os + [o] == [o];
      assert [o][1..] == [];
    } else {
      var head := if os[0].user == user then [os[0]] else [];
      var tail := if o.user == user then [o] else [];
      assert (os + [o])[0] == os[0];
      assert (os + [o])[1..] == os[1..] + [o];
      OwnedByAppend(os[1..], o, user);
      calc {
        OwnedBy(os + [o], user);
        head + OwnedBy(os[1..] + [o], user);
        head + (OwnedBy(os[1..], user) + tail);
        (head + OwnedBy(os[1..], user)) + tail;
      }
    }
  }

  predicate NewestFirst(os: seq<Order>) {
    forall i, j :: 0 <= i < j < |os| ==> os[i].createdAt >= os[j].createdAt
  }

  /** Insert an order into a list, before the first order that is not newer than it. */
  function Insert(o: Order, s: seq<Order>): (r: seq<Order>)
    ensures multiset(r) == multiset(s) + multiset{o}
    decreases |s|
  {
    if s == [] then [o]
    else if o.createdAt >= s[0].createdAt then [o] + s
    else
      assert s == [s[0]] + s[1..];
      [s[0]] + Insert(o, s[1..])
  }

  /** An order at least as new as every order of a newest-first list can go in front of it. */
  lemma PrependNewestFirst(x: Order, t: seq<Order>)
    requires NewestFirst(t)
    requires forall y :: y in t ==> y.createdAt <= x.createdAt
    ensures NewestFirst([x] + t)
  {
    var r := [x] + t;
    forall i, j | 0 <= i < j < |r| ensures r[i].createdAt >= r[j].createdAt {
      assert r[j] == t[j - 1];
      if i > 0 {
        assert r[i] == t[i - 1];
      }
    }
  }

  /** Inserting into a newest-first list keeps it newest first. */
  lemma {:induction false} InsertNewestFirst(o: Order, s: seq<Order>)
    requires NewestFirst(s)
    ensures NewestFirst(Insert(o, s))
    decreases |s|
  {
    if s == [] {
    } else if o.createdAt >= s[0].createdAt {
      forall y | y in s ensures y.createdAt <= o.createdAt {
        var k :| 0 <= k < |s| && s[k] == y;
        assert k == 0 || s[0].createdAt >= s[k].createdAt;
      }
      PrependNewestFirst(o, s);
    } else {
      var t := Insert(o, s[1..]);
      assert s == [s[0]] + s[1..];
      assert NewestFirst(s[1..]) by {
        forall i, j | 0 <= i < j < |s[1..]| ensures s[1..][i].createdAt >= s[1..][j].createdAt {
          assert s[1..][i] == s[i + 1] && s[1..][j] == s[j + 1];
        }
      }
      InsertNewestFirst(o, s[1..]);
      forall y | y in t ensures y.createdAt <= s[0].createdAt {
        assert y in multiset(t);
        assert y == o || y in multiset(s[1..]);
        if y != o {
          var k :| 0 <= k < |s[1..]| && s[1..][k] == y;
          assert s[k + 1] == y;
        }
      }
      PrependNewestFirst(s[0], t);
    }
  }

  /** Sort by creation time, newest first (`sort({ createdAt: -1 })`). */
  function SortNewestFirst(os: seq<Order>): (r: seq<Order>)
    ensures multiset(r) == multiset(os)
    ensures NewestFirst(r)
    decreases |os|
  {
    if os == [] then []
    else
      assert os == [os[0]] + os[1..];
      InsertNewestFirst(os[0], SortNewestFirst(os[1..]));
      Insert(os[0], SortNewestFirst(os[1..]))
  }

  class OrderStore {
    var orders: seq<Order>
    var carts: seq<Cart>
    var nextId: nat
    /** The payment statuses the order schema allows: `PaymentStatusesAsWritten` for the
        schema as declared, `PaymentStatuses` for the corrected one. */
    const paymentStatuses: seq<string>

    /** Ids are fresh and distinct, and every stored order passed the schema. */
    ghost predicate Valid()
      reads this
    {
      && (forall i :: 0 <= i < |orders| ==> orders[i].id < nextId && Conforms(orders[i], paymentStatuses))
      && (forall i, j :: 0 <= i < j < |orders| ==> orders[i].id != orders[j].id)
      && (forall i :: 0 <= i < |carts| ==> carts[i].id < nextId)
    }

    constructor (paymentStatuses: seq<string>)
      ensures Valid() && orders == [] && carts == [] && this.paymentStatuses == paymentStatuses
    {
      this.paymentStatuses := paymentStatuses;
      orders := [];
      carts := [];
      nextId := 0;
    }

    /** placeOrder: check the input, create the cart, then create the order. */
    method PlaceOrder(user: nat, body: PlaceOrderBody, now: int) returns (r: Outcome<Order>)
      requires Valid()
      modifies this
      ensures Valid()
      ensures !PlaceOrderGuard(body) ==>
                r == Err(RequiredFields) && orders == old(orders) && carts == old(carts)
      ensures PlaceOrderGuard(body) && !CartAccepted(body) ==>
                r == SaveFailure(CartErrors(Snapshot(body.items.value)))
                && orders == old(orders) && carts == old(carts)
      ensures PlaceOrderGuard(body) && CartAccepted(body) ==>
                carts == old(carts) + [Cart(old(nextId), user, CartItems(body))]
      ensures PlaceOrderGuard(body) && CartAccepted(body) ==>
                var o := PlacedDocument(body, user, old(nextId), old(nextId) + 1, now);
                if OrderErrors(o, paymentStatuses) == [] then r == Ok(201, o) && orders == old(orders) + [o]
                else r == SaveFailure(OrderErrors(o, paymentStatuses)) && orders == old(orders)
    {
      if !PlaceOrderGuard(body) {
        return Err(RequiredFields);
      }
      var cart := CreateCart(user, Snapshot(body.items.value));
      if cart.Err? {
        return SaveFailure(CartErrors(Snapshot(body.items.value)));
      }
      r := CreateOrder(PlacedDocument(body, user, cart.value.id, nextId, now));
    }

    /** `Cart.create`: validate the cart; when it passes, store it under a fresh id. */
    method CreateCart(user: nat, fields: seq<ItemFields>) returns (r: Outcome<Cart>)
      requires Valid()
      modifies this`carts, this`nextId
      ensures Valid()
      ensures CartErrors(fields) != [] ==>
                r == SaveFailure(CartErrors(fields)) && carts == old(carts) && nextId == old(nextId)
      ensures CartErrors(fields) == [] ==>
                && r == Ok(201, Cart(old(nextId), user, Materialize(fields)))
                && carts == old(carts) + [r.value] && nextId == old(nextId) + 1
    {
      var errors := CartErrors(fields);
      if errors != [] {
        return SaveFailure(errors);
      }
      var cart := Cart(nextId, user, Materialize(fields));
      carts := carts + [cart];
      nextId := nextId + 1;
      r := Ok(201, cart);
    }

    /** `Order.create` of a document carrying the next id: validate it; when it passes, store it. */
    method CreateOrder(o: Order) returns (r: Outcome<Order>)
      requires Valid() && o.id == nextId
      modifies this`orders, this`nextId
      ensures Valid()
      ensures OrderErrors(o, paymentStatuses) != [] ==>
                r == SaveFailure(OrderErrors(o, paymentStatuses)) && orders == old(orders) && nextId == old(nextId)
      ensures OrderErrors(o, paymentStatuses) == [] ==>
                r == Ok(201, o) && orders == old(orders) + [o] && nextId == old(nextId) + 1
    {
      var errors := OrderErrors(o, paymentStatuses);
      if errors != [] {
        return SaveFailure(errors);
      }
      orders := orders + [o];
      nextId := nextId + 1;
      r := Ok(201, o);
    }

    /** getMyOrders: exactly the caller's orders, newest first. */
    function GetMyOrders(user: nat): (r: seq<Order>)
      reads this
      ensures forall o :: o in r <==> o in orders && o.user == user
      ensures forall o :: multiset(r)[o] == (if o.user == user then multiset(orders)[o] else 0)
      ensures NewestFirst(r)
    {
      assert forall o :: multiset(OwnedBy(orders, user))[o] == (if o.user == user then multiset(orders)[o] else 0) by {
        forall o { OwnedByCount(orders, user, o); }
      }
      SortNewestFirst(OwnedBy(orders, user))
    }

    /** getAllOrders: every order, newest first. */
    function GetAllOrders(): (r: seq<Order>)
      reads this
      ensures multiset(r) == multiset(orders)
      ensures NewestFirst(r)
    {
      SortNewestFirst(orders)
    }

    /** getOrderById: 404 for a missing order, 403 unless the caller owns it or is an administrator. */
    function GetOrderById(user: nat, role: string, id: RequestId): (r: Outcome<Order>)
      requires Valid()
      reads this
      ensures id.Malformed? ==> r == CastFailure(id.text)
      ensures id.ObjectId? && (forall o :: o in orders ==> o.id != id.id) ==> r == Err(OrderNotFound)
      ensures id.ObjectId? && (exists o :: o in orders && o.id == id.id && !IsOwnerOrAdmin(o, user, role)) ==>
                r == Err(Unauthorized)
      ensures r.Ok? <==> id.ObjectId? && exists o :: o in orders && o.id == id.id && IsOwnerOrAdmin(o, user, role)
      ensures r.Ok? ==> r.statusCode == 200 && r.value in orders && r.value.id == id.id
    {
      match id
      case Malformed(text) => CastFailure(text)
      case ObjectId(k) =>
        match FirstMatch(orders, HasId(k))
        case None => Err(OrderNotFound)
        case Some(i) =>
          if !IsOwnerOrAdmin(orders[i], user, role) then Err(Unauthorized) else Ok(200, orders[i])
    }

    /** cancelOrder: look the order up, then apply the cancel decision and save. */
    method CancelOrder(user: nat, role: string, id: RequestId) returns (r: Outcome<Order>)
      requires Valid()
      modifies this`orders
      ensures Valid()
      ensures id.Malformed? ==> r == CastFailure(id.text) && orders == old(orders)
      ensures id.ObjectId? && FirstMatch(old(orders), HasId(id.id)).None? ==>
                r == Err(OrderNotFound) && orders == old(orders)
      ensures id.ObjectId? && FirstMatch(old(orders), HasId(id.id)).Some? ==>
                var i := FirstMatch(old(orders), HasId(id.id)).value;
                && r == CancelDecision(old(orders)[i], user, role, paymentStatuses)
                && orders == (if r.Ok? then old(orders)[i := r.value] else old(orders))
    {
      if id.Malformed? {
        return CastFailure(id.text);
      }
      var found := FirstMatch(orders, HasId(id.id));
      if found.None? {
        return Err(OrderNotFound);
      }
      var i := found.value;
      r := CancelDecision(orders[i], user, role, paymentStatuses);
      if r.Ok? {
        orders := orders[i := r.value];
      }
    }

    /** updateOrderStatus: at least one field, look the order up, then apply the update and save. */
    method UpdateOrderStatus(id: RequestId, status: Option<string>, paymentStatus: Option<string>) returns (r: Outcome<Order>)
      requires Valid()
      modifies this`orders
      ensures Valid()
      ensures !Truthy(status) && !Truthy(paymentStatus) ==> r == Err(RequiredFields) && orders == old(orders)
      ensures (Truthy(status) || Truthy(paymentStatus)) && id.Malformed? ==>
                r == CastFailure(id.text) && orders == old(orders)
      ensures (Truthy(status) || Truthy(paymentStatus)) && id.ObjectId? && FirstMatch(old(orders), HasId(id.id)).None? ==>
                r == Err(OrderNotFound) && orders == old(orders)
      ensures (Truthy(status) || Truthy(paymentStatus)) && id.ObjectId? && FirstMatch(old(orders), HasId(id.id)).Some? ==>
                var i := FirstMatch(old(orders), HasId(id.id)).value;
                && r == UpdateDecision(old(orders)[i], status, paymentStatus, paymentStatuses)
                && orders == (if r.Ok? then old(orders)[i := r.value] else old(orders))
    {
      if !Truthy(status) && !Truthy(paymentStatus) {
        return Err(RequiredFields);
      }
      if id.Malformed? {
        return CastFailure(id.text);
      }
      var found := FirstMatch(orders, HasId(id.id));
      if found.None? {
        return Err(OrderNotFound);
      }
      var i := found.value;
      r := UpdateDecision(orders[i], status, paymentStatus, paymentStatuses);
      if r.Ok? {
        orders := orders[i := r.value];
      }
    }
  }
}
