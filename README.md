# Order lifecycle and authentication of the DietHorizon backend, in Dafny

This project models the order and authentication core of the DietHorizon REST backend
(Express handlers over Mongoose documents) and proves properties of the model.

- **Orders** (`order_controller.dfy`): placing an order copies the submitted items into a cart
  snapshot, then creates an order whose `totalPrice` is the cart's total, with status and payment
  status both "Pending". A user lists their own orders, and an administrator lists all of them,
  newest first. Fetching or cancelling an order is allowed to its owner or an administrator.
  Cancel accepts only Pending or Processing orders. It sets status "Cancelled" and turns payment
  status "Paid" into "Refunded" and any other payment status into "Cancelled". The administrator's
  update checks enum membership only and imposes no transition order.
- **Cart** (`cart_model.dfy`): the item schema (a required product, quantity defaulting to 1 with no
  minimum, a price of at least 0) and the `totalPrice` virtual, a left fold of quantity × price.
- **Order schema** (`order_model.dfy`): the enums, defaults and bounds, and validation as a list
  of field errors with the schema's messages.
- **Request validators** (`order_validation.dfy`): the place-order and status-update validators as predicates.
- **Authentication** (`auth_controller.dfy`, `jwt_utils.dfy`): register, login, logout,
  forgot/reset password and update password, over a user collection. Token replies strip the
  password, and the session cookie's expiry is computed from the environment.
- **Error translation** (`async_handler.dfy`): thrown database errors become 400 responses.
  ValidationError is tested first, then duplicate key (code 11000), then CastError. Anything else
  is handed on unchanged.

How things are represented:

- Each collection is a `seq` field of a class (`OrderStore`, `UserStore`). MongoDB promises no
  order for an unsorted `find` or `findOne`; the model takes insertion order, and a lookup
  returns the first match (`Store.FirstMatch`). Under each store's `Valid()`, ids are distinct,
  and so are user emails. So every lookup by id or email has at most one match, and the choice of
  order does not matter for it. The one exception is the reset-token lookup, when two users hold
  the same token digest.
- A save validates the document first and stores it only when validation passes.
- Ids come from a counter.
- Time is an explicit `now` parameter (milliseconds).
- The raw reset token, which the user model generates at random, is a parameter.
- Password hashing, the sha256 digest and `jwt.sign` are function-valued fields or parameters.
- Prices and quantities are integers in minor currency units.
- In the order handlers, a request field is an `Option`, and JavaScript truthiness of a string
  field means present and non-empty. In the authentication handlers (`UserStore.Register`,
  `Login`, `ForgotPassword`, `ResetPassword`, `UpdatePassword`), request fields are plain strings,
  and "" stands for a missing field.
- Each handler that can fail returns an `Errors.Outcome`. Logout always succeeds and returns its
  reply (`LogoutReply`). The two order listings, which cannot fail, return the list of orders itself.
  The `Outcome` cases are:
  - `Ok(status, value)` for a success reply;
  - `Err(ErrorResponse)` when the handler calls `next(new ErrorResponse(...))`;
  - `Unhandled(error)` when the error translation hands the error on;
  - `Escaped(error)` when the translation itself throws.
- Message texts that come from the application's message table (not part of this model) are
  represented by their keys, such as `Named("ORDER_NOT_FOUND")`.

Facts about the code that the model keeps:

- The administrator's update accepts any status on the list, whatever the current status. No
  transition order is imposed (`AnyStatusFromAnyStatus`, `DeliveredBackToPending`).
- The cart schema declares no minimum quantity. Only the request validator requires at least 1
  (`NegativeQuantityAccepted`).
- The request validator never checks an item's price; only the cart schema requires one of at least
  0. A request with a negative or missing price passes the validator and the handler's check,
  and `Cart.create` then rejects it with a 400, before anything is stored
  (`ValidatorIgnoresPrice`, `UnpricedItemRejectedByCart`).
- The empty-cart check at orderController.js:44-46 can never fire. Line 20 already rejects an
  empty item list, and the cart stores one item per submitted item. The model leaves that
  unreachable branch out.
- A duplicate email, an illegal cancel and an invalid reset token are all HTTP 400.

The cart is created before the order. If the order then fails its schema check, for instance
because a negative quantity made the total negative, the cart stays behind
(`OrderStore.PlaceOrder`, `NegativeQuantityOrphansCart`).

## Model

| member | source | states |
|---|---|---|
| `Store.FirstMatch` | backend/controllers/authController.js:24 | A lookup yields the first document in collection order that matches. It yields none exactly when no document matches. |
| `AsyncHandler.Capitalize` | backend/middlewares/asyncHandler.js:24 | The field name's first character is upper-cased; the rest and the length are kept. |
| `AsyncHandler.Join` | backend/middlewares/asyncHandler.js:17-18 | Joining no messages gives "" and joining one gives that message; otherwise the result starts with the first message. |
| `AsyncHandler.JoinSnoc` | backend/middlewares/asyncHandler.js:17-18 | Joining one more message adds the separator and that message at the end. |
| `AsyncHandler.Translate` | backend/middlewares/asyncHandler.js:15-33 | A ValidationError becomes 400 with the field messages joined by ", ". Code 11000 becomes 400 "<Field> already exists", using the first key capitalized. A CastError becomes 400 "Invalid <path>: <value>". Every other error is handed on unchanged, and no error becomes a success. |
| `AsyncHandler.Wrap` | backend/middlewares/asyncHandler.js:8-10 | A handler that does not throw gets its own outcome back unchanged. A thrown error is translated and never yields a success. |
| `AsyncHandler.DuplicateEmailMessage` | backend/middlewares/asyncHandler.js:22-25 | A duplicate key on `email` is reported as 400 "Email already exists". |
| `AsyncHandler.ValidationBeforeDuplicate` | backend/middlewares/asyncHandler.js:16-25 | A ValidationError that also carries code 11000 is reported as a validation failure, since that test runs first. |
| `Schema.Messages` | backend/middlewares/asyncHandler.js:17 | One message per field error, in the same order, each being that error's message. |
| `CartModel.ItemErrors` | backend/models/cartModel.js:11-30 | An item has no validation errors exactly when its product is present and non-empty and its price is present and at least 0. Quantity is never rejected. |
| `CartModel.CartErrors` | backend/models/cartModel.js:10-31 | A cart has no validation errors exactly when every one of its items is accepted. |
| `CartModel.StoredItem` | backend/models/cartModel.js:21-25 | A stored item keeps the product and the price. A missing quantity becomes 1, and a given quantity, of any sign, is kept. |
| `CartModel.Materialize` | backend/models/cartModel.js:10-31 | The stored items correspond one to one, and in order, to the submitted ones. |
| `CartModel.Total` | backend/models/cartModel.js:37-39 | An empty cart totals 0, and a one-item cart totals that item's quantity × price. The rows below give the fold's other properties. |
| `CartModel.TotalEmpty` | backend/models/cartModel.js:38 | An empty cart totals 0. |
| `CartModel.TotalAppend` | backend/models/cartModel.js:38 | Appending an item raises the total by exactly its quantity × price. |
| `CartModel.TotalConcat` | backend/models/cartModel.js:38 | The total of two item lists laid end to end is the sum of their totals. |
| `CartModel.TotalRemove` | backend/models/cartModel.js:38 | Removing any one item lowers the total by that item's quantity × price. |
| `CartModel.TotalPermutation` | backend/models/cartModel.js:38 | Two item lists holding the same items in any order have the same total. |
| `CartModel.TotalNonNegative` | backend/models/cartModel.js:26-39 | With every price at least 0 (the schema's bound) and every quantity at least 0, the total is at least 0. |
| `CartModel.TotalExample` | backend/models/cartModel.js:37-39 | Two items at 10 and one at 5 total 25. |
| `CartModel.NegativeQuantityAccepted` | backend/models/cartModel.js:21-25 | The schema accepts quantity -1, and such a cart's total is negative. |
| `OrderModel.NewDocument` | backend/models/orderModel.js:23-39 | A new order takes the given fields. A missing status or payment status defaults to "Pending". |
| `OrderModel.Conforms` | backend/models/orderModel.js:17-44 | An order the schema accepts always has a status and a payment method. Under the declared enum its payment status is never "Cancelled". |
| `OrderModel.OrderErrors` | backend/models/orderModel.js:17-44 | An order has no validation errors exactly when all of these hold: the total is at least 0, the status and payment method are in their enums, the payment status is in the allowed list, and the shipping address is non-empty. A negative total or a payment status outside the list is reported with its message. |
| `OrderModel.CancelledPaymentRejectedAsWritten` | backend/models/orderModel.js:35-39 | The schema as declared rejects payment status "Cancelled" on every order, with the enum message. |
| `OrderModel.CorrectedSchemaWidensPaymentStatus` | backend/models/orderModel.js:35-39 | Adding "Cancelled" to the enum keeps every order the declared schema accepts. The only orders it adds are those with payment status "Cancelled". |
| `OrderModel.DefaultsConform` | backend/models/orderModel.js:23-39 | An order created without status or payment status starts as Pending / Pending, and the declared schema accepts it. |
| `OrderValidation.ValidatePlaceOrder` | backend/validations/orderValidation.js:6-26 | A request that passes has a non-empty payment method and shipping address, and every item has a non-empty product. |
| `OrderValidation.ValidateOrderStatus` | backend/validations/orderValidation.js:29-39 | Each field may be absent, but a given status or payment status, even "", must be in its list. So every given value is non-empty. |
| `OrderValidation.ValidateOrderStatusUpdate` | backend/validations/orderValidation.js:42-51 | Because the lists hold no "", the "at least one truthy field" rule is the same as "at least one field given", on top of the list checks. |
| `OrderValidation.ValidatorIgnoresPrice` | backend/validations/orderValidation.js:10-16 | Whether an item passes the validator does not depend on its price. |
| `OrderValidation.ValidatedUpdateFieldsTruthy` | backend/validations/orderValidation.js:29-51 | An update that passes the validator names at least one field, and every field it names is non-empty. |
| `OrderController.SaveFailure` | backend/middlewares/asyncHandler.js:16-19 | A failed save, such as `Cart.create`, `Order.create` or `order.save()` at orderController.js:32, 49, 145 and 214, is reported as 400 with the field messages joined by ", ". |
| `OrderController.CastFailure` | backend/middlewares/asyncHandler.js:28-30 | A malformed order id yields 400 "Invalid _id: <text>". |
| `OrderController.NormalizePaymentMethod` | backend/controllers/orderController.js:24-28 | The stored method is "COD" exactly when the lower-cased input is "cod". Any other input passes through unchanged. |
| `OrderController.CodSpellings` | backend/controllers/orderController.js:26 | The inputs that become "COD" are exactly the eight upper/lower-case spellings of "cod". |
| `OrderController.NormalizeIdempotent` | backend/controllers/orderController.js:24-28 | Normalizing twice is the same as normalizing once. |
| `OrderController.NormalizedMethodConforms` | backend/models/orderModel.js:29-33 | After normalization, the schema accepts exactly the spellings of "cod" and the other four methods written exactly. |
| `OrderController.ValidatedMethodConforms` | backend/validations/orderValidation.js:18-21 | Every payment method the validator accepts is stored as one the schema accepts. |
| `OrderController.MixedCaseCod` | backend/validations/orderValidation.js:18-21 | The handler stores "Cod" as "COD", but the validator's case-sensitive list rejects "Cod". |
| `OrderController.PlaceOrderGuard` | backend/controllers/orderController.js:20 | Every request that passes the validator also passes the handler's own check. A request that passes the check has at least one item. |
| `OrderController.Snapshot` | backend/controllers/orderController.js:32-39 | The cart receives each item's product, quantity and price, in input order. Name and image are dropped. |
| `OrderController.PlacedDocument` | backend/controllers/orderController.js:49-58 | The created order's total is the cart's total. Status and payment status are both "Pending", the payment method is normalized, and the address and creation time are the ones given. |
| `OrderController.ValidatedRequestPlacesOrder` | backend/validations/orderValidation.js:7-25 | A request that passes the validator, with every price given and at least 0, passes the handler's check. Its cart and its order are both accepted by their schemas. |
| `OrderController.NegativeQuantityOrphansCart` | backend/controllers/orderController.js:32-58 | Without the validator, quantity -1 passes the handler's check and the cart schema, but the order schema rejects the negative total. |
| `OrderController.UnpricedItemRejectedByCart` | backend/controllers/orderController.js:20-39 | An item with price -5, or with no price, passes the validator and the handler's check. The cart schema then rejects it with the min or required message on `items.0.price`, so placing the order fails with that 400 before anything is created. |
| `OrderController.CancelDecision` | backend/controllers/orderController.js:126-145 | A caller who is neither owner nor admin gets 403. Any status other than Pending/Processing gets 400. On success the status becomes "Cancelled", "Paid" becomes "Refunded" and any other payment status becomes "Cancelled", and no other field changes. Success happens exactly when the caller is owner or admin, the status is cancellable, and the cancelled order passes the schema. When only the schema check fails, the result is the save's 400 with the schema's messages. |
| `OrderController.CancelSucceeds` | backend/controllers/orderController.js:131-145 | With "Cancelled" a valid payment status, the owner or an admin can cancel every valid Pending or Processing order. |
| `OrderController.CancelTwiceFails` | backend/controllers/orderController.js:131-134 | Cancelling a cancelled order always fails: 400 for the owner or an admin, 403 for anyone else. |
| `OrderController.CancelUnpaidFailsAsWritten` | backend/controllers/orderController.js:139-145 | With the schema as declared, cancelling a valid unpaid Pending/Processing order always fails with 400 and the paymentStatus enum message. |
| `OrderController.CancelPaidSucceedsAsWritten` | backend/controllers/orderController.js:139-140 | With the schema as declared, a paid order is still cancelled and refunded. |
| `OrderController.Updated` | backend/controllers/orderController.js:197-212 | A truthy status or payment status replaces the old value, and a missing or empty one keeps it. No other field changes. With neither field truthy, the order is unchanged. |
| `OrderController.UpdateDecision` | backend/controllers/orderController.js:196-214 | A truthy status outside its list gives 400, even when the payment status is valid. A truthy payment status outside its list gives 400. On success a given field replaces the old value, an absent or empty one keeps it, and no other field changes. Success happens exactly when both checks pass and the saved order passes the schema. When both checks pass and the schema rejects the updated order, the result is the save's 400 with the schema's messages. |
| `OrderController.AnyStatusFromAnyStatus` | backend/controllers/orderController.js:197-203 | Any enum status can be set on any valid order, whatever its current status. |
| `OrderController.DeliveredBackToPending` | backend/controllers/orderController.js:197-203 | A delivered order can be set back to Pending. |
| `OrderController.ValidatedUpdateSucceeds` | backend/validations/orderValidation.js:42-51 | An update that passes the validator succeeds on every valid order, once "Cancelled" is a valid payment status. |
| `OrderController.AdminCancelledPaymentFailsAsWritten` | backend/controllers/orderController.js:196-214 | Payment status "Cancelled", alone or with any valid status, passes the validator and the handler's own lists. With the schema as declared, the save then fails with 400 and the paymentStatus enum message. |
| `OrderController.OwnedBy` | backend/controllers/orderController.js:78 | An order is listed exactly when it is in the collection and belongs to the user. |
| `OrderController.OwnedByCount` | backend/controllers/orderController.js:78 | Each of the user's orders appears as often as in the collection. Orders of other users do not appear. |
| `OrderController.OwnedByAppend` | backend/controllers/orderController.js:78 | A new order is appended to its owner's list and leaves every other user's list unchanged. |
| `OrderController.Insert` | backend/controllers/orderController.js:80 | Inserting adds exactly that one order. |
| `OrderController.InsertNewestFirst` | backend/controllers/orderController.js:80 | Inserting into a newest-first list keeps it newest first. |
| `OrderController.SortNewestFirst` | backend/controllers/orderController.js:80 | The sorted list is a permutation of its input, ordered by creation time, newest first. |
| `OrderController.OrderStore.PlaceOrder` | backend/controllers/orderController.js:17-70 | Missing items, payment method or address gives 400 and creates nothing. A rejected cart gives 400 with the joined messages and creates nothing. Otherwise the cart is appended. The order is then checked against the store's payment-status list. When it passes, it is appended and returned with 201. Otherwise the result is 400 and only the cart remains. |
| `OrderController.OrderStore.CreateCart` | backend/controllers/orderController.js:32-39 | A cart with validation errors gives 400 with those messages and stores nothing. Otherwise exactly one cart is appended, under the next id. |
| `OrderController.OrderStore.CreateOrder` | backend/controllers/orderController.js:49-58 | An order the schema rejects, under the store's payment-status list, gives 400 with its messages and stores nothing. Otherwise exactly that order is appended and returned with 201. |
| `OrderController.OrderStore.GetMyOrders` | backend/controllers/orderController.js:77-87 | The result holds exactly the caller's orders, each as often as stored, newest first. |
| `OrderController.OrderStore.GetAllOrders` | backend/controllers/orderController.js:164-175 | The result holds every stored order, newest first. |
| `OrderController.OrderStore.GetOrderById` | backend/controllers/orderController.js:94-112 | A malformed id gives 400 and a missing order 404. A caller who is neither owner nor admin gets 403. Otherwise the result is 200 with the stored order. |
| `OrderController.OrderStore.CancelOrder` | backend/controllers/orderController.js:119-157 | A malformed id gives 400 and a missing order 404, with no change. Otherwise the cancel decision applies to the first order with that id, with the save checked against the store's payment-status list. Only a success replaces that order, and nothing else changes. |
| `OrderController.OrderStore.UpdateOrderStatus` | backend/controllers/orderController.js:182-226 | Neither field truthy gives 400 before any lookup. Then a malformed id gives 400 and a missing order 404. Otherwise the update decision applies, with the save checked against the store's payment-status list. Only a success replaces the order, and a rejected field saves nothing. |
| `JwtUtils.ExpiresIn` | backend/utils/jwtUtils.js:12 | The token lifetime is JWT_EXPIRE when it is set, else "30d". It is never empty. |
| `JwtUtils.GenerateToken` | backend/utils/jwtUtils.js:8-14 | The token depends only on the user's `_id` and `role`: any user object with the same two fields gets the same token. Without JWT_EXPIRE it is signed for "30d". |
| `JwtUtils.CookieDays` | backend/utils/jwtUtils.js:42 | The cookie lifetime in days is JWT_COOKIE_EXPIRE when set, else 30. |
| `JwtUtils.TokenPayload` | backend/utils/jwtUtils.js:9-13 | The payload carries the user's `_id` as userId, and its role. |
| `JwtUtils.SendTokenResponse` | backend/utils/jwtUtils.js:32-72 | The reply has the given status and success true. The token is signed over {userId, role}. The cookie `token` is httpOnly, expires at now + days × 86 400 000 (days defaulting to 30), and is secure exactly in production. The data is the user minus `password`, with every other field kept. The message defaults to "Success". |
| `JwtUtils.DefaultCookieLifetime` | backend/utils/jwtUtils.js:40-43 | Without JWT_COOKIE_EXPIRE the cookie lasts 2 592 000 000 ms. |
| `AuthController.ToObject` | backend/utils/jwtUtils.js:53-56 | A user's plain object holds its id, name, email, stored password and role, plus its reset fields when set. |
| `AuthController.PublicFields` | backend/controllers/authController.js:47-52 | The registration reply holds exactly _id, name, email and role, never the password. |
| `AuthController.Authenticate` | backend/controllers/authController.js:66-82 | The result is 400 exactly when the email or the password is missing. With both given, every failure is 401, whether the email is unknown or the password wrong. Login succeeds exactly when the first user with that email stores the hash of the given password. With unique emails, that is the same as some user having both. |
| `AuthController.RegisterThenAuthenticate` | backend/controllers/authController.js:30-82 | A user just registered under a new email logs in with the same password. |
| `AuthController.ChangedPasswordAuthenticates` | backend/controllers/authController.js:208-213 | After a password change, the new password logs in and the old one gets 401. |
| `AuthController.ClearedReset` | backend/controllers/authController.js:168-170 | A reset sets the new password hash and clears token and expiry, and changes no other field. |
| `AuthController.ResetTokenSingleUse` | backend/controllers/authController.js:158-171 | When no other user holds the same digest, no user matches the token after the reset, at any later time. |
| `AuthController.ResetTokenExpires` | backend/controllers/authController.js:160 | A token is refused once now reaches its expiry; the expiry must be strictly later than now. |
| `AuthController.Logout` | backend/controllers/authController.js:106-116 | Logout overwrites the `token` cookie with "none". The cookie is httpOnly and expires 10 000 ms from now. |
| `AuthController.LogoutEndsSession` | backend/controllers/authController.js:107-110 | When sessions last at least a day, the logout cookie replaces the session cookie and expires before it would have. |
| `AuthController.UserStore.Register` | backend/controllers/authController.js:15-54 | A missing name, email or password gives 400, and so does an email already taken, with the store unchanged. Otherwise exactly one user is appended, with the hashed password and the role given or "user". The reply is 201 and never holds the password. Emails stay unique. |
| `AuthController.UserStore.Login` | backend/controllers/authController.js:62-85 | The outcome is the authentication's error: 400 exactly when a field is missing, otherwise 401. On success it is 200 with a token response for the user found, minus the password. |
| `AuthController.UserStore.ForgotPassword` | backend/controllers/authController.js:123-144 | An unknown email gives 404 and no change. Otherwise only that user changes: it stores the token's digest and now + lifetime, and the reply holds the raw token. |
| `AuthController.UserStore.ResetPassword` | backend/controllers/authController.js:151-174 | A token whose digest does not match, or whose expiry is not after now, gives 400 and no change. Otherwise only that user changes: new password, token and expiry cleared. A token response follows. |
| `AuthController.UserStore.UpdatePassword` | backend/controllers/authController.js:204-216 | A wrong current password gives 401 and no change. Otherwise only the password changes, and a token response follows. A caller whose user is gone makes the handler throw, and the error is handed on. |

## Findings

| source | as written | input that shows it | evidently intended | confidence | as-written member | corrected member |
|---|---|---|---|---|---|---|
| backend/models/orderModel.js:37 | The paymentStatus enum lacks "Cancelled", yet cancel assigns it (orderController.js:142) | The owner cancels a valid Pending order whose paymentStatus is "Pending": the save fails with 400 "`Cancelled` is not a valid enum value for path `paymentStatus`." | The enum includes "Cancelled", so unpaid orders can be cancelled | high; not executed | `OrderController.CancelUnpaidFailsAsWritten` | `OrderController.CancelSucceeds` |
| backend/models/orderModel.js:37 | The admin update's list (orderController.js:207) and the validator (orderValidation.js:37) accept "Cancelled", which the schema rejects | An admin sets paymentStatus "Cancelled" on any valid order: both checks pass, then the save fails with 400 | The enum includes "Cancelled", so the update succeeds | high; not executed | `OrderController.AdminCancelledPaymentFailsAsWritten` | `OrderController.ValidatedUpdateSucceeds` |

The order store (`OrderStore`) takes the payment-status list its schema allows as a constructor
argument, `paymentStatuses`. Its saves in `PlaceOrder`, `CancelOrder` and `UpdateOrderStatus` are
checked against that list. A store built with `OrderModel.PaymentStatusesAsWritten` behaves as the
code does: cancelling an unpaid order, or setting payment status "Cancelled", yields the 400 above
and leaves the store unchanged. A store built with `OrderModel.PaymentStatuses` behaves as intended.

## Left out

- getMe and updateDetails (authController.js:92-99, 181-197) and verifyToken (jwtUtils.js:21-23): plain store reads or writes, or a library call, outside the modelled handlers.
- The user model is not part of this model. Three of its parts become parameters of `UserStore`: password hashing and `comparePassword` (a deterministic `hash`, with no salt), the random reset token, and the reset-token lifetime. The user schema's own validation, such as a role enum or an email format, is not modelled, so a save of a user always succeeds.
- The texts of the application's message table are not part of this model. Messages appear as their keys. The generic error middleware that receives `Unhandled` errors is not modelled either.
- Population of `user` and `cart` in replies, `updatedAt`, and `orderDate`: the order schema does not declare `orderDate`, so it is not stored. Replies carry the bare order document.
- A missing and an empty authentication field are the same value (""). This matters where no
  handler checks the field: `currentPassword` and `newPassword` in updatePassword, and `password`
  in resetPassword. A missing value would reach the user model there, which this model does not
  include.
- Concurrency: each handler runs to completion before the next starts. Races between the duplicate-email check and the insert, which would surface as code 11000, are not modelled.
- Request values of other JSON types are not modelled: numbers or objects where strings are expected, and `null` as distinct from missing. Non-integer quantities are not modelled either. A truthy non-string `paymentMethod` would make `toLowerCase` throw.
- Case mapping is ASCII only, in `Lower` and `Capitalize`. No non-ASCII character lower-cases to "c", "o" or "d", so the "cod" test is unaffected.
- express-validator looks up each field in every request location, not only the body. The validators appear as predicates on the body. The order routes that would wire them in front of the handlers are not part of this model, so the handlers are modelled on their own.
- The ObjectId of the authenticated caller (`req.user.id`) is taken to be well formed.
- A non-numeric JWT_COOKIE_EXPIRE, which gives an invalid date, is not modelled.
- Signing is modelled only through its inputs (payload, secret, lifetime), with no token verification.
- The `console.error` logging of every caught error (asyncHandler.js:13) is output only and is not modelled.
