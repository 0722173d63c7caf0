# express-ecommerce checkout core, in Dafny

This project models the checkout and account core of a multi-tenant Express/Sequelize e-commerce backend and proves properties of that model. Each store is a tenant.

- **Cart** (`src/services/cart.service.ts`). There is one Redis hash per `(store, session)` key. Each field is `productId` or `productId:variantId`. Each value is the stored line item. Adding a line merges it by item key and refreshes a 7-day TTL. An update to 0 or less deletes the field. A hash whose last field is deleted disappears.
- **Order creation** (`src/services/order.service.ts`). It reads the cart and refuses an empty one. Inside one transaction it:
  - checks stock line by line and decrements variant stock;
  - prices each line by the variant's specific price or the product's base price;
  - resolves or creates the shipping address;
  - creates a PENDING order and its items;
  - asks the payment gateway for a transaction of the total in minor units and records its reference;
  - clears the cart, then commits.

  Any failure rolls every table back. The service also covers order listing, lookup and the status update.
- **Payments** (`src/services/payment.service.ts`, `src/controllers/payment.controller.ts`). The gateway parameters and rounding to minor units. The HMAC webhook signature check. The Paystack webhook handler, which finds the order by metadata id or by reference, compares the paid amount, marks the order PAID and enqueues a confirmation e-mail.
- **Access decisions** (`src/middlewares/authorize.middleware.ts`, `src/controllers/order.controller.ts`). Role and tenant authorisation. The session id used for carts. The guards, ownership checks and status validation of the order endpoints.
- **Accounts** (`src/services/auth.service.ts`). Registration, OTP issue and verification (at most one OTP per e-mail, six digits, ten minutes), login, token refresh and OTP resend.

## Representation

- **Modules.** `Wrappers` holds `Option`/`Result`. `Text` holds decimal rendering, the colon separator and joining. The other modules are `Cart`, `Payment`, `Orders`, `Webhook`, `Authorization`, `OrderController` and `Auth`.
- **Classes for state.** State the source updates in place is a class:
  - `Cart.CartStore`: Redis hashes and TTLs as maps.
  - `Orders.Database`: one field per table.
  - `Webhook.EmailQueue`.
  - `Auth.AuthService`: users keyed by their unique e-mail, OTP rows as a sequence, and the mails sent.
- **The order transaction.** The database state is saved when the transaction opens and restored by `Rollback`.
- **Spec functions.** Pure operations and the intended effect of each state change are functions: `Added`, `Updated`, `Removed`, `Reserve`, `PlaceOrderSpec`, `Settle`, `Authorize`, `Reissued` and the rest. The methods are proved against them, and lemmas state what the functions promise.
- **Money** is integer minor units. The source's `DECIMAL(10, 2)` values are multiplied by 100. `Math.round(amount * 100)` is modelled exactly on reals (`Payment.Round`).
- **Opaque and external parts are parameters**, not code:
  - `crypto.createHmac(...).digest('hex')`;
  - bcrypt, with `hash` and `compare`;
  - jwt, with `sign` and `verify`;
  - the gateway's HTTP `post`;
  - the clock (`now`);
  - `Math.random` (a real in [0, 1));
  - the outcome of `transaction.commit()`.
- **`JSON.stringify` of a string** is modelled (`Payment.JsonStringify`): the text between double quotes, with `"` and `\` escaped, the five short control escapes, and `\u00xx` for the other control characters.
- **Sequelize validation** is modelled where the code depends on it. A `notNull` column left empty makes `create` throw `notNull Violation: <Model>.<column> cannot be null`. A failed `isEmail` validator throws `Validation error: Validation isEmail on email failed`. Several violations are joined with `,\n` (`Orders.MissingColumns`, `Auth.UserViolations`).
- **JavaScript truthiness** is modelled where the code relies on it:
  - an empty `variantId`, a zero `specificPrice`, an empty e-mail or raw body, and an id of 0 all count as absent;
  - `process.env.X || default` treats an empty variable as unset.

## Behaviour of the code worth knowing

- **The cart is cleared before the commit.** It is cleared inside the transaction body, and Redis is not transactional. A failed commit therefore rolls the tables back but loses the cart (`Orders.CreateOrder`, `CommitFailed` case).
- **The webhook checks nothing about the order's status.** Settlement sets PAID whatever the current status, even for a cancelled or delivered order. A duplicate delivery enqueues a second confirmation e-mail (`Webhook.SettlementOverridesAnyStatus`, `Webhook.DuplicateDeliveryRequeues`).
- **Only `addToCart` refreshes the 7-day TTL.** Updates and removals keep the old expiry.
- **The signature covers `JSON.stringify(rawBody)`, not the raw bytes.** Nothing in the code sets `rawBody`: `app.ts` installs a plain `express.json()`. The model assumes `rawBody` is the body's text. Then the digest covers its JSON-quoted form, which is never the body itself. For an HMAC without collisions, the digest of the raw body is refused (`Payment.RawBodyDigestRefused`).
- **Only the health and auth routers are mounted.** `src/routes/index.ts` mounts `/health` and `/auth` only. The cart, order and payment routers are never mounted, so as wired their requests, the webhook included, reach the 404 handler of `src/app.ts`. The model describes the handlers as written, as they would behave once mounted.
- **The gateway e-mail does not fall back to the address e-mail.** A signed-in caller whose user row is gone is billed as `guest@example.com`. The address e-mail is consulted only when there is no user id.
- **`updateOrderStatus` has no transition rules.** Any valid status may follow any other.
- **The stored user has no role and no store.** The `users` model has neither a `role` nor a `storeId` column, so the `role: 'CUSTOMER'` passed by `register` is not stored. `Auth.User` has neither field. `Authorization` takes both as the middleware reads them from `req.user`. For a user row of this model both are unset, so the tenant check never refuses and the role check always does (`Authorization.RoleUnsetIsRefused`).
- **Guests and users share the session namespace.** The session id is `String(user.id)` for a signed-in user and the raw `x-session-id` header for a guest. A guest who sends `x-session-id: 7` therefore uses user 7's cart (`OrderController.GuestHeaderNamesUserSession`).
- **A guest can read no order by id, not even their own.** In `getOrderById`, a request with no user has `undefined` as its own id. A guest order's `userId` reads back as `null`, and `null !== undefined`, so every order gets 403 (`OrderController.NonAdminSeesOnlyOwnOrders`).
- **Order creation does not check that a variant belongs to the line's product.** Nor does it reject products of other stores, or check who owns an address referenced by id.
- **Registration has no request-level validation.** No input schema is applied to `register`. A missing e-mail makes the lookup throw. A missing password makes bcrypt throw. Missing names and a malformed e-mail are caught only by the `users` model's own validation (`Auth.AuthService.Register`).

## Model

| member | source | states |
|---|---|---|
| `Text.NatToStringDigits` | src/controllers/order.controller.ts:6 | `id.toString()` yields a non-empty string of decimal digits that reads back as the same number |
| `Text.NatToStringInjective` | src/controllers/order.controller.ts:6 | two ids with the same decimal text are the same id |
| `Text.NatToStringLength` | src/services/auth.service.ts:120 | a number in [10^(k-1), 10^k) has exactly k digits |
| `Text.SixDigits` | src/services/auth.service.ts:120 | every number in 100000..999999 renders as exactly six digits |
| `Cart.CartKey` | src/services/cart.service.ts:4-6 | the Redis key of a session's cart: `cart:`, the store id, a colon, the session id |
| `Cart.ItemKey` | src/services/cart.service.ts:13 | the hash field of a line: `productId:variantId` when the variant id is truthy, else the bare product id |
| `Cart.CartKeyInjective` | src/services/cart.service.ts:4-6 | distinct (store, session) pairs never share a Redis key, given colon-free store ids |
| `Cart.ItemKeyInjective` | src/services/cart.service.ts:13 | an item key `productId:variantId` determines the product and the variant, given colon-free product ids |
| `Cart.Added` | src/services/cart.service.ts:13-21 | adding puts the item under its key; a new key stores the item itself; an existing key keeps its stored entry with the quantities summed; other keys are untouched |
| `Cart.AddMerges` | src/services/cart.service.ts:16-21 | two adds under one item key equal one add of the summed quantity |
| `Cart.AddTwoThenThree` | src/services/cart.service.ts:16-21 | adding 2 and then 3 of a new item leaves one entry with quantity 5 |
| `Cart.Updated` | src/services/cart.service.ts:38-48 | fails with "Item not in cart" exactly when the key is absent; a quantity of zero or less deletes the entry; otherwise only that entry's quantity changes |
| `Cart.Removed` | src/services/cart.service.ts:55 | the key is gone afterwards, whether or not it was present; every other entry is kept |
| `Cart.RemoveIdempotent` | src/services/cart.service.ts:42-43 | removing twice equals removing once, and an update to zero or less is a removal |
| `Cart.Stored` | src/services/cart.service.ts:43 | writing a hash back leaves other keys alone and drops the key when the hash became empty (Redis deletes empty hashes) |
| `Cart.EnumeratesEmpty` | src/services/order.service.ts:14-17 | the listed cart is empty exactly when the hash is empty |
| `Cart.CartStore.GetCart` | src/services/cart.service.ts:29-34 | returns every stored entry of the session's hash exactly once, in some order, and changes nothing |
| `Cart.CartStore.AddToCart` | src/services/cart.service.ts:8-27 | the session's hash becomes `Added(old hash, item)`, its TTL is reset to 604800 seconds, and the returned list enumerates the new hash |
| `Cart.CartStore.UpdateCartItem` | src/services/cart.service.ts:36-51 | an absent key fails with no change; otherwise the hash becomes `Updated(...)`, dropped with its TTL when empty, and the new contents are returned |
| `Cart.CartStore.RemoveFromCart` | src/services/cart.service.ts:53-57 | the hash becomes `Removed(...)`, dropped with its TTL when empty, and the new contents are returned |
| `Cart.CartStore.ClearCart` | src/services/cart.service.ts:59-62 | the session's hash and its TTL are deleted and nothing else changes |
| `Payment.SecretKey` | src/services/payment.service.ts:4 | the environment's key when set and non-empty, else `sk_test_mock` |
| `Payment.Round` | src/services/payment.service.ts:12 | `Math.round` lands within half a unit of its argument (halves round up) |
| `Payment.ToMinorUnits` | src/services/payment.service.ts:12 | the amount sent is within half a minor unit of `amount * 100` |
| `Payment.MinorUnitsRoundTrip` | src/services/payment.service.ts:12 | a total of m minor units, passed as m/100, is sent as exactly m |
| `Payment.InitializeParams` | src/services/payment.service.ts:8-18 | the request carries the e-mail, the metadata and the amount in minor units, and a callback URL exactly when one is given and non-empty |
| `Payment.InitializeTransaction` | src/services/payment.service.ts:20-31 | the gateway receives the e-mail, the metadata, the amount in minor units, and the callback URL only when it is given and non-empty; its reply is returned |
| `Payment.EscapeChar` | src/services/payment.service.ts:50 | a character is kept as it is exactly when it is neither a control character, nor `"`, nor `\`; every escape is non-empty |
| `Payment.JsonStringify` | src/services/payment.service.ts:50 | the stringified text begins and ends with a double quote and is at least two characters longer than the body |
| `Payment.PlainTextQuotedVerbatim` | src/services/payment.service.ts:50 | a body with no character that needs escaping is stringified as itself in double quotes |
| `Payment.VerifyWebhookSignature` | src/services/payment.service.ts:47-54 | a signature is accepted exactly when it is present and equals the hex HMAC under the secret key of the body's JSON-stringified text |
| `Payment.RawBodyDigestRefused` | src/services/payment.service.ts:47-54 | for a collision-free HMAC, the digest of the raw body is refused and the digest of the stringified body is accepted |
| `Orders.ParseStatus` | src/controllers/order.controller.ts:74 | a recognised name yields the status of that name |
| `Orders.ParseStatusAcceptsEveryName` | src/models/Order.ts:4-11 | every enum value is accepted under its own name |
| `Orders.UnitPrice` | src/services/order.service.ts:30-38 | the variant's specific price when it is set and non-zero, otherwise the product's base price |
| `Orders.ReserveLine` | src/services/order.service.ts:27-65 | one loop iteration: a missing product, then a missing named variant, then stock below the quantity (100 without a variant) aborts with that error; otherwise the variant's stock drops by the quantity, the total grows by price times quantity and the line is captured |
| `Orders.Reserve` | src/services/order.service.ts:26-66 | the loop over the cart lines in order, stopping at the first line that fails with its error |
| `Orders.ReserveCapturesLines` | src/services/order.service.ts:26-66 | a successful validation pass captures one line per cart entry in order, priced from the catalog as it stood at the start; the total is the sum of price times quantity; only stock counts change in the variant table |
| `Orders.ReserveStock` | src/services/order.service.ts:50-57 | each variant's stock drops by exactly the quantity the cart asks of it; every variant the cart names exists and never goes below zero |
| `Orders.ReserveSucceedsIff` | src/services/order.service.ts:26-52 | validation succeeds exactly when every line's product (and variant) exists and its quantity fits the stock left after the lines before it (100 for a line without a variant) |
| `Orders.LineError` | src/services/order.service.ts:28-51 | the error of a line that does not fit: product not found, else variant not found, else insufficient stock for the product's name |
| `Orders.ReserveFailsAtFirstUnfitLine` | src/services/order.service.ts:26-52 | when every earlier line fits, the first line that does not fit makes the reservation fail with that line's own error |
| `Orders.ReserveLedger` | src/services/order.service.ts:23-66 | a pass from an empty ledger holds exactly the catalog-priced lines and their amount |
| `Orders.MissingColumns` | src/models/Address.ts:41-60 | lists, in column order, the non-null columns among street, city, state, zip and country that the input leaves empty; empty exactly when all five are given |
| `Orders.ResolveAddress` | src/services/order.service.ts:69-75 | a truthy address id must name an existing row ("Address not found" otherwise); without one, an input missing a non-null column throws the `notNull` violations, and a complete one becomes a new row for the caller under a fresh id; a missing address object throws |
| `Orders.CustomerEmail` | src/services/order.service.ts:95-101 | a signed-in caller's e-mail (the placeholder if the row is gone); otherwise the address e-mail when non-empty; otherwise `guest@example.com` |
| `Orders.ItemsOf` | src/services/order.service.ts:87-92 | one order item per captured line, in order, under the order's id |
| `Orders.PlaceOrderSpec` | src/services/order.service.ts:21-112 | the transaction body as a value: reserve every line, then record the order over the reserved stock; the first error is returned |
| `Orders.RecordSpec` | src/services/order.service.ts:68-109 | once stock is reserved: resolve or create the address (its error aborts), then open the order |
| `Orders.OpenOrder` | src/services/order.service.ts:77-109 | the PENDING order under the next id with the reserved total, its items, the gateway initialised with the customer e-mail, total and metadata; a failed initialisation aborts, otherwise its reference is recorded |
| `Orders.PlacedOrder` | src/services/order.service.ts:21-116 | a placed order has a fresh id, status PENDING, the caller's store and user, and the cart's total at catalog prices; it has one item per line; the gateway is asked for exactly that total with the order and store as metadata, and its reference is recorded; stock drops by the cart's demand and never below zero; other orders are untouched |
| `Orders.FindOrder` | src/services/order.service.ts:149-150 | finds the order exactly when the id exists in that store |
| `Orders.NewestFirst` | src/services/order.service.ts:124-135 | lists exactly the orders matching the store (and user, when given), each once, newest first |
| `Orders.WithStatus` | src/services/order.service.ts:148-152 | "Order not found" exactly when the id is not in the store; otherwise only that order's status changes |
| `Orders.StatusUpdateIgnoresCurrentStatus` | src/services/order.service.ts:148-152 | any status can be set from any status |
| `Orders.Database.Rollback` | src/services/order.service.ts:118-121 | every table is restored to its state when the transaction opened |
| `Orders.Database.GetOrderById` | src/services/order.service.ts:138-146 | an order is returned exactly when the id exists and belongs to that store, and it is the stored row |
| `Orders.Database.GetOrders` | src/services/order.service.ts:124-136 | exactly the store's orders, or one user's, each once, newest first |
| `Orders.Database.UpdateOrderStatus` | src/services/order.service.ts:148-152 | the orders table becomes `WithStatus(...)`, or is unchanged with "Order not found"; no other table changes |
| `Orders.Database.ResolveAddressRow` | src/services/order.service.ts:69-75 | the address table and id counter change exactly as `ResolveAddress` says, including no change when a column is missing |
| `Orders.Database.CreateOrderRow` | src/services/order.service.ts:78-84 | the order is stored under a fresh id and the counter advances |
| `Orders.Database.SetPaymentReference` | src/services/order.service.ts:109 | the order's reference is set and the rest of the row and every other order are kept |
| `Orders.Database.CreateOrderItems` | src/services/order.service.ts:87-92 | the items table grows by exactly `ItemsOf(order id, lines)` |
| `Orders.ReserveCart` | src/services/order.service.ts:22-66 | the validation loop returns what `Reserve` computes and leaves the variant table as reserved |
| `Orders.PlaceOrder` | src/services/order.service.ts:21-112 | the transaction body leaves the tables as `PlaceOrderSpec` says and deletes the cart on success; on failure the cart is untouched |
| `Orders.RecordedOrder` | src/services/order.service.ts:68-112 | once stock is reserved: the order gets the next id, status PENDING and the reserved total; its items are the reserved lines; the gateway is asked for that total and its reference recorded; catalog and users are untouched |
| `Orders.RecordOrder` | src/services/order.service.ts:68-112 | address, order row, items, payment reference and cart clearing, as `RecordSpec` says |
| `Orders.OpenOrderRows` | src/services/order.service.ts:78-109 | order row, items, payment initialisation and reference, as `OpenOrder` says |
| `Orders.CreateOrder` | src/services/order.service.ts:7-122 | an empty cart gives "Cart is empty" with no change; any error restores every table and keeps the cart; success commits the placed order and deletes the cart; a failed commit restores the tables but the cart is already gone |
| `Webhook.LookupOf` | src/controllers/payment.controller.ts:39-44 | the order is looked up by a truthy `metadata.orderId`, otherwise by the payment reference |
| `Webhook.CoversIff` | src/controllers/payment.controller.ts:47 | `totalAmount <= amount / 100` holds exactly when the paid minor units reach the total |
| `Webhook.Found` | src/controllers/payment.controller.ts:39-44 | by id: the order exactly when that id exists; by reference: some order carrying that payment reference, or none when no order carries it |
| `Webhook.Settle` | src/controllers/payment.controller.ts:46-70 | a found order paid in full becomes PAID and a confirmation to the customer's e-mail is enqueued when one is present; otherwise orders and queue are unchanged |
| `Webhook.UnderpaymentChangesNothing` | src/controllers/payment.controller.ts:47-67 | a payment below the total changes no order and enqueues nothing |
| `Webhook.SettlementOverridesAnyStatus` | src/controllers/payment.controller.ts:46-49 | a covering payment sets PAID whatever the order's status was |
| `Webhook.DuplicateDeliveryRequeues` | src/controllers/payment.controller.ts:46-63 | redelivering the same paid event keeps the order PAID but enqueues the same confirmation a second time |
| `Webhook.EmailQueue.Add` | src/controllers/payment.controller.ts:54-62 | the job is appended to the queue |
| `Webhook.HandlePaystackWebhook` | src/controllers/payment.controller.ts:6-78 | a missing raw body or a bad signature gets 400 with no change; otherwise 200, and a `charge.success` event applies `Settle` to the order the lookup finds, while other events change nothing |
| `Webhook.CheckoutThenPay` | src/services/order.service.ts:26-109 | two units of a variant with stock 5 at 10.00 make a PENDING order of 20.00 leaving stock 3; paying 2000 minor units marks it PAID, 1999 leaves it PENDING, and a duplicate delivery keeps it PAID with a second e-mail |
| `Authorization.Authorize` | src/middlewares/authorize.middleware.ts:22-46 | 401 exactly when there is no user; SUPER_ADMIN always passes; a user of another store is refused as "not associated"; otherwise the request passes exactly when the role is required |
| `Authorization.TenantMismatch` | src/middlewares/authorize.middleware.ts:35 | the request has a store, the user has a non-empty store id, and the two differ |
| `Authorization.AuthorizeMonotone` | src/middlewares/authorize.middleware.ts:40-44 | requiring more roles never refuses a request that passed |
| `Authorization.RoleUnsetIsRefused` | src/middlewares/authorize.middleware.ts:39-44 | a user without a role is refused with 403, whatever roles are required |
| `Authorization.TenantCheckPrecedesRoleCheck` | src/middlewares/authorize.middleware.ts:35-44 | the store check comes before the role check, and is skipped when the user or the request has no store |
| `OrderController.GetSessionId` | src/controllers/order.controller.ts:5-9 | the signed-in user's id as text, otherwise the `x-session-id` header |
| `OrderController.SignedInSessionsDistinct` | src/controllers/order.controller.ts:6 | two signed-in users with the same session id are the same user |
| `OrderController.GuestHeaderNamesUserSession` | src/controllers/order.controller.ts:5-9 | a guest whose header is a user's id gets that user's session id |
| `OrderController.CheckoutRequest` | src/controllers/order.controller.ts:13-15 | 400 without a store, 400 without a truthy session id, otherwise the store and session passed on |
| `OrderController.CreateOrder` | src/controllers/order.controller.ts:11-23 | a refused request touches no table and no cart; an accepted one changes the tables and the cart exactly as `Orders.CreateOrder` does for that store, session, user and address; 201 carries the placed order (fresh id, PENDING, the caller's user, the cart's total at catalog prices, the gateway's reference), and every error is a 500 with its message |
| `OrderController.ErrorMessage` | src/controllers/order.controller.ts:20-22 | the `message` of each error the service throws, as its `throw` sites word it (order.service.ts:16, 28, 36, 51, 72) and as Sequelize words a `notNull` violation |
| `OrderController.OrdersQuery` | src/controllers/order.controller.ts:27-40 | 400 without a store; a store admin lists the whole store; another signed-in user lists only their own orders; a guest gets 401 |
| `OrderController.GetOrders` | src/controllers/order.controller.ts:25-47 | every listed order is in the caller's store, and is the caller's own unless the caller is a store admin; every such order is listed, newest first |
| `OrderController.OrderAccess` | src/controllers/order.controller.ts:53-63 | 404 when absent; store and super admins see any order; anyone else sees an order exactly when they are signed in and it is theirs, and gets 403 otherwise |
| `OrderController.NonAdminSeesOnlyOwnOrders` | src/controllers/order.controller.ts:57-61 | a user who is not an admin is shown an order exactly when it is theirs; a request without a user is refused every order |
| `OrderController.GetOrderById` | src/controllers/order.controller.ts:49-67 | 400 without a store, otherwise the access decision on the order of that id in that store |
| `OrderController.UpdateOrderStatus` | src/controllers/order.controller.ts:69-83 | 400 without a store or for an unknown status, with no change; otherwise the order's status is set, or 500 "Order not found" with no change |
| `Auth.SecretsFrom` | src/services/auth.service.ts:7-8 | each JWT secret is the environment's when set and non-empty, else its default |
| `Auth.IssueTokens` | src/services/auth.service.ts:135-149 | an access token over the id and e-mail signed with the access secret for 15m, and a refresh token over the id signed with the refresh secret for 7d |
| `Auth.OtpCode` | src/services/auth.service.ts:120 | the drawn code lies in 100000..999999 |
| `Auth.OtpText` | src/services/auth.service.ts:120 | the mailed code is six decimal digits whose value is the drawn code |
| `Auth.WithoutEmail` | src/services/auth.service.ts:124 | destroys every OTP row of the e-mail and keeps every other row |
| `Auth.WithoutEmailOnePerEmail` | src/services/auth.service.ts:124 | destroying rows keeps at most one OTP per e-mail |
| `Auth.Accepts` | src/services/auth.service.ts:40-46 | some OTP row has the e-mail, the code, and an expiry strictly after now |
| `Auth.Reissued` | src/services/auth.service.ts:122-130 | the e-mail's rows are destroyed and one new row is appended |
| `Auth.ReissuedAcceptsOnlyNewCode` | src/services/auth.service.ts:118-130 | after a reissue the e-mail accepts exactly the new code, and only before it expires; other e-mails are unaffected; at most one OTP per e-mail |
| `Auth.AuthService.constructor` | src/services/auth.service.ts:13 | no users, no OTPs, no mail |
| `Auth.AuthService.GenerateAndSendOtp` | src/services/auth.service.ts:118-133 | the e-mail's OTPs are replaced by one fresh six-digit code expiring ten minutes from now, and it is mailed |
| `Auth.UndefinedWhere` | src/services/auth.service.ts:18 | Sequelize's error for a `where` value that is `undefined`, naming the column |
| `Auth.UserViolations` | src/models/User.ts:35-53 | the `users` model refuses a missing first or last name and an e-mail failing `isEmail`, and accepts exactly when none of these occurs |
| `Auth.AuthService.CreateUser` | src/services/auth.service.ts:25-32 | a new unverified user is stored under the next id, every other user kept |
| `Auth.AuthService.Register` | src/services/auth.service.ts:15-37 | a missing e-mail throws from the lookup; a known e-mail gives "User already exists"; a missing password throws from bcrypt; a model validation failure throws the joined violations; all with no change; otherwise an unverified user with the bcrypt hash (10 rounds) of the password is stored under a fresh id and an OTP is issued and mailed |
| `Auth.AuthService.VerifyOtp` | src/services/auth.service.ts:39-67 | a missing e-mail, then a missing code, makes the lookup throw; no matching unexpired code gives "Invalid or expired OTP", a missing user "User not found", all with no change; otherwise the user becomes verified, the code is deleted (no replay) and tokens are returned |
| `Auth.AuthService.Login` | src/services/auth.service.ts:69-89 | a missing e-mail makes the lookup throw; succeeds exactly for a known, verified user with a matching password; "Account not verified" exactly for a known unverified user; bcrypt's "data and hash arguments required" exactly for a known verified user without a password; "Invalid credentials" exactly for an unknown e-mail or a wrong password |
| `Auth.AuthService.RefreshToken` | src/services/auth.service.ts:91-104 | new tokens exactly when the token verifies under the refresh secret and names an existing user; every failure is "Invalid refresh token" |
| `Auth.AuthService.ResendOtp` | src/services/auth.service.ts:106-116 | a missing e-mail makes the lookup throw; then "User not found", then "User already verified", all with no change; otherwise a fresh OTP is issued and mailed |

## Left out

- Redis, Sequelize, HTTP, the e-mail transport and the job queue's worker are not executed. They appear as maps, sequences and function parameters. `console` logging is dropped.
- Time does not pass in Redis. TTLs are recorded but never expire a cart.
- Database ids are UUIDs or auto-increment keys in the source. The model draws order and address ids from counters starting at 1, and user ids from a counter.
- `createdAt` ordering in `getOrders` is modelled as descending id, since ids are issued in creation order. The eager `include` of items, products, variants and addresses is not modelled.
- Concurrency is not modelled. Two checkouts racing for the same stock, row locks and Redis atomicity are out of scope.
- `PaymentService.verifyTransaction` is not modelled. It is an HTTP GET that nothing in this core calls.
- Column widths are not modelled. Money (`DECIMAL(10, 2)`) and stock and quantity (`INTEGER`) are unbounded integers, so a total or count past the column's range, which the database would refuse on write, is accepted by the model.
- Auth.AuthService.GenerateAndSendOtp: mailing cannot fail in the model. In the source a failed `emailService.sendOtp` throws "Failed to send email" after the OTP row exists, and within `register` after the user row exists too, so the caller sees an error while both rows stay.
- Floating-point arithmetic is not modelled. DECIMAL money is exact minor units. `Number(price) * quantity` is exact integer arithmetic. `Math.round` is exact rounding on reals.
- Dialect-dependent DECIMAL truthiness is not modelled. On PostgreSQL a DECIMAL reads back as a string, so a `specificPrice` of `"0.00"` would be truthy and override the base price. `Orders.UnitPrice` uses numeric truthiness, where 0 is absent.
- Orders.CreateOrder: the service's errors are modelled as `OrderError` values. The message of a gateway or commit exception comes from code not part of this model, so `OrderController.ErrorMessage` uses a fixed text for those two.
- Input validation schemas, the `authenticate` and `resolveTenant` middlewares, and the routes are not part of this model. The order router declares `POST /` without `authenticate`, so `req.user` would be absent there once mounted. The model takes `user` as an input.
- The cart's listing order is whatever Redis returns. `Cart.CartStore.GetCart` promises each entry exactly once and no particular order.
