/** The request handling of src/controllers/order.controller.ts: the session
    id, the guards in front of the order service, and the role and ownership
    checks on reads and on the status update. */
module OrderController {
  import opened Wrappers
  import opened Text
  import opened Cart
  import opened Payment
  import opened Orders
  import opened Authorization

  /** An HTTP answer: status code and message. */
  datatype Reply = Reply(code: int, message: string)

  /** `getSessionId`: the user's id as text, else the `x-session-id` header. */
  function GetSessionId(user: Option<AuthUser>, header: Option<string>): (sid: Option<string>)
    ensures user.Some? ==> sid == Some(NatToString(user.value.id))
    ensures user.None? ==> sid == header
  {
    if user.Some? then Some(NatToString(user.value.id)) else header
  }

  /** Different signed-in users never share a session id, so never a cart. */
  lemma SignedInSessionsDistinct(u: AuthUser, u': AuthUser, header: Option<string>, header': Option<string>)
    requires GetSessionId(Some(u), header) == GetSessionId(Some(u'), header')
    ensures u.id == u'.id
  {
    NatToStringInjective(u.id, u'.id);
  }

  /** The session namespace is shared: a guest who sends the header "7" gets
      the same session id, hence the same cart, as the signed-in user 7. */
  lemma GuestHeaderNamesUserSession(u: AuthUser, header: Option<string>)
    ensures GetSessionId(None, Some(NatToString(u.id))) == GetSessionId(Some(u), header)
  {
  }

  /** The guard of `createOrder`: a store context and a truthy session id. */
  function CheckoutRequest(store: Option<string>, user: Option<AuthUser>, header: Option<string>)
    : (r: Result<(string, string), Reply>)
    ensures store.None? ==> r == Err(Reply(400, "Store context missing"))
    ensures store.Some? && (GetSessionId(user, header).None? || GetSessionId(user, header).value == "") ==>
      r == Err(Reply(400, "Missing user context or x-session-id"))
    ensures r.Ok? ==> r.value == (store.value, GetSessionId(user, header).value) && r.value.1 != ""
  {
    if store.None? then Err(Reply(400, "Store context missing"))
    else
      var sid := GetSessionId(user, header);
      if sid.None? || sid.value == "" then Err(Reply(400, "Missing user context or x-session-id"))
      else Ok((store.value, sid.value))
  }

  /** `error.message` of each failure of the service, answered with 500. */
  function ErrorMessage(e: OrderError): string {
    match e
    case EmptyCart => "Cart is empty"
    case ProductNotFound(p) => "Product " + p + " not found"
    case VariantNotFound(v) => "Variant " + v + " not found"
    case InsufficientStock(name) => "Insufficient stock for product " + name
    case AddressDataMissing => "Cannot read properties of undefined (reading 'id')"
    case AddressNotFound => "Address not found"
    case AddressInvalid(missing) =>
      Join(seq(|missing|, i requires 0 <= i < |missing| => "notNull Violation: Address." + missing[i] + " cannot be null"), ",\n")
    case PaymentInitializationFailed => "Payment initialization failed"
    case CommitFailed => "Commit failed"
    case OrderNotFound => "Order not found"
  }

  /** `req.user?.id`. */
  function UserIdOf(user: Option<AuthUser>): (id: Option<UserId>)
    ensures id.Some? <==> user.Some?
    ensures user.Some? ==> id.value == user.value.id
  {
    if user.Some? then Some(user.value.id) else None
  }

  /** `createOrder`: the guard, then the service; 201 with the placed order
      on success, 500 with the error's message otherwise. A refused request
      reaches no table and no cart; an accepted one has exactly the effect of
      the service on the session's cart (`lines`, listed as `keys`). */
  method CreateOrder(db: Database, carts: CartStore, store: Option<string>, user: Option<AuthUser>, header: Option<string>,
                     address: Option<AddressInput>, post: InitParams -> GatewayReply, commitSucceeds: bool)
    returns (reply: Reply, result: Option<Placed>, ghost lines: seq<CartEntry>, ghost keys: seq<string>)
    requires db.Valid() && carts.Valid()
    modifies db, carts
    ensures db.Valid() && carts.Valid()
    ensures CheckoutRequest(store, user, header).Err? ==>
      && reply == CheckoutRequest(store, user, header).error && result.None?
      && db.State() == old(db.State()) && carts.carts == old(carts.carts) && carts.ttl == old(carts.ttl)
    ensures CheckoutRequest(store, user, header).Ok? ==>
      var storeId := CheckoutRequest(store, user, header).value.0;
      var key := CartKey(storeId, CheckoutRequest(store, user, header).value.1);
      && Enumerates(keys, lines, old(carts.Cart(key)))
      && (lines == [] ==>
            && reply == Reply(500, "Cart is empty") && result.None?
            && db.State() == old(db.State()) && carts.carts == old(carts.carts) && carts.ttl == old(carts.ttl))
      && (lines != [] ==> match PlaceOrderSpec(old(db.State()), storeId, UserIdOf(user), lines, address, post)
          case Err(e) =>
            && reply == Reply(500, ErrorMessage(e)) && result.None?
            && db.State() == old(db.State()) && carts.carts == old(carts.carts) && carts.ttl == old(carts.ttl)
          case Ok((t', p)) =>
            && carts.carts == old(carts.carts) - {key} && carts.ttl == old(carts.ttl) - {key}
            && (commitSucceeds ==> reply == Reply(201, "Created") && result == Some(p) && db.State() == t')
            && (!commitSucceeds ==>
                  reply == Reply(500, ErrorMessage(CommitFailed)) && result.None? && db.State() == old(db.State())))
    ensures result.Some? ==>
      && reply.code == 201
      && result.value.orderId !in old(db.orders)
      && db.orders == old(db.orders)[result.value.orderId := result.value.order]
      && result.value.order.status == Pending
      && result.value.order.userId == UserIdOf(user)
      && result.value.order.paymentReference == Some(result.value.reference)
      && (forall k :: 0 <= k < |lines| ==> lines[k].productId in old(db.products))
      && result.value.order.totalAmount == Amount(CatalogLines(old(db.products), old(db.variants), lines))
  {
    lines, keys := [], [];
    match CheckoutRequest(store, user, header) {
      case Err(rejection) =>
        return rejection, None, lines, keys;
      case Ok((storeId, sessionId)) =>
        ghost var t := db.State();
        var r;
        r, lines, keys := Orders.CreateOrder(db, carts, storeId, UserIdOf(user), sessionId, address, post, commitSucceeds);
        match r {
          case Ok(placed) =>
            PlacedOrder(t, storeId, UserIdOf(user), lines, address, post, db.State(), placed);
            return Reply(201, "Created"), Some(placed), lines, keys;
          case Err(e) =>
            return Reply(500, ErrorMessage(e)), None, lines, keys;
        }
    }
  }

  /** The guard of `getOrders`: which orders the caller may list. A store
      admin lists the whole store; any other signed-in user only its own
      orders; a guest is refused. */
  function OrdersQuery(store: Option<string>, user: Option<AuthUser>): (r: Result<(string, Option<UserId>), Reply>)
    ensures store.None? ==> r == Err(Reply(400, "Store context missing"))
    ensures store.Some? && user.Some? && user.value.role == Some(StoreAdmin) ==> r == Ok((store.value, None))
    ensures store.Some? && user.Some? && user.value.role != Some(StoreAdmin) ==> r == Ok((store.value, Some(user.value.id)))
    ensures store.Some? && user.None? ==> r == Err(Reply(401, "Unauthorized"))
  {
    if store.None? then Err(Reply(400, "Store context missing"))
    else if user.Some? && user.value.role == Some(StoreAdmin) then Ok((store.value, None))
    else if user.None? then Err(Reply(401, "Unauthorized"))
    else Ok((store.value, Some(user.value.id)))
  }

  /** `getOrders`: what a caller is shown. Everything listed is in the
      caller's store, and belongs to the caller unless the caller is a store
      admin. */
  function GetOrders(db: Database, store: Option<string>, user: Option<AuthUser>)
    : (r: Result<seq<(nat, Order)>, Reply>)
    reads db
    requires db.Valid()
    ensures r.Ok? ==> store.Some? && user.Some?
    ensures r.Ok? ==> forall i :: 0 <= i < |r.value| ==>
      r.value[i].1.storeId == store.value &&
      (user.value.role != Some(StoreAdmin) ==> r.value[i].1.userId == Some(user.value.id))
    ensures r.Ok? ==> forall id ::
      (id in db.orders && db.orders[id].storeId == store.value &&
       (user.value.role == Some(StoreAdmin) || db.orders[id].userId == Some(user.value.id)))
      ==> (id, db.orders[id]) in r.value
    ensures r.Ok? ==> forall i, j :: 0 <= i < j < |r.value| ==> r.value[i].0 > r.value[j].0
  {
    match OrdersQuery(store, user)
    case Err(reply) => Err(reply)
    case Ok((storeId, userId)) => Ok(db.GetOrders(storeId, userId))
  }

  /** A store admin or a super admin. */
  predicate IsAdmin(user: Option<AuthUser>) {
    user.Some? && (user.value.role == Some(StoreAdmin) || user.value.role == Some(SuperAdmin))
  }

  /** The ownership check of `getOrderById`, once the store is known:
      404 when absent; store and super admins see any order; anyone else only
      an order whose `userId` equals their own id. A guest's own id is
      `undefined` while a guest order's `userId` reads back as `null`, and
      `null !== undefined`, so a guest sees no order at all. */
  function OrderAccess(user: Option<AuthUser>, order: Option<Order>): (reply: Reply)
    ensures order.None? ==> reply == Reply(404, "Order not found")
    ensures order.Some? && IsAdmin(user) ==> reply.code == 200
    ensures order.Some? && !IsAdmin(user) ==>
      (reply.code == 200 <==> user.Some? && order.value.userId == Some(user.value.id))
    ensures reply.code == 200 || reply == Reply(403, "Access denied") || reply == Reply(404, "Order not found")
  {
    if order.None? then Reply(404, "Order not found")
    else if IsAdmin(user) then Reply(200, "OK")
    else if user.None? || order.value.userId != Some(user.value.id) then Reply(403, "Access denied")
    else Reply(200, "OK")
  }

  /** A user who is not an admin (a customer, or a user row without a role)
      sees exactly their own orders, and a request without a user is refused
      every order, its own guest orders included. */
  lemma NonAdminSeesOnlyOwnOrders(u: AuthUser, o: Order)
    requires u.role != Some(StoreAdmin) && u.role != Some(SuperAdmin)
    ensures OrderAccess(Some(u), Some(o)).code == 200 <==> o.userId == Some(u.id)
    ensures OrderAccess(None, Some(o)) == Reply(403, "Access denied")
  {
  }

  /** `getOrderById`. */
  function GetOrderById(db: Database, store: Option<string>, user: Option<AuthUser>, id: nat): (reply: Reply)
    reads db
    ensures store.None? ==> reply == Reply(400, "Store context missing")
    ensures store.Some? ==> reply == OrderAccess(user, db.GetOrderById(id, store.value))
  {
    if store.None? then Reply(400, "Store context missing")
    else OrderAccess(user, db.GetOrderById(id, store.value))
  }

  /** `updateOrderStatus`: no store context gives 400, a name outside the
      enum gives 400 before the order is touched, a missing order gives 500
      "Order not found"; otherwise the status is set, whatever it was. */
  method UpdateOrderStatus(db: Database, store: Option<string>, id: nat, statusName: string)
    returns (reply: Reply, updated: Option<Order>)
    requires db.Valid()
    modifies db
    ensures db.Valid()
    ensures store.None? ==> reply == Reply(400, "Store context missing") && db.State() == old(db.State())
    ensures store.Some? && ParseStatus(statusName).None? ==>
      reply == Reply(400, "Invalid status") && db.State() == old(db.State())
    ensures store.Some? && ParseStatus(statusName).Some? ==>
      match WithStatus(old(db.orders), id, store.value, ParseStatus(statusName).value)
      case Err(_) => reply == Reply(500, "Order not found") && db.State() == old(db.State())
      case Ok(orders) => reply.code == 200 && db.State() == old(db.State()).(orders := orders)
                         && updated == Some(orders[id])
  {
    updated := None;
    if store.None? {
      return Reply(400, "Store context missing"), updated;
    }
    var status := ParseStatus(statusName);
    if status.None? {
      return Reply(400, "Invalid status"), updated;
    }
    var r := db.UpdateOrderStatus(id, store.value, status.value);
    match r {
      case Err(e) =>
        reply := Reply(500, ErrorMessage(e));
      case Ok(order) =>
        reply, updated := Reply(200, "OK"), Some(order);
    }
  }
}
