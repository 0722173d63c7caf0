/** Order creation and administration, src/services/order.service.ts, over the
    tables it touches (src/models/Order.ts and its neighbours). The database is
    a class whose fields are the tables; the transaction of `createOrder` is
    modelled by saving the tables when it opens and restoring them on rollback. */
module Orders {
  import opened Wrappers
  import opened Cart
  import opened Payment

  /** src/models/Order.ts: the order status enum. */
  datatype OrderStatus = Pending | Paid | Processing | Shipped | Delivered | Cancelled

  function StatusName(s: OrderStatus): string {
    match s
    case Pending => "PENDING"
    case Paid => "PAID"
    case Processing => "PROCESSING"
    case Shipped => "SHIPPED"
    case Delivered => "DELIVERED"
    case Cancelled => "CANCELLED"
  }

  /** `Object.values(OrderStatus).includes(name)`, returning the status named. */
  function ParseStatus(name: string): (r: Option<OrderStatus>)
    ensures r.Some? ==> StatusName(r.value) == name
  {
    if name == "PENDING" then Some(Pending)
    else if name == "PAID" then Some(Paid)
    else if name == "PROCESSING" then Some(Processing)
    else if name == "SHIPPED" then Some(Shipped)
    else if name == "DELIVERED" then Some(Delivered)
    else if name == "CANCELLED" then Some(Cancelled)
    else None
  }

  /** Every status value is accepted under its own name, so together with the
      ensures of ParseStatus a name is accepted exactly when it names a status. */
  lemma ParseStatusAcceptsEveryName(s: OrderStatus)
    ensures ParseStatus(StatusName(s)) == Some(s)
  {
  }

  /** User ids are auto-increment keys, hence positive (and truthy). */
  type UserId = n: nat | n >= 1 witness 1

  /** Money is held in integer minor units (the source's DECIMAL(10, 2) times 100). */
  datatype Product = Product(name: string, basePrice: int)
  datatype Variant = Variant(productId: string, stockQuantity: int, specificPrice: Option<int>)
  /** A row of `addresses` (src/models/Address.ts). */
  datatype Address = Address(userId: Option<UserId>, street: string, city: string, state: string, zip: string,
                             country: string)
  /** The request's `address`: a reference to an existing row, or the fields
      of a new one, each possibly undefined. */
  datatype AddressInput = AddressInput(id: Option<nat>, email: Option<string>, street: Option<string>,
                                       city: Option<string>, state: Option<string>, zip: Option<string>,
                                       country: Option<string>)
  datatype Order = Order(storeId: string, userId: Option<UserId>, addressId: nat, status: OrderStatus,
                         totalAmount: int, paymentReference: Option<string>)
  datatype OrderItem = OrderItem(orderId: nat, productId: string, variantId: Option<string>, quantity: int, price: int)

  datatype OrderError =
    | EmptyCart
    | ProductNotFound(productId: string)
    | VariantNotFound(variantId: string)
    | InsufficientStock(productName: string)
    | AddressDataMissing   // `addressData.id` on an undefined address throws a TypeError
    | AddressNotFound
    | AddressInvalid(missing: seq<string>)   // Sequelize's notNull violations on `Address.create`
    | PaymentInitializationFailed
    | CommitFailed
    | OrderNotFound

  /** The stock assumed for a product line without a variant. */
  const UntrackedStock: int := 100
  const GuestEmail: string := "guest@example.com"

  /** The rows of every table that order creation reads or writes. */
  datatype Tables = Tables(
    products: map<string, Product>,
    variants: map<string, Variant>,
    users: map<UserId, string>,   // user id to e-mail
    addresses: map<nat, Address>,
    orders: map<nat, Order>,
    orderItems: seq<OrderItem>,
    nextAddressId: nat,
    nextOrderId: nat)

  /** Row ids are drawn from counters above every id in use. */
  ghost predicate ValidTables(t: Tables) {
    && (forall id :: id in t.addresses ==> id < t.nextAddressId)
    && (forall id :: id in t.orders ==> id < t.nextOrderId)
  }

  // ---------------------------------------------------------------------
  // Pricing and stock reservation, one cart line at a time

  /** A line's unit price: the variant's specific price when set (and, being
      a JavaScript number, non-zero), else the product's base price. */
  function UnitPrice(product: Product, variant: Option<Variant>): (price: int)
    ensures variant.Some? && variant.value.specificPrice.Some? && variant.value.specificPrice.value != 0
      ==> price == variant.value.specificPrice.value
    ensures variant.None? || variant.value.specificPrice.None? || variant.value.specificPrice.value == 0
      ==> price == product.basePrice
  {
    if variant.Some? && variant.value.specificPrice.Some? && variant.value.specificPrice.value != 0
    then variant.value.specificPrice.value
    else product.basePrice
  }

  /** The data captured for one order item (everything but its order id). */
  datatype LineData = LineData(productId: string, variantId: Option<string>, quantity: int, price: int)

  /** The state of the validation loop: the variant table as updated inside the
      transaction, the running total and the captured lines. */
  datatype Ledger = Ledger(variants: map<string, Variant>, total: int, lines: seq<LineData>)

  predicate Uses(e: CartEntry, variantId: string) {
    HasVariant(e.variantId) && e.variantId.value == variantId
  }

  /** One iteration of the loop: look up the product (and variant), check the
      stock, decrement a variant's stock, add to the total, capture the line. */
  function ReserveLine(products: map<string, Product>, st: Ledger, e: CartEntry): Result<Ledger, OrderError> {
    if e.productId !in products then Err(ProductNotFound(e.productId))
    else
      var product := products[e.productId];
      if HasVariant(e.variantId) then
        var vid := e.variantId.value;
        if vid !in st.variants then Err(VariantNotFound(vid))
        else
          var v := st.variants[vid];
          var price := UnitPrice(product, Some(v));
          if v.stockQuantity < e.quantity then Err(InsufficientStock(product.name))
          else Ok(Ledger(st.variants[vid := v.(stockQuantity := v.stockQuantity - e.quantity)],
                         st.total + price * e.quantity,
                         st.lines + [LineData(e.productId, e.variantId, e.quantity, price)]))
      else
        var price := UnitPrice(product, None);
        if UntrackedStock < e.quantity then Err(InsufficientStock(product.name))
        else Ok(Ledger(st.variants, st.total + price * e.quantity,
                       st.lines + [LineData(e.productId, e.variantId, e.quantity, price)]))
  }

  /** The whole loop: the first failing line aborts it. */
  function Reserve(products: map<string, Product>, st: Ledger, es: seq<CartEntry>): Result<Ledger, OrderError>
    decreases |es|
  {
    if es == [] then Ok(st)
    else match ReserveLine(products, st, es[0])
      case Err(e) => Err(e)
      case Ok(st') => Reserve(products, st', es[1..])
  }

  /** Sum of unit price times quantity over captured lines. */
  function Amount(lines: seq<LineData>): int
    decreases |lines|
  {
    if lines == [] then 0 else lines[0].price * lines[0].quantity + Amount(lines[1..])
  }

  /** The total quantity the entries ask of one variant. */
  function Demand(es: seq<CartEntry>, variantId: string): int
    decreases |es|
  {
    if es == [] then 0 else (if Uses(es[0], variantId) then es[0].quantity else 0) + Demand(es[1..], variantId)
  }

  predicate Touches(es: seq<CartEntry>, variantId: string) {
    exists k :: 0 <= k < |es| && Uses(es[k], variantId)
  }

  /** The price a line has in the catalog as it stood when the order began. */
  function CatalogPrice(products: map<string, Product>, variants: map<string, Variant>, e: CartEntry): int
    requires e.productId in products
  {
    UnitPrice(products[e.productId],
      if HasVariant(e.variantId) && e.variantId.value in variants then Some(variants[e.variantId.value]) else None)
  }

  /** Two variant tables that differ at most in stock counts. */
  predicate SamePrices(vs: map<string, Variant>, vs': map<string, Variant>) {
    && vs.Keys == vs'.Keys
    && forall vid :: vid in vs ==> vs'[vid] == vs[vid].(stockQuantity := vs'[vid].stockQuantity)
  }

  lemma {:induction false} NoTouchNoDemand(es: seq<CartEntry>, variantId: string)
    requires !Touches(es, variantId)
    ensures Demand(es, variantId) == 0
    decreases |es|
  {
    if es != [] {
      assert !Uses(es[0], variantId);
      assert !Touches(es[1..], variantId) by {
        forall k | 0 <= k < |es| - 1 ensures !Uses(es[1..][k], variantId) {
          assert es[1..][k] == es[k + 1];
        }
      }
      NoTouchNoDemand(es[1..], variantId);
    }
  }

  lemma TouchesRest(es: seq<CartEntry>, variantId: string)
    requires Touches(es, variantId) && !Uses(es[0], variantId)
    ensures Touches(es[1..], variantId)
  {
    var k :| 0 <= k < |es| && Uses(es[k], variantId);
    assert es[1..][k - 1] == es[k];
  }

  /** A successful reservation captures one line per cart entry, priced from
      the catalog as it stood at the start, and the total is their amount; only
      stock counts change in the variant table. */
  lemma {:induction false} ReserveCapturesLines(products: map<string, Product>, st: Ledger, es: seq<CartEntry>, r: Ledger)
    requires Reserve(products, st, es) == Ok(r)
    ensures SamePrices(st.variants, r.variants)
    ensures |r.lines| == |st.lines| + |es| && r.lines[..|st.lines|] == st.lines
    ensures forall k :: 0 <= k < |es| ==>
      && es[k].productId in products
      && r.lines[|st.lines| + k] == LineData(es[k].productId, es[k].variantId, es[k].quantity,
                                              CatalogPrice(products, st.variants, es[k]))
    ensures r.total == st.total + Amount(r.lines[|st.lines|..])
    decreases |es|
  {
    if es != [] {
      var st1 := ReserveLine(products, st, es[0]).value;
      ReserveCapturesLines(products, st1, es[1..], r);
      var n := |st.lines|;
      assert |st1.lines| == n + 1 && st1.lines[..n] == st.lines;
      assert SamePrices(st.variants, st1.variants);
      forall k | 0 <= k < |es|
        ensures es[k].productId in products
        ensures r.lines[n + k] == LineData(es[k].productId, es[k].variantId, es[k].quantity,
                                           CatalogPrice(products, st.variants, es[k]))
      {
        if k == 0 {
          assert r.lines[n] == r.lines[..n + 1][n] == st1.lines[n];
        } else {
          assert es[k] == es[1..][k - 1];
        }
      }
      assert r.lines[..n] == r.lines[..n + 1][..n];
      assert r.lines[n..][1..] == r.lines[n + 1..];
      assert r.lines[n..][0] == st1.lines[n];
    }
  }

  /** A successful reservation takes each variant's stock down by exactly the
      quantity the cart asks of it, never below zero for a variant the cart
      names: the quantities reserved from a variant never exceed its stock. */
  lemma {:induction false} ReserveStock(products: map<string, Product>, st: Ledger, es: seq<CartEntry>, r: Ledger)
    requires Reserve(products, st, es) == Ok(r)
    ensures r.variants.Keys == st.variants.Keys
    ensures forall vid :: Touches(es, vid) ==> vid in st.variants
    ensures forall vid :: vid in st.variants ==>
      r.variants[vid].stockQuantity == st.variants[vid].stockQuantity - Demand(es, vid)
    ensures forall vid :: vid in st.variants && Touches(es, vid) ==> r.variants[vid].stockQuantity >= 0
    ensures forall vid :: vid in st.variants && Touches(es, vid) ==> Demand(es, vid) <= st.variants[vid].stockQuantity
    decreases |es|
  {
    if es != [] {
      var st1 := ReserveLine(products, st, es[0]).value;
      var rest := es[1..];
      ReserveStock(products, st1, rest, r);
      assert st1.variants.Keys == st.variants.Keys;
      forall vid | Touches(es, vid) ensures vid in st.variants {
        var k :| 0 <= k < |es| && Uses(es[k], vid);
        if k > 0 {
          assert rest[k - 1] == es[k];
          assert Touches(rest, vid);
          assert vid in st1.variants;
        } else {
          assert HasVariant(es[0].variantId) && es[0].variantId.value == vid;
        }
      }
      forall vid | vid in st.variants && Touches(es, vid) ensures r.variants[vid].stockQuantity >= 0 {
        if Uses(es[0], vid) {
          if !Touches(rest, vid) {
            NoTouchNoDemand(rest, vid);
          }
        } else {
          TouchesRest(es, vid);
        }
      }
    }
  }

  /** Whether line k fits: its product exists, and its variant (if any)
      exists and still holds enough stock after the lines before it. */
  predicate LineFits(products: map<string, Product>, vs: map<string, Variant>, es: seq<CartEntry>, k: nat)
    requires k < |es|
  {
    && es[k].productId in products
    && if HasVariant(es[k].variantId)
       then es[k].variantId.value in vs
         && es[k].quantity <= vs[es[k].variantId.value].stockQuantity - Demand(es[..k], es[k].variantId.value)
       else es[k].quantity <= UntrackedStock
  }

  /** All or nothing: the reservation succeeds exactly when every line fits. */
  lemma {:induction false} ReserveSucceedsIff(products: map<string, Product>, st: Ledger, es: seq<CartEntry>)
    ensures Reserve(products, st, es).Ok? <==> forall k :: 0 <= k < |es| ==> LineFits(products, st.variants, es, k)
    decreases |es|
  {
    if es != [] {
      assert es[..0] == [];
      var step := ReserveLine(products, st, es[0]);
      if step.Err? {
        assert !LineFits(products, st.variants, es, 0);
      } else {
        var st1 := step.value;
        var rest := es[1..];
        ReserveSucceedsIff(products, st1, rest);
        forall k | 0 <= k < |rest|
          ensures LineFits(products, st1.variants, rest, k) <==> LineFits(products, st.variants, es, k + 1)
        {
          assert rest[k] == es[k + 1];
          assert es[..k + 1][1..] == rest[..k];
          assert es[..k + 1][0] == es[0];
        }
        if forall k :: 0 <= k < |es| ==> LineFits(products, st.variants, es, k) {
          forall k | 0 <= k < |rest| ensures LineFits(products, st1.variants, rest, k) {
            assert LineFits(products, st.variants, es, k + 1);
          }
        } else {
          var k :| 0 <= k < |es| && !LineFits(products, st.variants, es, k);
          assert k != 0;
          assert !LineFits(products, st1.variants, rest, k - 1);
        }
      }
    }
  }

  /** The error thrown at a line that does not fit: the product is missing,
      else the named variant is missing, else the stock is short. */
  function LineError(products: map<string, Product>, vs: map<string, Variant>, es: seq<CartEntry>, k: nat): OrderError
    requires k < |es| && !LineFits(products, vs, es, k)
  {
    if es[k].productId !in products then ProductNotFound(es[k].productId)
    else if HasVariant(es[k].variantId) && es[k].variantId.value !in vs then VariantNotFound(es[k].variantId.value)
    else InsufficientStock(products[es[k].productId].name)
  }

  /** The first line that does not fit aborts the reservation with its own
      error: "Product not found", "Variant not found" or "Insufficient
      stock for <product name>". */
  lemma {:induction false} ReserveFailsAtFirstUnfitLine(products: map<string, Product>, st: Ledger,
                                                       es: seq<CartEntry>, k: nat)
    requires k < |es|
    requires forall j :: 0 <= j < k ==> LineFits(products, st.variants, es, j)
    requires !LineFits(products, st.variants, es, k)
    ensures Reserve(products, st, es) == Err(LineError(products, st.variants, es, k))
    decreases |es|
  {
    assert es[..0] == [];
    if k > 0 {
      assert LineFits(products, st.variants, es, 0);
      var st1 := ReserveLine(products, st, es[0]).value;
      var rest := es[1..];
      assert st1.variants.Keys == st.variants.Keys;
      forall j | 0 <= j < |rest|
        ensures LineFits(products, st1.variants, rest, j) <==> LineFits(products, st.variants, es, j + 1)
      {
        assert rest[j] == es[j + 1];
        assert es[..j + 1][1..] == rest[..j];
        assert es[..j + 1][0] == es[0];
      }
      assert rest[k - 1] == es[k];
      ReserveFailsAtFirstUnfitLine(products, st1, rest, k - 1);
    }
  }

  // ---------------------------------------------------------------------
  // Address, e-mail and the order rows

  /** `addressData.id` is truthy: present and non-zero. */
  predicate NamesAddress(a: AddressInput) {
    a.id.Some? && a.id.value != 0
  }

  /** Every column of `addresses` declared `allowNull: false` is given. */
  predicate Complete(a: AddressInput) {
    a.street.Some? && a.city.Some? && a.state.Some? && a.zip.Some? && a.country.Some?
  }

  /** The non-null columns the input leaves undefined, in declaration order. */
  function MissingColumns(a: AddressInput): (cols: seq<string>)
    ensures cols == [] <==> Complete(a)
    ensures forall i :: 0 <= i < |cols| ==> cols[i] in ["street", "city", "state", "zip", "country"]
  {
    (if a.street.None? then ["street"] else []) + (if a.city.None? then ["city"] else [])
      + (if a.state.None? then ["state"] else []) + (if a.zip.None? then ["zip"] else [])
      + (if a.country.None? then ["country"] else [])
  }

  /** The row `Address.create({ ...addressData, userId })` stores. */
  function NewAddress(a: AddressInput, userId: Option<UserId>): Address
    requires Complete(a)
  {
    Address(userId, a.street.value, a.city.value, a.state.value, a.zip.value, a.country.value)
  }

  /** A truthy `addressData.id` names an existing row; otherwise a new row is
      created, owned by the caller, which Sequelize refuses when a non-null
      column is undefined. An undefined address makes the property access
      throw. */
  function ResolveAddress(addresses: map<nat, Address>, nextId: nat, input: Option<AddressInput>, userId: Option<UserId>)
    : (r: Result<(nat, map<nat, Address>, nat), OrderError>)
    ensures input.None? ==> r == Err(AddressDataMissing)
    ensures input.Some? && NamesAddress(input.value) && input.value.id.value in addresses ==>
      r == Ok((input.value.id.value, addresses, nextId))
    ensures input.Some? && NamesAddress(input.value) && input.value.id.value !in addresses ==>
      r == Err(AddressNotFound)
    ensures input.Some? && !NamesAddress(input.value) && !Complete(input.value) ==>
      r == Err(AddressInvalid(MissingColumns(input.value)))
    ensures input.Some? && !NamesAddress(input.value) && Complete(input.value) ==>
      r == Ok((nextId, addresses[nextId := NewAddress(input.value, userId)], nextId + 1))
  {
    match input
    case None => Err(AddressDataMissing)
    case Some(a) =>
      if NamesAddress(a) then
        if a.id.value in addresses then Ok((a.id.value, addresses, nextId)) else Err(AddressNotFound)
      else if !Complete(a) then Err(AddressInvalid(MissingColumns(a)))
      else Ok((nextId, addresses[nextId := NewAddress(a, userId)], nextId + 1))
  }

  /** The e-mail given to the gateway: a signed-in caller's own (or the
      placeholder when the user row is gone); a guest's address e-mail when
      non-empty; otherwise the placeholder. */
  function CustomerEmail(users: map<UserId, string>, userId: Option<UserId>, input: Option<AddressInput>): (email: string)
    ensures userId.Some? && userId.value in users ==> email == users[userId.value]
    ensures userId.Some? && userId.value !in users ==> email == GuestEmail
    ensures userId.None? && input.Some? && input.value.email.Some? && input.value.email.value != ""
      ==> email == input.value.email.value
    ensures userId.None? && !(input.Some? && input.value.email.Some? && input.value.email.value != "")
      ==> email == GuestEmail
  {
    if userId.Some? then
      if userId.value in users then users[userId.value] else GuestEmail
    else if input.Some? && input.value.email.Some? && input.value.email.value != "" then input.value.email.value
    else GuestEmail
  }

  function ItemOf(orderId: nat, line: LineData): OrderItem {
    OrderItem(orderId, line.productId, line.variantId, line.quantity, line.price)
  }

  /** One order item per captured line, in order. */
  function ItemsOf(orderId: nat, lines: seq<LineData>): (items: seq<OrderItem>)
    ensures |items| == |lines|
    ensures forall k :: 0 <= k < |lines| ==> items[k] == ItemOf(orderId, lines[k])
    decreases |lines|
  {
    if lines == [] then [] else ItemsOf(orderId, lines[..|lines| - 1]) + [ItemOf(orderId, lines[|lines| - 1])]
  }

  /** What `createOrder` returns. */
  datatype Placed = Placed(orderId: nat, order: Order, authorizationUrl: string, reference: string)

  /** The effect of the transaction's body on the tables, for a non-empty cart:
      reserve the stock and price the lines, then record the order. `post` is
      the gateway. */
  function PlaceOrderSpec(t: Tables, storeId: string, userId: Option<UserId>, lines: seq<CartEntry>,
                          input: Option<AddressInput>, post: InitParams -> GatewayReply): Result<(Tables, Placed), OrderError>
  {
    match Reserve(t.products, Ledger(t.variants, 0, []), lines)
    case Err(e) => Err(e)
    case Ok(led) => RecordSpec(t.(variants := led.variants), storeId, userId, led, input, post)
  }

  /** Steps 3 to 6 of the body, once the stock is reserved: resolve the
      address, create the PENDING order and its items, initialise the payment,
      record the reference. */
  function RecordSpec(t: Tables, storeId: string, userId: Option<UserId>, led: Ledger,
                      input: Option<AddressInput>, post: InitParams -> GatewayReply): Result<(Tables, Placed), OrderError>
  {
    match ResolveAddress(t.addresses, t.nextAddressId, input, userId)
    case Err(e) => Err(e)
    case Ok((addressId, addresses, nextAddressId)) =>
      OpenOrder(t.(addresses := addresses, nextAddressId := nextAddressId), storeId, userId, addressId, led, input, post)
  }

  /** Steps 4 to 6, once the address is known: the PENDING order and its
      items, the payment initialised for the ledger's total, the reference
      recorded on the order. */
  function OpenOrder(t: Tables, storeId: string, userId: Option<UserId>, addressId: nat, led: Ledger,
                     input: Option<AddressInput>, post: InitParams -> GatewayReply): Result<(Tables, Placed), OrderError>
  {
    var orderId := t.nextOrderId;
    var email := CustomerEmail(t.users, userId, input);
    match InitializeTransaction(post, email, led.total as real / 100.0, Metadata(Some(orderId), Some(storeId)), None)
    case InitFailed => Err(PaymentInitializationFailed)
    case Initialized(url, reference) =>
      var order := Order(storeId, userId, addressId, Pending, led.total, Some(reference));
      Ok((t.(orders := t.orders[orderId := order], orderItems := t.orderItems + ItemsOf(orderId, led.lines),
             nextOrderId := orderId + 1),
          Placed(orderId, order, url, reference)))
  }

  /** The cart lines priced from the catalog as it stood when the order began. */
  function CatalogLines(products: map<string, Product>, variants: map<string, Variant>, es: seq<CartEntry>): seq<LineData>
    requires forall k :: 0 <= k < |es| ==> es[k].productId in products
  {
    seq(|es|, k requires 0 <= k < |es| =>
      LineData(es[k].productId, es[k].variantId, es[k].quantity, CatalogPrice(products, variants, es[k])))
  }

  /** A placed order: a fresh id, status PENDING, the total of the cart at
      catalog prices, one item per cart line at that price, the gateway asked
      for exactly that total in minor units, its reference recorded, every
      variant's stock reduced by the cart's demand, other orders untouched. */
  lemma PlacedOrder(t: Tables, storeId: string, userId: Option<UserId>, lines: seq<CartEntry>,
                    input: Option<AddressInput>, post: InitParams -> GatewayReply, t': Tables, p: Placed)
    requires ValidTables(t)
    requires PlaceOrderSpec(t, storeId, userId, lines, input, post) == Ok((t', p))
    ensures ValidTables(t')
    ensures p.orderId == t.nextOrderId && p.orderId !in t.orders
    ensures t'.orders == t.orders[p.orderId := p.order]
    ensures p.order.status == Pending && p.order.storeId == storeId && p.order.userId == userId
    ensures p.order.paymentReference == Some(p.reference)
    ensures forall k :: 0 <= k < |lines| ==> lines[k].productId in t.products
    ensures p.order.totalAmount == Amount(CatalogLines(t.products, t.variants, lines))
    ensures t'.orderItems == t.orderItems + ItemsOf(p.orderId, CatalogLines(t.products, t.variants, lines))
    ensures post(InitParams(CustomerEmail(t.users, userId, input), p.order.totalAmount,
                            Metadata(Some(p.orderId), Some(storeId)), None))
            == Initialized(p.authorizationUrl, p.reference)
    ensures t'.variants.Keys == t.variants.Keys
    ensures forall vid :: vid in t.variants ==>
      t'.variants[vid].stockQuantity == t.variants[vid].stockQuantity - Demand(lines, vid)
    ensures forall vid :: vid in t.variants && Touches(lines, vid) ==> t'.variants[vid].stockQuantity >= 0
    ensures t'.products == t.products && t'.users == t.users
  {
    var led := Reserve(t.products, Ledger(t.variants, 0, []), lines).value;
    ReserveLedger(t.products, t.variants, lines, led);
    ReserveStock(t.products, Ledger(t.variants, 0, []), lines, led);
    RecordedOrder(t.(variants := led.variants), storeId, userId, led, input, post, t', p);
  }

  /** Once the stock is reserved: the order gets the next id, status PENDING
      and the ledger's total; its items are the ledger's lines; the gateway is
      asked for that total in minor units and its reference is recorded; the
      catalog and the users are untouched. */
  lemma RecordedOrder(t: Tables, storeId: string, userId: Option<UserId>, led: Ledger,
                      input: Option<AddressInput>, post: InitParams -> GatewayReply, t': Tables, p: Placed)
    requires ValidTables(t)
    requires RecordSpec(t, storeId, userId, led, input, post) == Ok((t', p))
    ensures ValidTables(t')
    ensures p.orderId == t.nextOrderId && p.orderId !in t.orders
    ensures t'.orders == t.orders[p.orderId := p.order]
    ensures p.order == Order(storeId, userId, p.order.addressId, Pending, led.total, Some(p.reference))
    ensures t'.orderItems == t.orderItems + ItemsOf(p.orderId, led.lines)
    ensures post(InitParams(CustomerEmail(t.users, userId, input), led.total,
                            Metadata(Some(p.orderId), Some(storeId)), None))
            == Initialized(p.authorizationUrl, p.reference)
    ensures t'.variants == t.variants && t'.products == t.products && t'.users == t.users
  {
    var email := CustomerEmail(t.users, userId, input);
    assert InitializeParams(email, led.total as real / 100.0, Metadata(Some(p.orderId), Some(storeId)), None)
        == InitParams(email, led.total, Metadata(Some(p.orderId), Some(storeId)), None) by {
      MinorUnitsRoundTrip(led.total);
    }
  }

  /** The ledger of a successful reservation from an empty start holds exactly
      the catalog-priced lines, and its total is their amount. */
  lemma ReserveLedger(products: map<string, Product>, variants: map<string, Variant>, es: seq<CartEntry>, led: Ledger)
    requires Reserve(products, Ledger(variants, 0, []), es) == Ok(led)
    ensures forall k :: 0 <= k < |es| ==> es[k].productId in products
    ensures led.lines == CatalogLines(products, variants, es)
    ensures led.total == Amount(CatalogLines(products, variants, es))
  {
    ReserveCapturesLines(products, Ledger(variants, 0, []), es, led);
    assert led.lines[0..] == led.lines;
  }

  // ---------------------------------------------------------------------
  // Queries and the administrative status update

  /** `Order.findOne({ where: { id, storeId } })`. */
  function FindOrder(orders: map<nat, Order>, id: nat, storeId: string): (r: Option<Order>)
    ensures r.Some? <==> id in orders && orders[id].storeId == storeId
    ensures r.Some? ==> r.value == orders[id]
  {
    if id in orders && orders[id].storeId == storeId then Some(orders[id]) else None
  }

  /** The `where` of `getOrders`: the store, and the user when one is given. */
  predicate Listed(o: Order, storeId: string, userId: Option<UserId>) {
    o.storeId == storeId && (userId.Some? ==> o.userId == userId)
  }

  /** `getOrders`: the orders with id below `bound` matching the filter,
      newest (highest id) first. */
  function NewestFirst(orders: map<nat, Order>, bound: nat, storeId: string, userId: Option<UserId>)
    : (r: seq<(nat, Order)>)
    ensures forall i :: 0 <= i < |r| ==>
      r[i].0 < bound && r[i].0 in orders && r[i].1 == orders[r[i].0] && Listed(r[i].1, storeId, userId)
    ensures forall i, j :: 0 <= i < j < |r| ==> r[i].0 > r[j].0
    ensures forall id :: id < bound && id in orders && Listed(orders[id], storeId, userId) ==> (id, orders[id]) in r
    decreases bound
  {
    if bound == 0 then []
    else
      var id := bound - 1;
      (if id in orders && Listed(orders[id], storeId, userId) then [(id, orders[id])] else [])
        + NewestFirst(orders, id, storeId, userId)
  }

  /** The orders table after `updateOrderStatus`: any status may follow any
      other; only an id missing from the store is refused. */
  function WithStatus(orders: map<nat, Order>, id: nat, storeId: string, status: OrderStatus)
    : (r: Result<map<nat, Order>, OrderError>)
    ensures r.Err? <==> FindOrder(orders, id, storeId).None?
    ensures r.Err? ==> r.error == OrderNotFound
    ensures r.Ok? ==> r.value == orders[id := orders[id].(status := status)]
  {
    match FindOrder(orders, id, storeId)
    case None => Err(OrderNotFound)
    case Some(o) => Ok(orders[id := o.(status := status)])
  }

  /** There are no transition rules: a delivered or cancelled order can be put
      back to PENDING, and any status can be set from any other. */
  lemma StatusUpdateIgnoresCurrentStatus(orders: map<nat, Order>, id: nat, storeId: string, from: OrderStatus, to: OrderStatus)
    requires id in orders && orders[id].storeId == storeId && orders[id].status == from
    ensures WithStatus(orders, id, storeId, to).Ok?
    ensures WithStatus(orders, id, storeId, to).value[id].status == to
  {
  }

  class Database {
    var products: map<string, Product>
    var variants: map<string, Variant>
    var users: map<UserId, string>
    var addresses: map<nat, Address>
    var orders: map<nat, Order>
    var orderItems: seq<OrderItem>
    var nextAddressId: nat
    var nextOrderId: nat

    function State(): Tables
      reads this
    {
      Tables(products, variants, users, addresses, orders, orderItems, nextAddressId, nextOrderId)
    }

    ghost predicate Valid()
      reads this
    {
      ValidTables(State())
    }

    constructor (products: map<string, Product>, variants: map<string, Variant>, users: map<UserId, string>)
      ensures Valid()
      ensures State() == Tables(products, variants, users, map[], map[], [], 1, 1)
    {
      this.products, this.variants, this.users := products, variants, users;
      addresses, orders, orderItems := map[], map[], [];
      nextAddressId, nextOrderId := 1, 1;
    }

    /** `transaction.rollback()`: every table back as it was when the
        transaction opened. */
    method Rollback(saved: Tables)
      modifies this
      ensures State() == saved
    {
      products, variants, users := saved.products, saved.variants, saved.users;
      addresses, orders, orderItems := saved.addresses, saved.orders, saved.orderItems;
      nextAddressId, nextOrderId := saved.nextAddressId, saved.nextOrderId;
    }

    /** `getOrderById`: the order with that id in that store, if any. */
    function GetOrderById(id: nat, storeId: string): (r: Option<Order>)
      reads this
      ensures r.Some? <==> id in orders && orders[id].storeId == storeId
      ensures r.Some? ==> r.value == orders[id]
    {
      FindOrder(orders, id, storeId)
    }

    /** `getOrders`: the store's orders, or one user's, newest first. */
    function GetOrders(storeId: string, userId: Option<UserId>): (r: seq<(nat, Order)>)
      reads this
      requires Valid()
      ensures forall i :: 0 <= i < |r| ==>
        r[i].0 in orders && r[i].1 == orders[r[i].0] && Listed(r[i].1, storeId, userId)
      ensures forall id :: id in orders && Listed(orders[id], storeId, userId) ==> (id, orders[id]) in r
      ensures forall i, j :: 0 <= i < j < |r| ==> r[i].0 > r[j].0
    {
      NewestFirst(orders, nextOrderId, storeId, userId)
    }

    method UpdateOrderStatus(id: nat, storeId: string, status: OrderStatus) returns (r: Result<Order, OrderError>)
      requires Valid()
      modifies this
      ensures Valid()
      ensures match WithStatus(old(orders), id, storeId, status)
        case Err(e) => r == Err(e) && orders == old(orders)
        case Ok(updated) => orders == updated && r == Ok(updated[id])
      ensures State() == old(State()).(orders := orders)
    {
      var found := FindOrder(orders, id, storeId);
      if found.None? {
        r := Err(OrderNotFound);
        return;
      }
      var order := found.value.(status := status);
      orders := orders[id := order];
      r := Ok(order);
    }

    /** Step 3 of `createOrder`: find the referenced address or create one. */
    method ResolveAddressRow(input: Option<AddressInput>, userId: Option<UserId>) returns (r: Result<nat, OrderError>)
      modifies this`addresses, this`nextAddressId
      ensures match ResolveAddress(old(addresses), old(nextAddressId), input, userId)
        case Err(e) => r == Err(e) && addresses == old(addresses) && nextAddressId == old(nextAddressId)
        case Ok((id, rows, next)) => r == Ok(id) && addresses == rows && nextAddressId == next
    {
      match input {
        case None =>
          r := Err(AddressDataMissing);
        case Some(a) =>
          if NamesAddress(a) {
            if a.id.value in addresses {
              r := Ok(a.id.value);
            } else {
              r := Err(AddressNotFound);
            }
          } else if !Complete(a) {
            r := Err(AddressInvalid(MissingColumns(a)));
          } else {
            var id := nextAddressId;
            addresses := addresses[id := NewAddress(a, userId)];
            nextAddressId := id + 1;
            r := Ok(id);
          }
      }
    }

    /** `Order.create`: a new row under a fresh id. */
    method CreateOrderRow(order: Order) returns (id: nat)
      modifies this`orders, this`nextOrderId
      ensures id == old(nextOrderId) && nextOrderId == id + 1
      ensures orders == old(orders)[id := order]
    {
      id := nextOrderId;
      orders := orders[id := order];
      nextOrderId := id + 1;
    }

    /** `order.update({ paymentReference })`: the row keeps everything else. */
    method SetPaymentReference(id: nat, reference: string)
      requires id in orders
      modifies this`orders
      ensures orders == old(orders)[id := old(orders)[id].(paymentReference := Some(reference))]
    {
      orders := orders[id := orders[id].(paymentReference := Some(reference))];
    }

    /** Step 5 of `createOrder`: one `OrderItem.create` per captured line. */
    method CreateOrderItems(orderId: nat, lines: seq<LineData>)
      modifies this`orderItems
      ensures orderItems == old(orderItems) + ItemsOf(orderId, lines)
    {
      var j := 0;
      while j < |lines|
        invariant 0 <= j <= |lines|
        invariant orderItems == old(orderItems) + ItemsOf(orderId, lines[..j])
      {
        assert lines[..j + 1][..j] == lines[..j];
        orderItems := orderItems + [ItemOf(orderId, lines[j])];
        j := j + 1;
      }
      assert lines[..j] == lines;
    }
  }

  // ---------------------------------------------------------------------
  // createOrder

  /** The validation loop of `createOrder`: for each cart line, look up the
      product and variant, check the stock, decrement the variant's stock,
      accumulate the total and capture the line. Only the variant table is
      written; on an error the caller rolls back. */
  method ReserveCart(db: Database, lines: seq<CartEntry>) returns (r: Result<Ledger, OrderError>)
    modifies db`variants
    ensures r == Reserve(db.products, Ledger(old(db.variants), 0, []), lines)
    ensures r.Ok? ==> db.variants == r.value.variants
  {
    var total := 0;
    var data: seq<LineData> := [];
    var i := 0;
    while i < |lines|
      invariant 0 <= i <= |lines|
      invariant Reserve(db.products, Ledger(old(db.variants), 0, []), lines)
             == Reserve(db.products, Ledger(db.variants, total, data), lines[i..])
    {
      var item := lines[i];
      assert lines[i..][0] == item && lines[i..][1..] == lines[i + 1..];
      if item.productId !in db.products {
        r := Err(ProductNotFound(item.productId));
        return;
      }
      var product := db.products[item.productId];
      var price := product.basePrice;
      var stock := 0;
      var variant: Option<Variant> := None;
      if HasVariant(item.variantId) {
        if item.variantId.value !in db.variants {
          r := Err(VariantNotFound(item.variantId.value));
          return;
        }
        variant := Some(db.variants[item.variantId.value]);
        stock := variant.value.stockQuantity;
        if variant.value.specificPrice.Some? && variant.value.specificPrice.value != 0 {
          price := variant.value.specificPrice.value;
        }
      } else {
        stock := UntrackedStock;
      }
      if stock < item.quantity {
        r := Err(InsufficientStock(product.name));
        return;
      }
      if variant.Some? {
        db.variants := db.variants[item.variantId.value := variant.value.(stockQuantity := stock - item.quantity)];
      }
      total := total + price * item.quantity;
      data := data + [LineData(item.productId, item.variantId, item.quantity, price)];
      i := i + 1;
    }
    assert lines[i..] == [];
    r := Ok(Ledger(db.variants, total, data));
  }

  /** The body of the `try` block: everything up to, not including, the commit.
      On success the tables are as PlaceOrderSpec says and the cart is gone;
      on failure the cart is untouched and the caller rolls the tables back. */
  method PlaceOrder(db: Database, carts: CartStore, storeId: string, userId: Option<UserId>, sessionId: string,
                    lines: seq<CartEntry>, input: Option<AddressInput>, post: InitParams -> GatewayReply)
    returns (r: Result<Placed, OrderError>)
    requires db.Valid() && carts.Valid()
    modifies db, carts
    ensures carts.Valid()
    ensures match PlaceOrderSpec(old(db.State()), storeId, userId, lines, input, post)
      case Err(e) => r == Err(e) && carts.carts == old(carts.carts) && carts.ttl == old(carts.ttl)
      case Ok((t', p)) =>
        && r == Ok(p) && db.State() == t'
        && carts.carts == old(carts.carts) - {CartKey(storeId, sessionId)}
        && carts.ttl == old(carts.ttl) - {CartKey(storeId, sessionId)}
  {
    // Validate stock and compute the total
    var reserved := ReserveCart(db, lines);
    if reserved.Err? {
      r := Err(reserved.error);
      return;
    }
    assert db.State() == old(db.State()).(variants := reserved.value.variants);
    r := RecordOrder(db, carts, storeId, userId, sessionId, reserved.value, input, post);
  }

  /** Steps 3 to 7 of the body: address, order row, items, payment, cart. */
  method RecordOrder(db: Database, carts: CartStore, storeId: string, userId: Option<UserId>, sessionId: string,
                     led: Ledger, input: Option<AddressInput>, post: InitParams -> GatewayReply)
    returns (r: Result<Placed, OrderError>)
    requires carts.Valid()
    modifies db`addresses, db`nextAddressId, db`orders, db`nextOrderId, db`orderItems, carts
    ensures carts.Valid()
    ensures match RecordSpec(old(db.State()), storeId, userId, led, input, post)
      case Err(e) => r == Err(e) && carts.carts == old(carts.carts) && carts.ttl == old(carts.ttl)
      case Ok((t', p)) =>
        && r == Ok(p) && db.State() == t'
        && carts.carts == old(carts.carts) - {CartKey(storeId, sessionId)}
        && carts.ttl == old(carts.ttl) - {CartKey(storeId, sessionId)}
  {
    // Resolve or create the address
    ghost var t := old(db.State());
    var address := db.ResolveAddressRow(input, userId);
    if address.Err? {
      r := Err(address.error);
      return;
    }
    assert ResolveAddress(t.addresses, t.nextAddressId, input, userId)
        == Ok((address.value, db.addresses, db.nextAddressId));
    assert db.State() == t.(addresses := db.addresses, nextAddressId := db.nextAddressId);
    r := OpenOrderRows(db, storeId, userId, address.value, led, input, post);
    if r.Ok? {
      // Clear the cart (before the commit)
      carts.ClearCart(storeId, sessionId);
    }
  }

  /** Steps 4 to 6 on the tables, as `OpenOrder` gives them. A failed
      initialisation leaves rows behind that the rollback removes. */
  method OpenOrderRows(db: Database, storeId: string, userId: Option<UserId>, addressId: nat, led: Ledger,
                       input: Option<AddressInput>, post: InitParams -> GatewayReply)
    returns (r: Result<Placed, OrderError>)
    modifies db`orders, db`nextOrderId, db`orderItems
    ensures match OpenOrder(old(db.State()), storeId, userId, addressId, led, input, post)
      case Err(e) => r == Err(e)
      case Ok((t', p)) => r == Ok(p) && db.State() == t'
  {
    ghost var t := old(db.State());
    // Create the order, PENDING, and its items
    var orderId := db.CreateOrderRow(Order(storeId, userId, addressId, Pending, led.total, None));
    db.CreateOrderItems(orderId, led.lines);
    // Initialise the payment and record its reference
    var email := CustomerEmail(db.users, userId, input);
    var reply := InitializeTransaction(post, email, led.total as real / 100.0, Metadata(Some(orderId), Some(storeId)), None);
    assert orderId == t.nextOrderId && email == CustomerEmail(t.users, userId, input);
    if reply.InitFailed? {
      r := Err(PaymentInitializationFailed);
      return;
    }
    db.SetPaymentReference(orderId, reply.reference);
    var order := Order(storeId, userId, addressId, Pending, led.total, Some(reply.reference));
    assert db.orders == t.orders[orderId := order];
    r := Ok(Placed(orderId, order, reply.authorizationUrl, reply.reference));
  }

  /** `createOrder`: read the cart, refuse an empty one, run the transaction
      body, commit; any error rolls every table back. The cart is cleared
      inside the body, before the commit, so a failing commit loses the cart.
      `commitSucceeds` stands for the outcome of `transaction.commit()`;
      `lines` are the cart's entries in the order Redis listed them. */
  method CreateOrder(db: Database, carts: CartStore, storeId: string, userId: Option<UserId>, sessionId: string,
                     input: Option<AddressInput>, post: InitParams -> GatewayReply, commitSucceeds: bool)
    returns (r: Result<Placed, OrderError>, ghost lines: seq<CartEntry>, ghost keys: seq<string>)
    requires db.Valid() && carts.Valid()
    modifies db, carts
    ensures db.Valid() && carts.Valid()
    ensures Enumerates(keys, lines, old(carts.Cart(CartKey(storeId, sessionId))))
    ensures lines == [] ==>
      r == Err(EmptyCart) && db.State() == old(db.State()) && carts.carts == old(carts.carts) && carts.ttl == old(carts.ttl)
    ensures lines != [] ==> match PlaceOrderSpec(old(db.State()), storeId, userId, lines, input, post)
      case Err(e) =>
        r == Err(e) && db.State() == old(db.State()) && carts.carts == old(carts.carts) && carts.ttl == old(carts.ttl)
      case Ok((t', p)) =>
        && carts.carts == old(carts.carts) - {CartKey(storeId, sessionId)}
        && carts.ttl == old(carts.ttl) - {CartKey(storeId, sessionId)}
        && (commitSucceeds ==> r == Ok(p) && db.State() == t')
        && (!commitSucceeds ==> r == Err(CommitFailed) && db.State() == old(db.State()))
  {
    var items;
    items, keys := carts.GetCart(storeId, sessionId);
    lines := items;
    if |items| == 0 {
      r := Err(EmptyCart);
      return;
    }
    var saved := db.State();
    r := PlaceOrder(db, carts, storeId, userId, sessionId, items, input, post);
    if r.Ok? && !commitSucceeds {
      r := Err(CommitFailed);
    }
    if r.Err? {
      db.Rollback(saved);
    } else {
      PlacedOrder(saved, storeId, userId, items, input, post, db.State(), r.value);
    }
  }
}
