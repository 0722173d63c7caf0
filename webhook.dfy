/** The Paystack webhook of src/controllers/payment.controller.ts: guards on
    the raw body and the signature, a switch on the event name, the order
    lookup, the amount reconciliation, the PAID update and the confirmation
    e-mail job. */
module Webhook {
  import opened Wrappers
  import opened Payment
  import opened Orders
  import opened Cart

  datatype Customer = Customer(email: Option<string>)
  /** `event.data` of a charge event; `amount` is in minor units. */
  datatype ChargeData = ChargeData(reference: string, amount: int, metadata: Option<Metadata>, customer: Option<Customer>)
  /** The parsed body: the event name and its data. */
  datatype Event = Event(name: string, data: ChargeData)

  /** The job enqueued as 'order-confirmation'. */
  datatype EmailJob = OrderConfirmation(to: string, orderId: nat, totalAmount: int)

  /** The HTTP answer: a status code and a body. */
  datatype Response = Response(code: int, body: string)

  const ChargeSuccess: string := "charge.success"

  /** How the handler finds the order. */
  datatype Lookup = ByOrderId(id: nat) | ByReference(reference: string)

  /** `metadata.orderId` is truthy: present and non-zero. */
  predicate HasOrderId(m: Option<Metadata>) {
    m.Some? && m.value.orderId.Some? && m.value.orderId.value != 0
  }

  /** By `metadata.orderId` when truthy, else by the payment reference. */
  function LookupOf(data: ChargeData): (l: Lookup)
    ensures HasOrderId(data.metadata) ==> l == ByOrderId(data.metadata.value.orderId.value)
    ensures !HasOrderId(data.metadata) ==> l == ByReference(data.reference)
  {
    if HasOrderId(data.metadata) then ByOrderId(data.metadata.value.orderId.value)
    else ByReference(data.reference)
  }

  /** `target` is an order the lookup can return: the row with that key, or
      any row carrying that payment reference (`findOne` picks one); None only
      when there is no such row. */
  ghost predicate Found(orders: map<nat, Order>, l: Lookup, target: Option<nat>) {
    match l
    case ByOrderId(id) => target == (if id in orders then Some(id) else None)
    case ByReference(reference) =>
      if target.Some? then target.value in orders && orders[target.value].paymentReference == Some(reference)
      else forall id :: id in orders ==> orders[id].paymentReference != Some(reference)
  }

  /** `order.totalAmount <= data.amount / 100`, both sides in major units. */
  predicate Covers(totalAmount: int, paidAmount: int) {
    (totalAmount as real) / 100.0 <= (paidAmount as real) / 100.0
  }

  /** In minor units the comparison is plain: the payment covers the order
      exactly when it is at least the total. */
  lemma CoversIff(totalAmount: int, paidAmount: int)
    ensures Covers(totalAmount, paidAmount) <==> totalAmount <= paidAmount
  {
  }

  predicate HasEmail(c: Option<Customer>) {
    c.Some? && c.value.email.Some? && c.value.email.value != ""
  }

  /** The effect of a `charge.success` event on the orders and the job queue,
      once the order (if any) is found: a covering payment sets PAID whatever
      the current status, and enqueues a confirmation when the customer e-mail
      is present; otherwise nothing changes. */
  function Settle(orders: map<nat, Order>, jobs: seq<EmailJob>, target: Option<nat>, data: ChargeData)
    : (r: (map<nat, Order>, seq<EmailJob>))
    requires target.Some? ==> target.value in orders
    ensures target.None? || !Covers(orders[target.value].totalAmount, data.amount) ==> r == (orders, jobs)
    ensures target.Some? && Covers(orders[target.value].totalAmount, data.amount) ==>
      && r.0 == orders[target.value := orders[target.value].(status := Paid)]
      && r.1 == jobs + (if HasEmail(data.customer)
                        then [OrderConfirmation(data.customer.value.email.value, target.value, orders[target.value].totalAmount)]
                        else [])
  {
    if target.None? then (orders, jobs)
    else
      var order := orders[target.value];
      if Covers(order.totalAmount, data.amount) then
        (orders[target.value := order.(status := Paid)],
         jobs + if HasEmail(data.customer)
                then [OrderConfirmation(data.customer.value.email.value, target.value, order.totalAmount)]
                else [])
      else (orders, jobs)
  }

  /** A payment below the order total leaves every order as it was. */
  lemma UnderpaymentChangesNothing(orders: map<nat, Order>, jobs: seq<EmailJob>, id: nat, data: ChargeData)
    requires id in orders && data.amount < orders[id].totalAmount
    ensures Settle(orders, jobs, Some(id), data) == (orders, jobs)
  {
    CoversIff(orders[id].totalAmount, data.amount);
  }

  /** Settlement does not look at the current status: a CANCELLED or DELIVERED
      order that receives a covering payment becomes PAID again. */
  lemma SettlementOverridesAnyStatus(orders: map<nat, Order>, jobs: seq<EmailJob>, id: nat, data: ChargeData)
    requires id in orders && orders[id].totalAmount <= data.amount
    ensures Settle(orders, jobs, Some(id), data).0[id] == orders[id].(status := Paid)
  {
    CoversIff(orders[id].totalAmount, data.amount);
  }

  /** A duplicate delivery of the same event leaves the order PAID as the
      first did, but enqueues a second confirmation e-mail. */
  lemma DuplicateDeliveryRequeues(orders: map<nat, Order>, jobs: seq<EmailJob>, id: nat, data: ChargeData)
    requires id in orders && orders[id].totalAmount <= data.amount && HasEmail(data.customer)
    ensures var once := Settle(orders, jobs, Some(id), data);
      var twice := Settle(once.0, once.1, Some(id), data);
      && twice.0 == once.0
      && |twice.1| == |jobs| + 2
      && twice.1[|jobs|] == twice.1[|jobs| + 1]
  {
    CoversIff(orders[id].totalAmount, data.amount);
  }

  class EmailQueue {
    var jobs: seq<EmailJob>

    constructor ()
      ensures jobs == []
    {
      jobs := [];
    }

    method Add(job: EmailJob)
      modifies this
      ensures jobs == old(jobs) + [job]
    {
      jobs := jobs + [job];
    }
  }

  /** `handlePaystackWebhook`. The signature is checked with `hmacHex`
      (HMAC-SHA512 in hex); `rawBody` is the request's raw body as text;
      `target` is the order the lookup returned. */
  method HandlePaystackWebhook(db: Database, queue: EmailQueue, hmacHex: (string, string) -> string,
                               secretKey: string,
                               signature: Option<string>, rawBody: Option<string>, event: Event)
    returns (res: Response, ghost target: Option<nat>)
    requires db.Valid()
    modifies db`orders, queue
    ensures db.Valid()
    ensures rawBody.None? || rawBody.value == "" ==>
      res == Response(400, "Raw body missing") && db.orders == old(db.orders) && queue.jobs == old(queue.jobs)
    ensures rawBody.Some? && rawBody.value != "" && !VerifyWebhookSignature(hmacHex, secretKey, signature, rawBody.value) ==>
      res == Response(400, "Invalid signature") && db.orders == old(db.orders) && queue.jobs == old(queue.jobs)
    ensures rawBody.Some? && rawBody.value != "" && VerifyWebhookSignature(hmacHex, secretKey, signature, rawBody.value) ==>
      && res == Response(200, "OK")
      && (event.name != ChargeSuccess ==> db.orders == old(db.orders) && queue.jobs == old(queue.jobs))
      && (event.name == ChargeSuccess ==>
            && Found(old(db.orders), LookupOf(event.data), target)
            && (target.Some? ==> target.value in old(db.orders))
            && (db.orders, queue.jobs) == Settle(old(db.orders), old(queue.jobs), target, event.data))
  {
    target := None;
    if rawBody.None? || rawBody.value == "" {
      return Response(400, "Raw body missing"), target;
    }
    if !VerifyWebhookSignature(hmacHex, secretKey, signature, rawBody.value) {
      return Response(400, "Invalid signature"), target;
    }
    if event.name == ChargeSuccess {
      var data := event.data;
      var found: Option<nat> := None;
      match LookupOf(data) {
        case ByOrderId(id) =>
          if id in db.orders {
            found := Some(id);
          }
        case ByReference(reference) =>
          if exists id :: id in db.orders && db.orders[id].paymentReference == Some(reference) {
            var id :| id in db.orders && db.orders[id].paymentReference == Some(reference);
            found := Some(id);
          }
      }
      target := found;
      ghost var orders0, jobs0 := db.orders, queue.jobs;
      if found.Some? {
        var order := db.orders[found.value];
        if Covers(order.totalAmount, data.amount) {
          db.orders := db.orders[found.value := order.(status := Paid)];
          if HasEmail(data.customer) {
            queue.Add(OrderConfirmation(data.customer.value.email.value, found.value, order.totalAmount));
          } else {
            assert jobs0 + [] == jobs0;
          }
        }
        // else: the mismatch is only logged
      }
      // else: "order not found" is only logged
      assert (db.orders, queue.jobs) == Settle(orders0, jobs0, target, data);
    }
    // any other event name is only logged
    res := Response(200, "OK");
  }

  /** Checkout then payment: two units of variant V1 (stock 5, price 10.00)
      make a PENDING order of 20.00 that leaves V1 with 3; a webhook paying
      2000 minor units for it marks it PAID, one paying 1999 leaves it PENDING,
      and a second delivery of the paying event keeps it PAID but enqueues a
      second confirmation. */
  lemma CheckoutThenPay(post: InitParams -> GatewayReply)
    requires forall p :: post(p) == Initialized("https://checkout.example/abc", "ref-1")
    ensures var t := Tables(map["P1" := Product("Widget", 1000)], map["V1" := Variant("P1", 5, Some(1000))],
                            map[], map[], map[], [], 1, 1);
      var placed := PlaceOrderSpec(t, "S1", None, [CartEntry("P1", Some("V1"), 2)],
                                   Some(AddressInput(None, Some("guest@shop.test"), Some("1 Main St"), Some("Lagos"), Some("LA"),
                                                 Some("100001"), Some("NG"))), post);
      && placed.Ok?
      && var (t', p) := placed.value;
      && p.orderId == 1 && p.order.totalAmount == 2000 && p.order.status == Pending
      && t'.variants["V1"].stockQuantity == 3
      && var paid := ChargeData("ref-1", 2000, Some(Metadata(Some(1), Some("S1"))), Some(Customer(Some("guest@shop.test"))));
      && var once := Settle(t'.orders, [], Some(1), paid);
      && once.0[1].status == Paid
      && once.1 == [OrderConfirmation("guest@shop.test", 1, 2000)]
      && Settle(t'.orders, [], Some(1), paid.(amount := 1999)).0[1].status == Pending
      && var twice := Settle(once.0, once.1, Some(1), paid);
      && twice.0[1].status == Paid && |twice.1| == 2
  {
    var t := Tables(map["P1" := Product("Widget", 1000)], map["V1" := Variant("P1", 5, Some(1000))],
                    map[], map[], map[], [], 1, 1);
    var lines := [CartEntry("P1", Some("V1"), 2)];
    var input := Some(AddressInput(None, Some("guest@shop.test"), Some("1 Main St"), Some("Lagos"), Some("LA"),
                                                 Some("100001"), Some("NG")));
    var led := Ledger(map["V1" := Variant("P1", 3, Some(1000))], 2000, [LineData("P1", Some("V1"), 2, 1000)]);
    assert HasVariant(Some("V1"));
    assert t.variants["V1" := Variant("P1", 3, Some(1000))] == led.variants;
    assert [] + [LineData("P1", Some("V1"), 2, 1000)] == led.lines;
    assert ReserveLine(t.products, Ledger(t.variants, 0, []), lines[0]) == Ok(led);
    assert Reserve(t.products, Ledger(t.variants, 0, []), lines) == Ok(led);
    var t1 := t.(variants := led.variants);
    assert !NamesAddress(input.value) && Complete(input.value);
    var (addressId, addresses, nextAddressId) := ResolveAddress(t1.addresses, t1.nextAddressId, input, None).value;
    var t2 := t1.(addresses := addresses, nextAddressId := nextAddressId);
    assert PlaceOrderSpec(t, "S1", None, lines, input, post) == OpenOrder(t2, "S1", None, addressId, led, input, post);
  }
}

