/** The orders endpoint (`/api/orders`): looking up an order or a customer's orders in a fixed
    mock list, and the shaping of a newly placed order. Nothing is ever stored. */
module Orders {
  import opened Wrappers
  import opened Js
  import opened Http
  import Seqs
  import Text

  /** The fields of an order that the handlers look at or create. Instants are milliseconds. */
  datatype Order = Order(
    id: string, customerId: string, status: string, productName: string, style: string,
    color: Option<string>, material: Option<string>, occasion: Option<string>,
    timeline: Option<string>, progress: nat, createdAt: int, estimatedCompletion: int)

  /** The fields of a POST body; `None` is a field the body leaves out. */
  datatype OrderRequest = OrderRequest(
    customerId: Option<string>, productName: Option<string>, style: Option<string>,
    color: Option<string>, material: Option<string>, occasion: Option<string>,
    timeline: Option<string>)

  datatype Body =
    | Error(error: string)
    | Found(order: Order)
    | CustomerOrders(orders: seq<Order>, total: nat)
    | Created(order: Order, message: string)

  const DayMs := 24 * 60 * 60 * 1000
  const LeadTimeDays := 90

  function IdOf(o: Order): string { o.id }

  // ---------------------------------------------------------------- GET

  /** `store.filter(o => o.customerId === customerId)` */
  function OrdersOf(store: seq<Order>, customerId: string): (r: seq<Order>)
    ensures forall k :: 0 <= k < |r| ==> r[k].customerId == customerId && r[k] in store
    ensures forall k :: 0 <= k < |store| && store[k].customerId == customerId ==> store[k] in r
    ensures multiset(r) <= multiset(store)
  {
    Seqs.Filter(store, (o: Order) => o.customerId == customerId)
  }

  /** `GET /[orderId]` or `GET ?customerId=` over the mock list `store`: an order id, when given,
      decides alone; otherwise the customer's orders; otherwise 400. */
  function Get(store: seq<Order>, orderId: Option<string>, customerId: Option<string>): (r: Response<Body>)
    ensures Present(orderId) ==>
              var i := Seqs.FindIndex(store, IdOf, orderId.value);
              (i == -1 ==> r == Response(NOT_FOUND, Error("Order not found")))
              && (i >= 0 ==> r == Response(OK, Found(store[i])))
    ensures !Present(orderId) && Present(customerId) ==>
              r.status == OK && r.body.CustomerOrders?
              && r.body.orders == OrdersOf(store, customerId.value) && r.body.total == |r.body.orders|
    ensures !Present(orderId) && !Present(customerId) ==>
              r == Response(BAD_REQUEST, Error("Customer ID required"))
  {
    if Present(orderId) then
      var i := Seqs.FindIndex(store, IdOf, orderId.value);
      if i == -1 then Response(NOT_FOUND, Error("Order not found")) else Response(OK, Found(store[i]))
    else if Present(customerId) then
      var mine := OrdersOf(store, customerId.value);
      Response(OK, CustomerOrders(mine, |mine|))
    else Response(BAD_REQUEST, Error("Customer ID required"))
  }

  /** With an order id the customer id is ignored. */
  lemma OrderIdTakesPrecedence(store: seq<Order>, orderId: string, c1: Option<string>, c2: Option<string>)
    requires orderId != ""
    ensures Get(store, Some(orderId), c1) == Get(store, Some(orderId), c2)
  {
  }

  /** A lookup by id finds an order exactly when the list holds one with that id. */
  lemma FoundIffListed(store: seq<Order>, orderId: string)
    requires orderId != ""
    ensures Get(store, Some(orderId), None).status == OK <==>
              exists k :: 0 <= k < |store| && store[k].id == orderId
    ensures Get(store, Some(orderId), None).status == OK ==>
              Get(store, Some(orderId), None).body.order.id == orderId
  {
  }

  // ---------------------------------------------------------------- POST

  /** `Math.floor(Math.random() * 1000).toString().padStart(3, '0')` for the draw `roll`. */
  function Serial(roll: nat): (r: string)
    requires roll < 1000
    ensures |r| == 3
    ensures forall k :: 0 <= k < 3 ==> Text.IsDigit(r[k])
    ensures Text.ParseNat(r) == roll
  {
    Text.ParseNatToString(roll);
    Text.ParseNatZeroPadded(Text.NatToString(roll), 3);
    assert |Text.NatToString(roll)| <= 3 by { NatToStringShort(roll); }
    Text.PadStart(Text.NatToString(roll), 3, '0')
  }

  lemma NatToStringShort(n: nat)
    requires n < 1000
    ensures |Text.NatToString(n)| <= 3
  {
    if n >= 10 {
      NatToStringShort(n / 10);
      if n >= 100 {
        assert |Text.NatToString(n / 10)| <= 2 by {
          assert n / 10 < 100;
          if n / 10 >= 10 {
            assert |Text.NatToString(n / 100)| == 1;
          }
        }
      }
    }
  }

  /** `POST` at instant `now` in calendar year `year`, with the random draw `roll`. */
  function Post(req: OrderRequest, now: int, year: nat, roll: nat): (r: Response<Body>)
    requires roll < 1000
    ensures !Present(req.customerId) || !Present(req.style) ==>
              r == Response(BAD_REQUEST, Error("Missing required fields"))
    ensures Present(req.customerId) && Present(req.style) ==>
              r.status == CREATED && r.body.Created?
              && r.body.order.id == "order_AS" + Text.NatToString(year) + "_" + Serial(roll)
              && r.body.order.customerId == req.customerId.value && r.body.order.style == req.style.value
              && r.body.order.productName == OrElse(req.productName, "Custom Order")
              && r.body.order.color == req.color && r.body.order.material == req.material
              && r.body.order.occasion == req.occasion && r.body.order.timeline == req.timeline
              && r.body.order.status == "pending" && r.body.order.progress == 0
              && r.body.order.createdAt == now
              && r.body.order.estimatedCompletion == now + LeadTimeDays * DayMs
              && r.body.message == "Order created successfully"
  {
    if !Present(req.customerId) || !Present(req.style) then
      Response(BAD_REQUEST, Error("Missing required fields"))
    else
      Response(CREATED, Created(
        Order("order_AS" + Text.NatToString(year) + "_" + Serial(roll), req.customerId.value, "pending",
              OrElse(req.productName, "Custom Order"), req.style.value, req.color, req.material,
              req.occasion, req.timeline, 0, now, now + LeadTimeDays * DayMs),
        "Order created successfully"))
  }

  /** Two orders placed in the same year get the same id exactly when their draws agree. */
  lemma SerialInjective(a: nat, b: nat)
    requires a < 1000 && b < 1000
    ensures Serial(a) == Serial(b) <==> a == b
  {
  }
}
