/**
 The administrative order lifecycle: an order header carries an order status
 and a payment status, and the admin actions of the order controller move it
 between them, consulting the payment gateway for checkout sessions, payment
 confirmation and refunds. Orders are a map from id to header (the order
 header repository); the gateway is an oracle plus the log of calls made.
 */
module Orders {
  import opened Repository

  /** One enumeration serves both status columns: the source stores the order
      status constants "Cancelled" and "Refunded" into the payment status. */
  datatype Status =
    | Pending
    | Approved
    | InProcess
    | Shipped
    | Cancelled
    | Refunded
    | DelayedPayment
    | Rejected

  /** Dates are whole days; `None` stands for a column that holds null. */
  datatype OrderHeader = OrderHeader(
    id: int,
    applicationUserId: string,
    name: string,
    phoneNumber: string,
    streetAddress: string,
    city: string,
    state: string,
    postalCode: string,
    orderStatus: Status,
    paymentStatus: Status,
    sessionId: Option<string>,
    paymentIntentId: Option<string>,
    carrier: Option<string>,
    trackingNumber: Option<string>,
    shippingDate: int,
    paymentDueDate: int)

  datatype Product = Product(id: int, title: string)

  /** A purchased line with its eagerly loaded product. */
  datatype OrderDetail = OrderDetail(
    orderId: int, productId: int, product: Product, count: int, price: real)

  /** One line item of a checkout-session request. */
  datatype LineItem = LineItem(
    unitAmount: int, currency: string, productName: string, quantity: int)

  /** A request sent to the payment gateway. `CreateSession` and `CreateRefund`
      also record the order on whose behalf the request went out. */
  datatype GatewayCall =
    | CreateSession(orderId: int, lineItems: seq<LineItem>)
    | GetSession(sessionId: Option<string>)
    | CreateRefund(orderId: int, paymentIntentId: Option<string>)

  /** What the gateway answers; `Failed` is a call that throws. */
  datatype Reply =
    | Failed
    | SessionCreated(newSessionId: string, newPaymentIntentId: Option<string>)
    | SessionStatus(paymentStatus: string)
    | RefundCreated

  /** Role names as the identity store holds them; a caller has a set of them. */
  const RoleAdmin: string := "Admin"
  const RoleEmployee: string := "Employee"

  const PaymentTermDays: int := 30

  // ---------------------------------------------------------------------------
  // Pure parts of the controller

  function LowerAscii(c: char): char
  {
    if 'A' <= c <= 'Z' then (c as int + 32) as char else c
  }

  /** The gateway's session payment status, lower-cased, equals "paid": that
      is, it is "paid" in any mix of letter case. */
  predicate IsPaid(status: string): (r: bool)
    ensures r <==>
      |status| == 4 &&
      status[0] in "pP" && status[1] in "aA" && status[2] in "iI" && status[3] in "dD"
  {
    |status| == 4 &&
    var lowered := seq(|status|, i requires 0 <= i < |status| => LowerAscii(status[i]));
    assert lowered == "paid" ==>
      lowered[0] == 'p' && lowered[1] == 'a' && lowered[2] == 'i' && lowered[3] == 'd';
    lowered == "paid"
  }

  /** What the pay-now request sends for each order detail. */
  ghost predicate DescribesDetails(items: seq<LineItem>, details: seq<OrderDetail>,
                                   toMinorUnits: real -> int)
  {
    |items| == |details| &&
    forall k :: 0 <= k < |details| ==>
      items[k].quantity == details[k].count &&
      items[k].productName == details[k].product.title &&
      items[k].currency == "usd" &&
      items[k].unitAmount == toMinorUnits(details[k].price)
  }

  /** The `foreach` over the order's details that fills the session's line items.
      `toMinorUnits` stands for the conversion of a price to cents. */
  method BuildLineItems(details: seq<OrderDetail>, toMinorUnits: real -> int)
    returns (items: seq<LineItem>)
    ensures DescribesDetails(items, details, toMinorUnits)
  {
    items := [];
    for k := 0 to |details|
      invariant DescribesDetails(items, details[..k], toMinorUnits)
    {
      var item := details[k];
      var lineItem := LineItem(toMinorUnits(item.price), "usd", item.product.title, item.count);
      items := items + [lineItem];
    }
  }

  /** `User.IsInRole(Admin) || User.IsInRole(Employee)`. */
  predicate Elevated(roles: set<string>)
  {
    RoleAdmin in roles || RoleEmployee in roles
  }

  function OwnedBy(userId: string): OrderHeader -> bool
  {
    (o: OrderHeader) => o.applicationUserId == userId
  }

  /** The status bucket of `GetAll`; an unknown bucket keeps every order. */
  function BucketFilter(status: string): (keep: OrderHeader -> bool)
    ensures forall o :: keep(o) <==>
      (status == "pending" ==> o.paymentStatus == DelayedPayment) &&
      (status == "inprocess" ==> o.orderStatus == InProcess) &&
      (status == "completed" ==> o.orderStatus == Shipped) &&
      (status == "approved" ==> o.orderStatus == Approved)
  {
    if status == "pending" then (o: OrderHeader) => o.paymentStatus == DelayedPayment
    else if status == "inprocess" then (o: OrderHeader) => o.orderStatus == InProcess
    else if status == "completed" then (o: OrderHeader) => o.orderStatus == Shipped
    else if status == "approved" then (o: OrderHeader) => o.orderStatus == Approved
    else (_: OrderHeader) => true
  }

  predicate KnownBucket(status: string)
  {
    status == "pending" || status == "inprocess" || status == "completed" || status == "approved"
  }

  /** `GetAll(status)`. `headers` is the order header table in the store's
      enumeration order, `roles` and `userId` identify the caller. */
  function GetAll(headers: seq<OrderHeader>, roles: set<string>, userId: string, status: string)
    : (r: seq<OrderHeader>)
    ensures IsSubsequence(r, headers)
    ensures forall o :: o in r ==> o in headers && (Elevated(roles) || o.applicationUserId == userId)
    ensures forall o :: o in headers && (Elevated(roles) || o.applicationUserId == userId) ==>
      (o in r <==>
        (status == "pending" ==> o.paymentStatus == DelayedPayment) &&
        (status == "inprocess" ==> o.orderStatus == InProcess) &&
        (status == "completed" ==> o.orderStatus == Shipped) &&
        (status == "approved" ==> o.orderStatus == Approved))
    ensures Elevated(roles) && !KnownBucket(status) ==> r == headers
    ensures forall o ::
      multiset(r)[o] ==
        if (Elevated(roles) || o.applicationUserId == userId) && BucketFilter(status)(o)
        then multiset(headers)[o] else 0
  {
    var visible := if Elevated(roles) then headers else Where(headers, OwnedBy(userId));
    SubsequenceReflexive(headers);
    WhereMultiplicity(headers, OwnedBy(userId));
    if KnownBucket(status) then
      var r := Where(visible, BucketFilter(status));
      SubsequenceTransitive(r, visible, headers);
      WhereMultiplicity(visible, BucketFilter(status));
      r
    else
      visible
  }

  // ---------------------------------------------------------------------------
  // Stored state

  /** Every stored header sits under its own id. */
  ghost predicate KeysMatch(orders: map<int, OrderHeader>)
  {
    forall id :: id in orders ==> orders[id].id == id
  }

  /** Call `k` of the log asked for a refund on behalf of order `id`, and the
      gateway granted it. */
  ghost predicate RefundGrantedAt(answer: (nat, GatewayCall) -> Reply, calls: seq<GatewayCall>,
                                  id: int, k: nat)
  {
    k < |calls| && calls[k].CreateRefund? && calls[k].orderId == id &&
    answer(k, calls[k]).RefundCreated?
  }

  /** An order whose payment status reads Refunded had a refund granted for it. */
  ghost predicate RefundsLogged(orders: map<int, OrderHeader>,
                                answer: (nat, GatewayCall) -> Reply, calls: seq<GatewayCall>)
  {
    forall id :: id in orders && orders[id].paymentStatus == Refunded ==>
      exists k: nat :: RefundGrantedAt(answer, calls, id, k)
  }

  lemma RefundsLoggedExtend(orders: map<int, OrderHeader>,
                            answer: (nat, GatewayCall) -> Reply, calls: seq<GatewayCall>,
                            c: GatewayCall)
    requires RefundsLogged(orders, answer, calls)
    ensures RefundsLogged(orders, answer, calls + [c])
  {
    forall id | id in orders && orders[id].paymentStatus == Refunded
      ensures exists k: nat :: RefundGrantedAt(answer, calls + [c], id, k)
    {
      var k: nat :| RefundGrantedAt(answer, calls, id, k);
      assert (calls + [c])[k] == calls[k];
      assert RefundGrantedAt(answer, calls + [c], id, k);
    }
  }

  /** The order header repository (with `Save()` taken as immediate). Only
      `Update`, `UpdateStatus` and `UpdateStripePaymentID` change it. */
  class OrderRepository {
    var orders: map<int, OrderHeader>
    var details: seq<OrderDetail>

    constructor(orders: map<int, OrderHeader>, details: seq<OrderDetail>)
      ensures this.orders == orders && this.details == details
    {
      this.orders := orders;
      this.details := details;
    }

    /** `UpdateStatus(id, orderStatus, paymentStatus?)`: sets the order status,
        and the payment status only when one is given. */
    method UpdateStatus(id: int, orderStatus: Status, paymentStatus: Option<Status>)
      requires id in orders
      modifies this`orders
      ensures orders == old(orders)[id := old(orders)[id].(
        orderStatus := orderStatus,
        paymentStatus := if paymentStatus.Some? then paymentStatus.value
                         else old(orders)[id].paymentStatus)]
    {
      var header := orders[id];
      header := header.(orderStatus := orderStatus);
      if paymentStatus.Some? {
        header := header.(paymentStatus := paymentStatus.value);
      }
      orders := orders[id := header];
    }

    /** `UpdateStripePaymentID(id, sessionId, paymentIntentId)`. */
    method UpdateStripePaymentID(id: int, sessionId: string, paymentIntentId: Option<string>)
      requires id in orders
      modifies this`orders
      ensures orders == old(orders)[id := old(orders)[id].(
        sessionId := Some(sessionId), paymentIntentId := paymentIntentId)]
    {
      orders := orders[id := orders[id].(sessionId := Some(sessionId), paymentIntentId := paymentIntentId)];
    }

    /** `Update(header)`: writes every column of the row with the header's id. */
    method Update(header: OrderHeader)
      requires header.id in orders
      modifies this`orders
      ensures orders == old(orders)[header.id := header]
    {
      orders := orders[header.id := header];
    }
  }

  /** The payment gateway: `answer(k, c)` is what it replies to call `c` when
      that call is the `k`-th one made; `calls` logs every call. */
  class PaymentGateway {
    const answer: (nat, GatewayCall) -> Reply
    var calls: seq<GatewayCall>

    constructor(answer: (nat, GatewayCall) -> Reply)
      ensures this.answer == answer && calls == []
    {
      this.answer := answer;
      calls := [];
    }

    method Call(c: GatewayCall) returns (reply: Reply)
      modifies this`calls
      ensures calls == old(calls) + [c]
      ensures reply == answer(|old(calls)|, c)
    {
      reply := answer(|calls|, c);
      calls := calls + [c];
    }
  }

  /** The admin order controller's actions. Each one takes the order header
      posted with the request (or its id); a gateway reply that is `Failed` or
      of the wrong shape is the exception the SDK throws, after which nothing
      stored changes. */
  class OrderController {
    const repo: OrderRepository
    const gateway: PaymentGateway

    ghost predicate Valid()
      reads repo, gateway
    {
      KeysMatch(repo.orders) && RefundsLogged(repo.orders, gateway.answer, gateway.calls)
    }

    constructor(repo: OrderRepository, gateway: PaymentGateway)
      requires KeysMatch(repo.orders) && RefundsLogged(repo.orders, gateway.answer, gateway.calls)
      ensures this.repo == repo && this.gateway == gateway && Valid()
    {
      this.repo := repo;
      this.gateway := gateway;
    }

    /** Pay now: one line item per detail of the order, a session request, and
        the returned handles stored on the order. */
    method PayNow(orderId: int, toMinorUnits: real -> int) returns (ok: bool)
      requires Valid() && orderId in repo.orders
      modifies repo`orders, gateway`calls
      ensures Valid()
      ensures |gateway.calls| == |old(gateway.calls)| + 1
      ensures gateway.calls[..|old(gateway.calls)|] == old(gateway.calls)
      ensures var c := gateway.calls[|old(gateway.calls)|];
        c.CreateSession? && c.orderId == orderId &&
        DescribesDetails(c.lineItems, Where(repo.details, (d: OrderDetail) => d.orderId == orderId),
                         toMinorUnits)
      ensures var reply := gateway.answer(|old(gateway.calls)|, gateway.calls[|old(gateway.calls)|]);
        ok == reply.SessionCreated? &&
        repo.orders == if ok
          then old(repo.orders)[orderId := old(repo.orders)[orderId].(
            sessionId := Some(reply.newSessionId), paymentIntentId := reply.newPaymentIntentId)]
          else old(repo.orders)
    {
      var details := Where(repo.details, (d: OrderDetail) => d.orderId == orderId);
      var items := BuildLineItems(details, toMinorUnits);
      RefundsLoggedExtend(repo.orders, gateway.answer, gateway.calls, CreateSession(orderId, items));
      var reply := gateway.Call(CreateSession(orderId, items));
      ok := reply.SessionCreated?;
      if ok {
        repo.UpdateStripePaymentID(orderId, reply.newSessionId, reply.newPaymentIntentId);
      }
    }

    /** Payment confirmation: only a deferred payment is looked up at the
        gateway, and a session reported "paid" approves the payment. */
    method PaymentConfirmation(orderHeaderId: int) returns (ok: bool)
      requires Valid() && orderHeaderId in repo.orders
      modifies repo`orders, gateway`calls
      ensures Valid()
      ensures var header := old(repo.orders)[orderHeaderId];
        if header.paymentStatus != DelayedPayment then
          ok && gateway.calls == old(gateway.calls) && repo.orders == old(repo.orders)
        else
          var reply := gateway.answer(|old(gateway.calls)|, GetSession(header.sessionId));
          gateway.calls == old(gateway.calls) + [GetSession(header.sessionId)] &&
          ok == reply.SessionStatus? &&
          repo.orders ==
            if ok && IsPaid(reply.paymentStatus)
            then old(repo.orders)[orderHeaderId := header.(paymentStatus := Approved)]
            else old(repo.orders)
    {
      var header := repo.orders[orderHeaderId];
      ok := true;
      if header.paymentStatus == DelayedPayment {
        RefundsLoggedExtend(repo.orders, gateway.answer, gateway.calls, GetSession(header.sessionId));
        var reply := gateway.Call(GetSession(header.sessionId));
        ok := reply.SessionStatus?;
        if ok && IsPaid(reply.paymentStatus) {
          repo.UpdateStatus(orderHeaderId, header.orderStatus, Some(Approved));
        }
      }
    }

    /** Update order detail: overwrites the contact and address fields, the
        carrier and tracking number only when submitted, and never a status. */
    method UpdateOrderDetail(posted: OrderHeader)
      requires Valid() && posted.id in repo.orders
      modifies repo`orders
      ensures Valid()
      ensures var before := old(repo.orders)[posted.id];
        repo.orders == old(repo.orders)[posted.id := before.(
          name := posted.name,
          phoneNumber := posted.phoneNumber,
          streetAddress := posted.streetAddress,
          city := posted.city,
          state := posted.state,
          postalCode := posted.postalCode,
          carrier := if posted.carrier.Some? then posted.carrier else before.carrier,
          trackingNumber := if posted.trackingNumber.Some? then posted.trackingNumber
                            else before.trackingNumber)]
      ensures repo.orders[posted.id].orderStatus == old(repo.orders)[posted.id].orderStatus
      ensures repo.orders[posted.id].paymentStatus == old(repo.orders)[posted.id].paymentStatus
    {
      var fromDb := repo.orders[posted.id];
      fromDb := fromDb.(name := posted.name);
      fromDb := fromDb.(phoneNumber := posted.phoneNumber);
      fromDb := fromDb.(streetAddress := posted.streetAddress);
      fromDb := fromDb.(city := posted.city);
      fromDb := fromDb.(state := posted.state);
      fromDb := fromDb.(postalCode := posted.postalCode);
      if posted.carrier.Some? {
        fromDb := fromDb.(carrier := posted.carrier);
      }
      if posted.trackingNumber.Some? {
        fromDb := fromDb.(trackingNumber := posted.trackingNumber);
      }
      repo.Update(fromDb);
    }

    /** Start processing: order status InProcess, payment status untouched. */
    method StartProcessing(posted: OrderHeader)
      requires Valid() && posted.id in repo.orders
      modifies repo`orders
      ensures Valid()
      ensures repo.orders == old(repo.orders)[posted.id :=
        old(repo.orders)[posted.id].(orderStatus := InProcess)]
    {
      repo.UpdateStatus(posted.id, InProcess, None);
    }

    /** Ship: tracking number and carrier as submitted, status Shipped, shipped
        today, and for a deferred payment a due date thirty days on. */
    method ShipOrder(posted: OrderHeader, now: int)
      requires Valid() && posted.id in repo.orders
      modifies repo`orders
      ensures Valid()
      ensures var before := old(repo.orders)[posted.id];
        repo.orders == old(repo.orders)[posted.id := before.(
          trackingNumber := posted.trackingNumber,
          carrier := posted.carrier,
          orderStatus := Shipped,
          shippingDate := now,
          paymentDueDate := if before.paymentStatus == DelayedPayment
                            then now + PaymentTermDays else before.paymentDueDate)]
    {
      var header := repo.orders[posted.id];
      header := header.(trackingNumber := posted.trackingNumber);
      header := header.(carrier := posted.carrier);
      header := header.(orderStatus := Shipped);
      header := header.(shippingDate := now);
      if header.paymentStatus == DelayedPayment {
        header := header.(paymentDueDate := now + PaymentTermDays);
      }
      repo.Update(header);
    }

    /** Cancel: an approved payment is refunded first (Cancelled / Refunded);
        any other payment status is simply Cancelled / Cancelled. */
    method CancelOrder(posted: OrderHeader) returns (ok: bool)
      requires Valid() && posted.id in repo.orders
      modifies repo`orders, gateway`calls
      ensures Valid()
      ensures var header := old(repo.orders)[posted.id];
        if header.paymentStatus == Approved then
          var refund := CreateRefund(posted.id, header.paymentIntentId);
          gateway.calls == old(gateway.calls) + [refund] &&
          ok == gateway.answer(|old(gateway.calls)|, refund).RefundCreated? &&
          repo.orders == if ok
            then old(repo.orders)[posted.id := header.(orderStatus := Cancelled, paymentStatus := Refunded)]
            else old(repo.orders)
        else
          ok && gateway.calls == old(gateway.calls) &&
          repo.orders == old(repo.orders)[posted.id := header.(orderStatus := Cancelled, paymentStatus := Cancelled)]
    {
      var header := repo.orders[posted.id];
      ok := true;
      if header.paymentStatus == Approved {
        var refund := CreateRefund(header.id, header.paymentIntentId);
        RefundsLoggedExtend(repo.orders, gateway.answer, gateway.calls, refund);
        var k := |gateway.calls|;
        var reply := gateway.Call(refund);
        ok := reply.RefundCreated?;
        if ok {
          assert RefundGrantedAt(gateway.answer, gateway.calls, header.id, k);
          repo.UpdateStatus(header.id, Cancelled, Some(Refunded));
        }
      } else {
        repo.UpdateStatus(header.id, Cancelled, Some(Cancelled));
      }
    }
  }

  /** Two payment confirmations in a row. The first one acts as
      `PaymentConfirmation` does; once it has settled the payment (approved,
      or anything but a deferred payment), the second one calls the gateway no
      more and changes nothing. In particular a deferred payment whose session
      reads "paid" is approved by exactly one lookup and stays that way. */
  method ConfirmTwice(controller: OrderController, orderHeaderId: int)
    returns (first: bool, second: bool, ghost afterFirst: map<int, OrderHeader>,
             ghost callsAfterFirst: seq<GatewayCall>)
    requires controller.Valid() && orderHeaderId in controller.repo.orders
    modifies controller.repo`orders, controller.gateway`calls
    ensures controller.Valid()
    ensures orderHeaderId in afterFirst
    ensures afterFirst[orderHeaderId].paymentStatus != DelayedPayment ==>
      controller.repo.orders == afterFirst && controller.gateway.calls == callsAfterFirst
    ensures old(controller.repo.orders)[orderHeaderId].paymentStatus != DelayedPayment ==>
      controller.repo.orders == old(controller.repo.orders) &&
      controller.gateway.calls == old(controller.gateway.calls)
    ensures var h := old(controller.repo.orders)[orderHeaderId];
      var c := GetSession(h.sessionId);
      callsAfterFirst ==
        old(controller.gateway.calls) + (if h.paymentStatus == DelayedPayment then [c] else [])
    ensures var h := old(controller.repo.orders)[orderHeaderId];
      var c := GetSession(h.sessionId);
      var reply := controller.gateway.answer(|old(controller.gateway.calls)|, c);
      h.paymentStatus == DelayedPayment && reply.SessionStatus? && IsPaid(reply.paymentStatus) ==>
        first && afterFirst == old(controller.repo.orders)[orderHeaderId := h.(paymentStatus := Approved)] &&
        controller.repo.orders == afterFirst &&
        controller.gateway.calls == old(controller.gateway.calls) + [c]
  {
    first := controller.PaymentConfirmation(orderHeaderId);
    afterFirst, callsAfterFirst := controller.repo.orders, controller.gateway.calls;
    second := controller.PaymentConfirmation(orderHeaderId);
  }
}
