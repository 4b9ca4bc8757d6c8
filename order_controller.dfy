/** The order service's HTTP handlers (order/src/controllers/orderController.js):
    the token-presence guard every handler applies first, the handlers over
    the orders table, and `updateOrderStatus`, which publishes an
    ORDER_COMPLETED message after a successful update to 'Completed'. The
    service layer between handler and repository only re-throws under its own
    messages, which the handlers replace with "Server error", so the handlers
    are modelled directly over the repository. */
module OrderController {
  import opened Wrappers
  import opened BrokerCommon
  import opened OrderModel
  import opened OrdersRepository
  import OB = OrderBrokerSpec
  import OrderBroker

  const UnauthorizedMessage := "Unauthorized"
  const ServerErrorMessage := "Server error"
  const CompletedStatus := "Completed"
  const OrderCompletedEvent := "ORDER_COMPLETED"
  const OrdersQueue := "orders"

  datatype Body = MessageBody(message: string) | OrderBody(order: Order) | OrdersBody(orders: set<Order>)
  datatype Response = Response(status: nat, body: Body)

  const Unauthorized := Response(401, MessageBody(UnauthorizedMessage))
  const ServerError := Response(500, MessageBody(ServerErrorMessage))

  /** `req.headers.authorization` is present and not empty; its content is
      not examined. */
  predicate HasToken(authorization: Option<string>) {
    authorization.Some? && authorization.value != ""
  }

  /** The message's product list: each line item's `productId` and
      `quantity`, in order; the price is dropped. */
  function CompletionItems(products: seq<LineItem>): (r: seq<ItemRef>)
    ensures |r| == |products|
    ensures forall k :: 0 <= k < |products| ==> r[k].productId == products[k].productId && r[k].quantity == products[k].quantity
  {
    if |products| == 0 then []
    else [ItemRef(products[0].productId, products[0].quantity)] + CompletionItems(products[1..])
  }

  /** The message published for a completed order. */
  function CompletionMessage(o: Order): (m: Message)
    ensures m.event == OrderCompletedEvent && m.orderId == o.id
    ensures |m.products| == |o.products|
  {
    Message(OrderCompletedEvent, o.id, CompletionItems(o.products))
  }

  /** Prices never reach the message: orders whose line items agree on
      product and quantity publish the same items. */
  lemma {:induction false} CompletionItemsIgnorePrices(a: seq<LineItem>, b: seq<LineItem>)
    requires |a| == |b|
    requires forall k :: 0 <= k < |a| ==> a[k].productId == b[k].productId && a[k].quantity == b[k].quantity
    ensures CompletionItems(a) == CompletionItems(b)
  {
    var ra, rb := CompletionItems(a), CompletionItems(b);
    forall k | 0 <= k < |a|
      ensures ra[k] == rb[k]
    {
    }
  }

  /** What `updateOrderStatus` responds and leaves behind: the orders table
      and the broker manager's state. `o` and `sendOk` are the outcomes of the
      broker calls a publish may make. */
  function UpdateOrderStatusResult(authorization: Option<string>, table: map<string, Order>, b: OB.State,
                                   orderId: string, newStatus: string, o: Outcome, sendOk: bool)
    : (r: (Response, map<string, Order>, OB.State))
  {
    if !HasToken(authorization) then (Unauthorized, table, b)
    else
      var updated := StatusUpdate(table, orderId, newStatus);
      if updated.Err? then (ServerError, table, b)
      else
        var b1 := if newStatus == CompletedStatus
                  then OB.Publish(b, OrdersQueue, CompletionMessage(updated.value), o, sendOk).0
                  else b;
        (Response(200, OrderBody(updated.value)), table[orderId := updated.value], b1)
  }

  /** Without a token the handler answers 401 and neither the table nor the
      broker is touched. */
  lemma NoTokenChangesNothing(authorization: Option<string>, table: map<string, Order>, b: OB.State,
                              orderId: string, newStatus: string, o: Outcome, sendOk: bool)
    requires !HasToken(authorization)
    ensures UpdateOrderStatusResult(authorization, table, b, orderId, newStatus, o, sendOk) == (Unauthorized, table, b)
  {
  }

  /** The update comes before any publish: a failed update answers 500 and
      publishes nothing; a successful one answers 200 with the updated order,
      whatever became of the publish. */
  lemma UpdateDecidesResponse(authorization: Option<string>, table: map<string, Order>, b: OB.State,
                              orderId: string, newStatus: string, o: Outcome, sendOk: bool)
    requires HasToken(authorization)
    ensures var r := UpdateOrderStatusResult(authorization, table, b, orderId, newStatus, o, sendOk);
      var u := StatusUpdate(table, orderId, newStatus);
      && (u.Err? ==> r == (ServerError, table, b))
      && (u.Ok? ==> r.0 == Response(200, OrderBody(u.value)) && r.1 == table[orderId := u.value])
  {
  }

  /** Whatever the broker's state, it is touched only when the update
      succeeds and the new status is exactly 'Completed'. With a channel and a
      successful send it is touched exactly then, and the only change is the
      order's completion message sent on queue "orders". */
  lemma {:induction false} PublishesOnlyOnCompletion(authorization: Option<string>, table: map<string, Order>, b: OB.State,
                                  orderId: string, newStatus: string, o: Outcome, sendOk: bool)
    ensures var r := UpdateOrderStatusResult(authorization, table, b, orderId, newStatus, o, sendOk);
      var u := StatusUpdate(table, orderId, newStatus);
      r.2 != b ==> HasToken(authorization) && u.Ok? && newStatus == CompletedStatus
    ensures var r := UpdateOrderStatusResult(authorization, table, b, orderId, newStatus, o, sendOk);
      var u := StatusUpdate(table, orderId, newStatus);
      b.channel.Some? && sendOk ==>
        (r.2 != b <==> HasToken(authorization) && u.Ok? && newStatus == CompletedStatus)
        && (r.2 != b ==> r.2 == b.(log := b.log + [Sent(OrdersQueue, CompletionMessage(u.value))]))
  {
    var r := UpdateOrderStatusResult(authorization, table, b, orderId, newStatus, o, sendOk);
    var u := StatusUpdate(table, orderId, newStatus);
    if b.channel.Some? && sendOk && HasToken(authorization) && u.Ok? && newStatus == CompletedStatus {
      assert r.2.log == b.log + [Sent(OrdersQueue, CompletionMessage(u.value))];
      assert |r.2.log| != |b.log|;
    }
  }

  /** A completion while the manager has no channel answers 200 and leaves
      the broker as an awaited `connect()` leaves it: the message is dropped. */
  lemma CompletionWithoutChannelIsDropped(authorization: Option<string>, table: map<string, Order>, b: OB.State,
                                          orderId: string, o: Outcome, sendOk: bool)
    requires HasToken(authorization) && StatusUpdate(table, orderId, CompletedStatus).Ok?
    requires b.channel.None?
    ensures var r := UpdateOrderStatusResult(authorization, table, b, orderId, CompletedStatus, o, sendOk);
      r.0.status == 200 && r.2 == OB.Connect(b, o)
  {
  }

  /** A completion while the manager has no channel still answers 200, yet
      the message is lost: no `Sent` event is recorded. */
  lemma CompletionWithoutChannelIsLost(authorization: Option<string>, table: map<string, Order>, b: OB.State,
                                       orderId: string, o: Outcome, sendOk: bool)
    requires HasToken(authorization) && StatusUpdate(table, orderId, CompletedStatus).Ok?
    requires b.channel.None? && !AnySent(b.log)
    ensures var r := UpdateOrderStatusResult(authorization, table, b, orderId, CompletedStatus, o, sendOk);
      r.0.status == 200 && !AnySent(r.2.log)
  {
    OB.DroppedPublishSendsNothing(b, OrdersQueue, CompletionMessage(StatusUpdate(table, orderId, CompletedStatus).value), o, sendOk);
  }

  class OrderController {
    const ordersRepository: OrdersRepository
    const messageBroker: OrderBroker.MessageBroker

    ghost predicate Valid()
      reads this, ordersRepository, messageBroker
    {
      ordersRepository.Valid() && messageBroker.Valid()
    }

    constructor (repository: OrdersRepository, broker: OrderBroker.MessageBroker)
      requires repository.Valid() && broker.Valid()
      ensures Valid() && ordersRepository == repository && messageBroker == broker
    {
      ordersRepository := repository;
      messageBroker := broker;
    }

    method CreateOrder(authorization: Option<string>, body: OrderInput, freshId: string) returns (r: Response)
      requires Valid()
      modifies ordersRepository
      ensures Valid()
      ensures !HasToken(authorization) ==> r == Unauthorized && ordersRepository.orders == old(ordersRepository.orders)
      ensures HasToken(authorization) && freshId !in old(ordersRepository.orders) && Acceptable(body) ==>
        r == Response(201, OrderBody(Build(freshId, body).value))
        && ordersRepository.orders == old(ordersRepository.orders)[freshId := Build(freshId, body).value]
      ensures HasToken(authorization) && !(freshId !in old(ordersRepository.orders) && Acceptable(body)) ==>
        r == ServerError && ordersRepository.orders == old(ordersRepository.orders)
    {
      if !HasToken(authorization) {
        return Unauthorized;
      }
      var created := ordersRepository.Create(body, freshId);
      if created.Err? {
        return ServerError;
      }
      return Response(201, OrderBody(created.value));
    }

    /** `getOrderById`: the repository throws for a missing order, so the
        404 branch for a null result is never taken. */
    method GetOrderById(authorization: Option<string>, orderId: string) returns (r: Response)
      requires Valid()
      ensures r.status != 404
      ensures !HasToken(authorization) ==> r == Unauthorized
      ensures HasToken(authorization) && orderId in ordersRepository.orders ==> r == Response(200, OrderBody(ordersRepository.orders[orderId]))
      ensures HasToken(authorization) && orderId !in ordersRepository.orders ==> r == ServerError
    {
      if !HasToken(authorization) {
        return Unauthorized;
      }
      var found := ordersRepository.FindById(orderId);
      if found.Err? {
        return ServerError;
      }
      return Response(200, OrderBody(found.value));
    }

    /** `getOrders`: the query's filters are passed to the service, which
        ignores them, so every order is returned. */
    method GetOrders(authorization: Option<string>, status: Option<string>, minAmount: Option<string>,
                     maxAmount: Option<string>, startDate: Option<string>, endDate: Option<string>) returns (r: Response)
      requires Valid()
      ensures !HasToken(authorization) ==> r == Unauthorized
      ensures HasToken(authorization) ==> r == Response(200, OrdersBody(ordersRepository.orders.Values))
    {
      if !HasToken(authorization) {
        return Unauthorized;
      }
      var all := ordersRepository.FindAll();
      return Response(200, OrdersBody(all.value));
    }

    method GetOrdersByStatus(authorization: Option<string>, status: string) returns (r: Response)
      requires Valid()
      ensures !HasToken(authorization) ==> r == Unauthorized
      ensures HasToken(authorization) ==>
        (r.status == 200 && r.body.OrdersBody?
         && forall o :: o in r.body.orders <==> o in ordersRepository.orders.Values && o.status == status)
    {
      if !HasToken(authorization) {
        return Unauthorized;
      }
      var found := ordersRepository.FindOrdersByStatus(status);
      return Response(200, OrdersBody(found.value));
    }

    method UpdateOrderStatus(authorization: Option<string>, orderId: string, newStatus: string, o: Outcome, sendOk: bool)
      returns (r: Response)
      requires Valid()
      modifies ordersRepository, messageBroker
      ensures Valid()
      ensures (r, ordersRepository.orders, messageBroker.Model())
           == UpdateOrderStatusResult(authorization, old(ordersRepository.orders), old(messageBroker.Model()),
                                      orderId, newStatus, o, sendOk)
    {
      if !HasToken(authorization) {
        return Unauthorized;
      }
      var updated := ordersRepository.UpdateStatus(orderId, newStatus);
      if updated.Err? {
        return ServerError;
      }
      if newStatus == CompletedStatus {
        var _ := messageBroker.PublishMessage(OrdersQueue, CompletionMessage(updated.value), o, sendOk);
      }
      return Response(200, OrderBody(updated.value));
    }

    /** `updatePaymentStatus`: the same guard, never a publish. */
    method UpdatePaymentStatus(authorization: Option<string>, orderId: string, paymentStatus: string) returns (r: Response)
      requires Valid()
      modifies ordersRepository
      ensures Valid()
      ensures !HasToken(authorization) ==> r == Unauthorized && ordersRepository.orders == old(ordersRepository.orders)
      ensures HasToken(authorization) ==>
        var u := PaymentUpdate(old(ordersRepository.orders), orderId, paymentStatus);
        && (u.Ok? ==> r == Response(200, OrderBody(u.value)) && ordersRepository.orders == old(ordersRepository.orders)[orderId := u.value])
        && (u.Err? ==> r == ServerError && ordersRepository.orders == old(ordersRepository.orders))
    {
      if !HasToken(authorization) {
        return Unauthorized;
      }
      var updated := ordersRepository.UpdatePaymentStatus(orderId, paymentStatus);
      if updated.Err? {
        return ServerError;
      }
      return Response(200, OrderBody(updated.value));
    }
  }
}
