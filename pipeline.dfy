/** The two services together: the message the order service publishes on
    completing an order (order/src/controllers/orderController.js) is the one
    the product service's consumer (product/src/utils/setupMessageBroker.js)
    dispatches on, on the same queue. */
module Pipeline {
  import opened Wrappers
  import opened BrokerCommon
  import opened OrderModel
  import OC = OrderController
  import PC = ProductConsumer
  import PB = ProductBrokerSpec
  import opened ProductsRepository
  import opened ProductsService

  /** Publisher and consumer agree on the queue and on the event name. */
  lemma QueueAndEventAgree(order: Order)
    ensures OC.OrdersQueue == PC.OrdersQueue
    ensures OC.CompletionMessage(order).event == PC.OrderCompleted
    ensures PC.ReductionRequest(OC.CompletionMessage(order)) == Some(OC.CompletionItems(order.products))
  {
  }

  /** With the consumer registered after an awaited, successful connection,
      delivering a completed order's message acks it and reduces that order's
      items in order, stopping at the first failing call; when no call fails,
      every line item is reduced once by its own product and quantity. */
  lemma CompletedOrderReducesItsItems(s: PB.State, order: Order, tag: nat, ok: nat -> bool)
    ensures PB.Consuming(PC.SetupAwaitingConnection(s, Connected, true), PC.OrdersQueue)
    ensures var t := PC.SetupAwaitingConnection(s, Connected, true);
      var r := PC.OnDelivery(t, Delivery(tag, Some(OC.CompletionMessage(order))), ok);
      && r.0.log == t.log + [Acked(tag)]
      && r.1 == ReductionCalls(OC.CompletionItems(order.products), ok)
    ensures !SomeCallFails(OC.CompletionItems(order.products), ok) ==>
      var t := PC.SetupAwaitingConnection(s, Connected, true);
      var calls := PC.OnDelivery(t, Delivery(tag, Some(OC.CompletionMessage(order))), ok).1;
      |calls| == |order.products|
      && forall k :: 0 <= k < |order.products| ==>
           calls[k] == ReduceCall(order.products[k].productId, order.products[k].quantity, true)
  {
    PC.SetupAwaitingConnectionRegisters(s, true);
    var items := OC.CompletionItems(order.products);
    if !SomeCallFails(items, ok) {
      ReductionReducesEveryItem(items, ok);
    }
  }
}
