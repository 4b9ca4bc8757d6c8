/** The product service's ORDER_COMPLETED consumer
    (product/src/utils/setupMessageBroker.js): `connect()`, then registering a
    callback on queue "orders" that hands a completed order's items to
    `reduceProductQuantities` and contains any failure. */
module ProductConsumer {
  import opened Wrappers
  import opened BrokerCommon
  import PB = ProductBrokerSpec
  import ProductBroker
  import opened ProductsRepository
  import opened ProductsService

  const OrderCompleted := "ORDER_COMPLETED"
  const OrdersQueue := "orders"

  /** The callback's dispatch: the items it passes on unchanged to the
      reduction, or `None` for any other event. */
  function ReductionRequest(m: Message): (r: Option<seq<ItemRef>>)
    ensures r.Some? <==> m.event == OrderCompleted
    ensures r.Some? ==> r.value == m.products
  {
    if m.event == OrderCompleted then Some(m.products) else None
  }

  /** The reduction calls the callback makes for `m`. */
  function HandlerCalls(m: Message, ok: nat -> bool): seq<ReduceCall> {
    match ReductionRequest(m)
    case None => []
    case Some(items) => ReductionCalls(items, ok)
  }

  /** A message of another event reduces nothing; a completed order reduces
      its items in order, up to and including the first that fails. */
  lemma {:induction false} HandlerReducesOnlyCompletedOrders(m: Message, ok: nat -> bool)
    ensures m.event != OrderCompleted ==> HandlerCalls(m, ok) == []
    ensures m.event == OrderCompleted && !SomeCallFails(m.products, ok) ==>
      |HandlerCalls(m, ok)| == |m.products|
      && forall k :: 0 <= k < |m.products| ==> HandlerCalls(m, ok)[k].productId == m.products[k].productId
  {
    if m.event == OrderCompleted && !SomeCallFails(m.products, ok) {
      ReductionReducesEveryItem(m.products, ok);
    }
  }

  /** The callback registered on "orders": the reduction's rejection is
      caught and logged, so the callback itself always completes. */
  method HandleMessage(service: ProductsService, message: Message, ok: nat -> bool)
    requires service.Valid()
    modifies service.productsRepository
    ensures service.Valid()
    ensures service.productsRepository.products == old(service.productsRepository.products)
    ensures service.productsRepository.reduceCalls == old(service.productsRepository.reduceCalls) + HandlerCalls(message, ok)
  {
    if message.event == OrderCompleted {
      var _ := service.ReduceProductQuantities(message.products, ok);
    }
  }

  /** A delivery to the callback: the broker's half (parse and ack) and the
      reduction calls of the callback's half. */
  function OnDelivery(s: PB.State, d: Delivery, ok: nat -> bool): (r: (PB.State, seq<ReduceCall>))
    requires PB.Consuming(s, OrdersQueue)
  {
    var (log1, m) := BrokerCommon.Deliver(s.log, OrdersQueue, d);
    (s.(log := log1), if m.Some? then HandlerCalls(m.value, ok) else [])
  }

  /** The ack does not wait for the reduction: a parsed delivery is acked
      even when every reduction call fails, so its items are never retried. */
  lemma AckedEvenWhenReductionFails(s: PB.State, d: Delivery, ok: nat -> bool)
    requires PB.Consuming(s, OrdersQueue) && d.content.Some?
    ensures Acked(d.tag) in OnDelivery(s, d, ok).0.log
    ensures OnDelivery(s, d, ok).0 == OnDelivery(s, d, k => true).0
  {
    assert OnDelivery(s, d, ok).0.log == s.log + [Acked(d.tag)];
  }

  // ---------------------------------------------------------------------------
  // Registering the consumer

  /** `setupMessageBroker` as written: `connect()` resolves as soon as its
      attempt has started, and `consumeMessage("orders", ...)` runs straight
      after it. */
  function Setup(s: PB.State, consumeOk: bool): PB.State {
    PB.Consume(PB.ConnectDefault(s), OrdersQueue, consumeOk)
  }

  /** On a manager without a channel, as after start-up, the setup as
      written never registers the callback: `consumeMessage` still finds no
      channel and only starts a second attempt. */
  lemma SetupNeverRegistersConsumer(s: PB.State, consumeOk: bool)
    requires s.channel.None?
    ensures Setup(s, consumeOk).log == s.log
    ensures Setup(s, consumeOk).inFlight == s.inFlight + [OrdersQueue, OrdersQueue]
    ensures PB.Consuming(Setup(s, consumeOk), OrdersQueue) <==> PB.Consuming(s, OrdersQueue)
  {
  }

  /** From the manager's initial state, whatever the broker does afterwards
      with the two attempts, no callback is registered by the setup. */
  lemma {:induction false} FreshSetupRegistersNothing(consumeOk: bool, o1: Outcome, o2: Outcome)
    ensures var t := Setup(PB.Init(), consumeOk);
      !PB.Consuming(t, OrdersQueue)
      && !PB.Consuming(PB.Complete(PB.Complete(t, 0, o1), 0, o2), OrdersQueue)
  {
    var t := Setup(PB.Init(), consumeOk);
    assert t.log == [];
    var u := PB.Complete(t, 0, o1);
    assert forall e :: e in u.log ==> !e.ConsumerRegistered?;
    var w := PB.Complete(u, 0, o2);
    assert forall e :: e in w.log ==> !e.ConsumerRegistered?;
  }

  /** The setup with the evident intent: the consumer is registered once the
      attempt started by `connect()` has finished. */
  function SetupAwaitingConnection(s: PB.State, o: Outcome, consumeOk: bool): PB.State {
    var connecting := PB.ConnectDefault(s);
    PB.Consume(PB.Complete(connecting, |s.inFlight|, o), OrdersQueue, consumeOk)
  }

  /** With the attempt awaited, a successful connection and an accepted
      `consume` register the callback on "orders", with no further attempt. */
  lemma SetupAwaitingConnectionRegisters(s: PB.State, consumeOk: bool)
    requires consumeOk
    ensures PB.Consuming(SetupAwaitingConnection(s, Connected, consumeOk), OrdersQueue)
    ensures SetupAwaitingConnection(s, Connected, consumeOk).inFlight == s.inFlight
  {
    var c := PB.ConnectDefault(s);
    assert c.inFlight[|s.inFlight|] == OrdersQueue;
    assert PB.RemoveAt(c.inFlight, |s.inFlight|) == s.inFlight;
  }

  /** `setupMessageBroker` on the manager object, as written. */
  method SetupMessageBroker(broker: ProductBroker.MessageBroker, consumeOk: bool)
    requires broker.Valid()
    modifies broker
    ensures broker.Valid()
    ensures broker.Model() == Setup(old(broker.Model()), consumeOk)
  {
    broker.Connect();
    broker.ConsumeMessage(OrdersQueue, consumeOk);
  }
}
