/** What the two services' broker connection managers share: the inventory
    message that travels on the queue, handles for the amqplib connection and
    channel objects, the outcome of one connection attempt, deliveries, and the
    record of what the manager has done to the broker. */
module BrokerCommon {
  import opened Wrappers

  /** One `{ productId, quantity }` entry of an ORDER_COMPLETED message. */
  datatype ItemRef = ItemRef(productId: string, quantity: real)

  /** The queue message `{ event, orderId, products }`. JSON encoding and
      decoding are taken to be inverse, so a message is kept as a value. */
  datatype Message = Message(event: string, orderId: string, products: seq<ItemRef>)

  /** An amqplib connection or channel object, told apart by a serial number. */
  datatype Handle = Handle(serial: nat)

  /** How one run of the attempt closure `connectToRabbitMQ` ends: at the
      `amqp.connect` await, at `createChannel`, at `assertQueue`, or with all
      three done. */
  datatype Outcome = ConnectFailed | ChannelFailed | QueueFailed | Connected

  /** A message the broker hands to a consumer; `content` is `None` when its
      body is not JSON, so `JSON.parse` throws. */
  datatype Delivery = Delivery(tag: nat, content: Option<Message>)

  /** Effects on the broker, in the order the manager performs them. */
  datatype Event =
    | QueueAsserted(channel: Handle, queue: string)
    | Sent(queue: string, message: Message)
    | SendFailed(queue: string, message: Message)
    | ConsumerRegistered(queue: string)
    | ConsumeFailed(queue: string)
    | Acked(tag: nat)
    | ChannelClosed(channel: Handle)
    | ConnectionClosed(connection: Handle)
    | CloseFailed
    | GaveUp

  /** What became of one `publishMessage` call. */
  datatype PublishResult = Dropped | Published | PublishFailed

  /** The outcomes of `connectToRabbitMQ` that enter its `catch` block. */
  predicate IsFailure(o: Outcome) {
    o != Connected
  }

  /** True when some `Sent` event is in the record. */
  predicate AnySent(log: seq<Event>) {
    exists i :: 0 <= i < |log| && log[i].Sent?
  }

  /** The effects of `closeConnection` on a manager holding `channel` and
      `connection`: the channel is closed first, each is skipped when absent,
      and the first `close` that throws ends the sequence with a logged error. */
  function CloseEvents(channel: Option<Handle>, connection: Option<Handle>,
                       channelCloses: bool, connectionCloses: bool): (es: seq<Event>)
    ensures |es| <= 2
    ensures channel.Some? && channelCloses ==> |es| >= 1 && es[0] == ChannelClosed(channel.value)
    ensures channel.Some? && !channelCloses ==> es == [CloseFailed]
    ensures channel.None? && connection.None? ==> es == []
    ensures forall i :: 0 <= i < |es| && es[i].ConnectionClosed? ==> i == |es| - 1 && connection == Some(es[i].connection)
  {
    if channel.Some? && !channelCloses then [CloseFailed]
    else
      (if channel.Some? then [ChannelClosed(channel.value)] else [])
      + (if connection.None? then [] else if connectionCloses then [ConnectionClosed(connection.value)] else [CloseFailed])
  }

  /** The broker hands a delivery to the callback registered for `queue`: its
      body is parsed, the callback is called and not awaited, and the message
      is acked straight away. A body that is not JSON throws before the
      callback and the ack. The result is the new record and what the
      callback receives; both managers behave alike here. */
  function Deliver(log: seq<Event>, queue: string, d: Delivery): (r: (seq<Event>, Option<Message>))
    requires ConsumerRegistered(queue) in log
    ensures r.1 == d.content
    ensures d.content.Some? ==> r.0 == log + [Acked(d.tag)]
    ensures d.content.None? ==> r.0 == log
  {
    if d.content.None? then (log, None) else (log + [Acked(d.tag)], d.content)
  }

  /** An acknowledgement is recorded for exactly the deliveries the callback
      receives, and the earlier record is kept. */
  lemma DeliverAcksWhatItHandsOver(log: seq<Event>, queue: string, d: Delivery)
    requires ConsumerRegistered(queue) in log
    ensures var r := Deliver(log, queue, d);
      (r.1.Some? <==> Acked(d.tag) in r.0[|log|..]) && r.0[..|log|] == log
  {
  }

  /** `closeConnection()` on a manager holding `channel` and `connection`:
      only the record grows, by at most two events, and nothing happens when
      neither handle is present. The fields keep their values afterwards. */
  function Close(log: seq<Event>, channel: Option<Handle>, connection: Option<Handle>,
                 channelCloses: bool, connectionCloses: bool): (r: seq<Event>)
    ensures |log| <= |r| <= |log| + 2 && r[..|log|] == log
    ensures channel.None? && connection.None? ==> r == log
  {
    log + CloseEvents(channel, connection, channelCloses, connectionCloses)
  }
}
