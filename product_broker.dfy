/** The product service's broker connection manager
    (product/src/utils/messageBroker.js) as a state machine. Unlike the order
    service's manager it has no in-progress flag and does not await its
    attempt: `connect(queueName)` starts one run of `connectToRabbitMQ` for that
    queue and returns. Attempts in flight and retries scheduled with
    `setTimeout` are kept with the queue each one asserts. */
module ProductBrokerSpec {
  import opened Wrappers
  import opened BrokerCommon

  const MaxRetries: nat := 10
  const ReconnectInterval: nat := 5000
  const DefaultQueue := "orders"

  datatype State = State(
    connection: Option<Handle>,
    channel: Option<Handle>,
    retries: nat,
    inFlight: seq<string>,
    pending: seq<string>,
    openCount: nat,
    log: seq<Event>)

  function Init(): State {
    State(None, None, 0, [], [], 0, [])
  }

  /** Handles are numbered below `openCount`, and a consumer is only
      registered on a channel. */
  ghost predicate Valid(s: State) {
    && (s.channel.Some? ==> s.connection.Some?)
    && (s.connection.Some? ==> s.connection.value.serial < s.openCount)
    && (s.channel.Some? ==> s.channel.value.serial < s.openCount)
    && (forall i :: 0 <= i < |s.log| && s.log[i].ConsumerRegistered? ==> s.channel.Some?)
  }

  /** `connect(queueName)`: one more attempt in flight, whatever the state. */
  function Connect(s: State, queueName: string): (r: State)
    ensures r.inFlight == s.inFlight + [queueName]
    ensures r.(inFlight := s.inFlight) == s
  {
    s.(inFlight := s.inFlight + [queueName])
  }

  /** `connect()` with the default parameter. */
  function ConnectDefault(s: State): (r: State)
    ensures r.inFlight == s.inFlight + ["orders"]
  {
    Connect(s, DefaultQueue)
  }

  /** The `catch` block of an attempt for `queueName`. */
  function Failed(s: State, queueName: string): (r: State)
    ensures r.retries == s.retries + 1
    ensures r.pending == if s.retries + 1 < MaxRetries then s.pending + [queueName] else s.pending
    ensures r.connection == s.connection && r.channel == s.channel
    ensures r.inFlight == s.inFlight && r.openCount == s.openCount
  {
    var retries := s.retries + 1;
    if retries < MaxRetries then s.(retries := retries, pending := s.pending + [queueName])
    else s.(retries := retries, log := s.log + [GaveUp])
  }

  /** Removes position `k` of a sequence. */
  function RemoveAt(q: seq<string>, k: nat): (r: seq<string>)
    requires k < |q|
    ensures |r| == |q| - 1
    ensures forall i :: 0 <= i < k ==> r[i] == q[i]
    ensures forall i :: k <= i < |r| ==> r[i] == q[i + 1]
  {
    q[..k] + q[k + 1..]
  }

  /** The attempt at position `k` of those in flight resolves with `o`. Each
      amqplib object it obtained replaces the manager's current one. */
  function Complete(s: State, k: nat, o: Outcome): (r: State)
    requires k < |s.inFlight|
    ensures r.inFlight == RemoveAt(s.inFlight, k)
    ensures o == Connected <==> r.retries == 0
    ensures o == Connected ==> r.pending == s.pending
    ensures o == Connected ==> r.connection == Some(Handle(s.openCount)) && r.channel == Some(Handle(s.openCount + 1))
    ensures o == Connected ==> r.log == s.log + [QueueAsserted(Handle(s.openCount + 1), s.inFlight[k])]
    ensures IsFailure(o) ==> r.retries == s.retries + 1
    ensures IsFailure(o) ==> (r.pending == s.pending + [s.inFlight[k]] <==> s.retries + 1 < MaxRetries)
    ensures o == ConnectFailed ==> r.connection == s.connection && r.channel == s.channel
    ensures s.channel.Some? ==> r.channel.Some?
    ensures Valid(s) ==> Valid(r)
  {
    var q := s.inFlight[k];
    var s1 := s.(inFlight := RemoveAt(s.inFlight, k));
    if o == ConnectFailed then Failed(s1, q)
    else
      var s2 := s1.(connection := Some(Handle(s.openCount)), openCount := s.openCount + 1);
      if o == ChannelFailed then Failed(s2, q)
      else
        var s3 := s2.(channel := Some(Handle(s2.openCount)), openCount := s2.openCount + 1);
        if o == QueueFailed then Failed(s3, q)
        else assert o.Connected?; s3.(log := s3.log + [QueueAsserted(s3.channel.value, q)], retries := 0)
  }

  /** The retry at position `k` of those scheduled fires. */
  function FireRetry(s: State, k: nat): (r: State)
    requires k < |s.pending|
    ensures r.pending == RemoveAt(s.pending, k)
    ensures r.inFlight == s.inFlight + [s.pending[k]]
    ensures r.(pending := s.pending, inFlight := s.inFlight) == s
    ensures Valid(s) ==> Valid(r)
  {
    s.(pending := RemoveAt(s.pending, k), inFlight := s.inFlight + [s.pending[k]])
  }

  /** `publishMessage(queue, message)`: without a channel it starts an attempt
      for `queue` and returns, so the message is lost. */
  function Publish(s: State, queue: string, m: Message, sendOk: bool): (r: (State, PublishResult))
    ensures s.channel.None? <==> r.1 == Dropped
    ensures r.1 == Dropped ==> r.0 == Connect(s, queue)
    ensures r.1 == Published ==> r.0 == s.(log := s.log + [Sent(queue, m)])
    ensures r.1 == PublishFailed ==> r.0 == s.(log := s.log + [SendFailed(queue, m)])
    ensures Valid(s) ==> Valid(r.0)
  {
    if s.channel.None? then (Connect(s, queue), Dropped)
    else if sendOk then (s.(log := s.log + [Sent(queue, m)]), Published)
    else (s.(log := s.log + [SendFailed(queue, m)]), PublishFailed)
  }

  /** `consumeMessage(queue, callback)`: without a channel it starts an attempt
      for `queue` and returns without registering the callback. */
  function Consume(s: State, queue: string, consumeOk: bool): (r: State)
    ensures s.channel.None? ==> r == Connect(s, queue)
    ensures s.channel.Some? ==> r == s.(log := s.log + [if consumeOk then ConsumerRegistered(queue) else ConsumeFailed(queue)])
    ensures Valid(s) ==> Valid(r)
  {
    if s.channel.None? then Connect(s, queue)
    else if consumeOk then s.(log := s.log + [ConsumerRegistered(queue)])
    else s.(log := s.log + [ConsumeFailed(queue)])
  }

  predicate Consuming(s: State, queue: string) {
    ConsumerRegistered(queue) in s.log
  }

  // ---------------------------------------------------------------------------
  // Properties

  /** Without a guard, every `connect()` starts an attempt, even on a manager
      that is already connected. */
  lemma ConnectIsNeverGuarded(s: State, queueName: string)
    ensures |Connect(s, queueName).inFlight| == |s.inFlight| + 1
    ensures Connect(s, queueName).connection == s.connection
  {
  }

  /** An attempt that succeeds on a manager that is already connected replaces
      both of its amqplib objects with new ones; the old ones are no longer
      reachable and are never closed. */
  lemma {:induction false} RedundantAttemptReplacesHandles(s: State, queueName: string)
    requires Valid(s) && s.connection.Some? && s.channel.Some?
    ensures var t := Complete(Connect(s, queueName), |s.inFlight|, Connected);
      t.connection.Some? && t.connection != s.connection
      && t.channel.Some? && t.channel != s.channel && Valid(t)
  {
    var c := Connect(s, queueName);
    assert c.inFlight[|s.inFlight|] == queueName;
    var t := Complete(c, |s.inFlight|, Connected);
    assert t.connection == Some(Handle(s.openCount));
  }

  /** A failing attempt's retry asserts the same queue as the attempt. */
  lemma RetryKeepsQueue(s: State, k: nat, o: Outcome)
    requires k < |s.inFlight| && IsFailure(o) && s.retries + 1 < MaxRetries
    ensures var t := Complete(s, k, o);
      |t.pending| == |s.pending| + 1 && t.pending[|s.pending|] == s.inFlight[k]
  {
  }

  /** The failure count is shared by all attempts in flight: a failure of any
      of them, and a success of any of them, acts on the same counter. Ten
      failures in a row, from whichever attempts, leave no retry scheduled by
      the tenth. */
  lemma {:induction false} CapCountsAllAttempts(s: State, k: nat, o: Outcome)
    requires k < |s.inFlight| && IsFailure(o) && s.retries + 1 >= MaxRetries
    ensures Complete(s, k, o).pending == s.pending
  {
    var t := Complete(s, k, o);
    assert t.retries == s.retries + 1;
  }

  /** A publish without a channel never sends. */
  lemma DroppedPublishLeavesRecord(s: State, queue: string, m: Message, sendOk: bool)
    requires s.channel.None?
    ensures Publish(s, queue, m, sendOk).0.log == s.log
    ensures Publish(s, queue, m, sendOk).1 == Dropped
  {
  }
}

/** The manager object with its fields updated in place. */
module ProductBroker {
  import opened Wrappers
  import opened BrokerCommon
  import Spec = ProductBrokerSpec

  class MessageBroker {
    var channel: Option<Handle>
    var connection: Option<Handle>
    var retries: nat
    var inFlight: seq<string>
    var pending: seq<string>
    var openCount: nat
    var log: seq<Event>

    const reconnectInterval: nat
    const maxRetries: nat

    function Model(): Spec.State
      reads this
    {
      Spec.State(connection, channel, retries, inFlight, pending, openCount, log)
    }

    ghost predicate Valid()
      reads this
    {
      Spec.Valid(Model()) && maxRetries == Spec.MaxRetries && reconnectInterval == Spec.ReconnectInterval
    }

    constructor ()
      ensures Valid()
      ensures Model() == Spec.Init()
      ensures maxRetries == 10 && reconnectInterval == 5000
    {
      channel := None;
      connection := None;
      reconnectInterval := Spec.ReconnectInterval;
      maxRetries := Spec.MaxRetries;
      retries := 0;
      inFlight, pending, openCount, log := [], [], 0, [];
    }

    /** `connect(queueName = "orders")`. */
    method Connect(queueName: string := "orders")
      requires Valid()
      modifies this
      ensures Valid()
      ensures Model() == Spec.Connect(old(Model()), queueName)
    {
      inFlight := inFlight + [queueName];
    }

    method Fail(queueName: string)
      modifies this
      ensures Model() == Spec.Failed(old(Model()), queueName)
    {
      retries := retries + 1;
      if retries < Spec.MaxRetries {
        pending := pending + [queueName];
      } else {
        log := log + [GaveUp];
      }
    }

    /** The attempt at position `k` of those in flight resolves with `o`. */
    method CompleteAttempt(k: nat, o: Outcome)
      requires Valid() && k < |inFlight|
      modifies this
      ensures Valid()
      ensures Model() == Spec.Complete(old(Model()), k, o)
    {
      var queueName := inFlight[k];
      inFlight := Spec.RemoveAt(inFlight, k);
      if o == ConnectFailed {
        Fail(queueName);
        return;
      }
      connection := Some(Handle(openCount));
      openCount := openCount + 1;
      if o == ChannelFailed {
        Fail(queueName);
        return;
      }
      channel := Some(Handle(openCount));
      openCount := openCount + 1;
      if o == QueueFailed {
        Fail(queueName);
        return;
      }
      log := log + [QueueAsserted(channel.value, queueName)];
      retries := 0;
    }

    /** The retry at position `k` of those scheduled fires. */
    method FireRetry(k: nat)
      requires Valid() && k < |pending|
      modifies this
      ensures Valid()
      ensures Model() == Spec.FireRetry(old(Model()), k)
    {
      inFlight := inFlight + [pending[k]];
      pending := Spec.RemoveAt(pending, k);
    }

    method PublishMessage(queue: string, message: Message, sendOk: bool) returns (r: PublishResult)
      requires Valid()
      modifies this
      ensures Valid()
      ensures (Model(), r) == Spec.Publish(old(Model()), queue, message, sendOk)
    {
      if channel.None? {
        Connect(queue);
        return Dropped;
      }
      if sendOk {
        log := log + [Sent(queue, message)];
        r := Published;
      } else {
        log := log + [SendFailed(queue, message)];
        r := PublishFailed;
      }
    }

    method ConsumeMessage(queue: string, consumeOk: bool)
      requires Valid()
      modifies this
      ensures Valid()
      ensures Model() == Spec.Consume(old(Model()), queue, consumeOk)
    {
      if channel.None? {
        Connect(queue);
        return;
      }
      log := log + [if consumeOk then ConsumerRegistered(queue) else ConsumeFailed(queue)];
    }

    method Deliver(queue: string, d: Delivery) returns (m: Option<Message>)
      requires Valid() && Spec.Consuming(Model(), queue)
      modifies this
      ensures Valid()
      ensures var r := BrokerCommon.Deliver(old(log), queue, d);
        Model() == old(Model()).(log := r.0) && m == r.1
    {
      m := d.content;
      if m.Some? {
        log := log + [Acked(d.tag)];
      }
    }

    method CloseConnection(channelCloses: bool, connectionCloses: bool)
      requires Valid()
      modifies this
      ensures Valid()
      ensures Model() == old(Model()).(log := BrokerCommon.Close(old(log), old(channel), old(connection), channelCloses, connectionCloses))
    {
      if channel.Some? {
        if !channelCloses {
          log := log + [CloseFailed];
          return;
        }
        log := log + [ChannelClosed(channel.value)];
      }
      if connection.Some? {
        log := log + [if connectionCloses then ConnectionClosed(connection.value) else CloseFailed];
      }
    }
  }
}
