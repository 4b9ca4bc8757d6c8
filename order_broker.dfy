/** The order service's broker connection manager (order/src/utils/messageBroker.js)
    as a state machine. A connection attempt is the closure `connectToRabbitMQ`;
    its amqplib calls are one atomic step whose outcome is an input. The events
    are: `connect()` running up to its first await (`StartConnect`), an attempt
    in flight resolving (`Complete`), and a `setTimeout` retry firing
    (`FireRetry`). */
module OrderBrokerSpec {
  import opened Wrappers
  import opened BrokerCommon

  const MaxRetries: nat := 10
  const ReconnectInterval: nat := 5000
  const QueueName := "orders"

  /** The manager's fields, the attempts in flight, the retries scheduled with
      `setTimeout` and not yet fired, the number of amqplib objects opened, and
      the record of effects on the broker. */
  datatype State = State(
    connection: Option<Handle>,
    channel: Option<Handle>,
    isConnecting: bool,
    retries: nat,
    inFlight: nat,
    pending: nat,
    openCount: nat,
    log: seq<Event>)

  /** The constructor's fields: nothing open, not connecting, no retries. */
  function Init(): State {
    State(None, None, false, 0, 0, 0, 0, [])
  }

  /** What the manager keeps true between events: the in-flight flag is only
      raised while an attempt runs, a channel is only obtained on a connection,
      a consumer is only registered on a channel, and handles are numbered
      below `openCount`. */
  ghost predicate Valid(s: State) {
    && (s.isConnecting ==> s.inFlight > 0)
    && (s.channel.Some? ==> s.connection.Some?)
    && (s.connection.Some? ==> s.connection.value.serial < s.openCount)
    && (s.channel.Some? ==> s.channel.value.serial < s.openCount)
    && (forall i :: 0 <= i < |s.log| && s.log[i].ConsumerRegistered? ==> s.channel.Some?)
  }

  /** The guard at the top of `connect()`. */
  predicate Guarded(s: State) {
    s.isConnecting || s.connection.Some?
  }

  /** `connect()` up to its first await: unless guarded, raise the flag and
      start one attempt. */
  function StartConnect(s: State): State {
    if Guarded(s) then s else s.(isConnecting := true, inFlight := s.inFlight + 1)
  }

  /** The `catch` block of the attempt closure. */
  function Failed(s: State): (r: State)
    ensures r.retries == s.retries + 1 && !r.isConnecting
    ensures r.pending == if s.retries + 1 < MaxRetries then s.pending + 1 else s.pending
    ensures r.connection == s.connection && r.channel == s.channel
    ensures r.inFlight == s.inFlight && r.openCount == s.openCount
  {
    var retries := s.retries + 1;
    if retries < MaxRetries then s.(retries := retries, isConnecting := false, pending := s.pending + 1)
    else s.(retries := retries, isConnecting := false, log := s.log + [GaveUp])
  }

  /** An attempt in flight resolves with outcome `o`. Each amqplib call that
      returned has had its result stored before the next one failed. */
  function Complete(s: State, o: Outcome): (r: State)
    requires s.inFlight > 0
    ensures r.inFlight == s.inFlight - 1
    ensures o == Connected <==> r.retries == 0
    ensures o == Connected ==> !r.isConnecting && r.pending == s.pending
    ensures o == Connected ==> r.connection == Some(Handle(s.openCount)) && r.channel == Some(Handle(s.openCount + 1))
    ensures o == Connected ==> r.log == s.log + [QueueAsserted(Handle(s.openCount + 1), QueueName)]
    ensures IsFailure(o) ==> r.retries == s.retries + 1 && !r.isConnecting
    ensures IsFailure(o) ==> (r.pending == s.pending + 1 <==> s.retries + 1 < MaxRetries)
    ensures IsFailure(o) ==> (r.pending == s.pending <==> s.retries + 1 >= MaxRetries)
    ensures o == ConnectFailed ==> r.connection == s.connection && r.channel == s.channel
    ensures s.channel.Some? ==> r.channel.Some?
    ensures Valid(s) ==> Valid(r)
  {
    var s1 := s.(inFlight := s.inFlight - 1);
    if o == ConnectFailed then Failed(s1)
    else
      var s2 := s1.(connection := Some(Handle(s.openCount)), openCount := s.openCount + 1);
      if o == ChannelFailed then Failed(s2)
      else
        var s3 := s2.(channel := Some(Handle(s2.openCount)), openCount := s2.openCount + 1);
        if o == QueueFailed then Failed(s3)
        else assert o.Connected?; s3.(log := s3.log + [QueueAsserted(s3.channel.value, QueueName)], retries := 0, isConnecting := false)
  }

  /** A retry scheduled by `setTimeout` fires: the closure runs again, without
      passing through the guard of `connect()` and without raising the flag. */
  function FireRetry(s: State): (r: State)
    requires s.pending > 0
    ensures r.pending == s.pending - 1 && r.inFlight == s.inFlight + 1
    ensures r.isConnecting == s.isConnecting && r.connection == s.connection && r.channel == s.channel
    ensures r.retries == s.retries && r.log == s.log
    ensures Valid(s) ==> Valid(r)
  {
    s.(pending := s.pending - 1, inFlight := s.inFlight + 1)
  }

  /** An awaited `connect()` whose own attempt, if it starts one, ends with `o`
      before anything else happens. */
  function Connect(s: State, o: Outcome): (r: State)
    ensures Guarded(s) ==> r == s
    ensures !Guarded(s) ==> r.inFlight == s.inFlight && !r.isConnecting
    ensures !Guarded(s) ==> (o == Connected <==> r.retries == 0)
    ensures !Guarded(s) && o == Connected ==> r.channel.Some? && r.pending == s.pending
    ensures !Guarded(s) && IsFailure(o) ==> r.retries == s.retries + 1
    ensures Valid(s) ==> Valid(r)
  {
    if Guarded(s) then s else Complete(StartConnect(s), o)
  }

  /** `publishMessage(queue, message)`: with no channel it awaits `connect()` and
      returns, so the message is lost; otherwise `sendToQueue`, whose throw is
      logged and swallowed. */
  function Publish(s: State, queue: string, m: Message, o: Outcome, sendOk: bool): (r: (State, PublishResult))
    ensures s.channel.None? <==> r.1 == Dropped
    ensures r.1 == Dropped ==> r.0 == Connect(s, o)
    ensures r.1 == Published ==> r.0 == s.(log := s.log + [Sent(queue, m)])
    ensures r.1 == PublishFailed ==> r.0 == s.(log := s.log + [SendFailed(queue, m)])
    ensures Valid(s) ==> Valid(r.0)
  {
    if s.channel.None? then (Connect(s, o), Dropped)
    else if sendOk then (s.(log := s.log + [Sent(queue, m)]), Published)
    else (s.(log := s.log + [SendFailed(queue, m)]), PublishFailed)
  }

  /** `consumeMessage(queue, callback)`: with no channel it awaits `connect()`
      and goes on regardless; `this.channel.consume` on a still-missing channel
      throws, which is logged like a refused `consume`. */
  function Consume(s: State, queue: string, o: Outcome, consumeOk: bool): (r: State)
    ensures s.channel.Some? ==> r == s.(log := s.log + [if consumeOk then ConsumerRegistered(queue) else ConsumeFailed(queue)])
    ensures s.channel.None? && Guarded(s) ==> r == s.(log := s.log + [ConsumeFailed(queue)])
    ensures s.channel.None? && !Guarded(s) ==> var c := Connect(s, o);
      r == c.(log := c.log + [if c.channel.Some? && consumeOk then ConsumerRegistered(queue) else ConsumeFailed(queue)])
    ensures s.channel.None? && !Guarded(s) && o == Connected ==> (Consuming(r, queue) <==> consumeOk || Consuming(s, queue))
    ensures !consumeOk ==> !Consuming(r, queue) || Consuming(s, queue)
    ensures Valid(s) ==> Valid(r)
  {
    var s1 := if s.channel.None? then Connect(s, o) else s;
    if s1.channel.Some? && consumeOk then s1.(log := s1.log + [ConsumerRegistered(queue)])
    else s1.(log := s1.log + [ConsumeFailed(queue)])
  }

  predicate Consuming(s: State, queue: string) {
    ConsumerRegistered(queue) in s.log
  }

  // ---------------------------------------------------------------------------
  // Properties of the state machine

  /** The number of attempts a chain of retries makes when every attempt fails
      with `f` and nothing else happens meanwhile: the attempt in flight, then
      one more for each retry it schedules. */
  function ChainAttempts(s: State, f: Outcome): nat
    requires s.inFlight > 0 && IsFailure(f)
    decreases if s.retries < MaxRetries then MaxRetries - s.retries else 0
  {
    var s1 := Complete(s, f);
    if s1.pending > s.pending then 1 + ChainAttempts(FireRetry(s1), f) else 1
  }

  /** The retry cap: a failing chain started with `retries` below the cap
      makes exactly `MaxRetries - retries` attempts (ten from a fresh manager),
      and once the cap is reached an attempt schedules no retry. */
  lemma {:induction false} FailureChainIsCapped(s: State, f: Outcome)
    requires s.inFlight > 0 && IsFailure(f)
    ensures ChainAttempts(s, f) == if s.retries < MaxRetries then MaxRetries - s.retries else 1
    decreases if s.retries < MaxRetries then MaxRetries - s.retries else 0
  {
    var s1 := Complete(s, f);
    if s1.pending > s.pending {
      FailureChainIsCapped(FireRetry(s1), f);
    }
  }

  /** A fresh manager whose every attempt fails makes ten attempts and then
      gives up. */
  lemma FreshManagerGivesUpAfterTenAttempts(f: Outcome)
    requires IsFailure(f)
    ensures ChainAttempts(StartConnect(Init()), f) == 10
  {
    FailureChainIsCapped(StartConnect(Init()), f);
  }

  /** Two `connect()` calls before the first attempt resolves start one
      attempt: the second finds the flag raised. */
  lemma ConcurrentConnectsStartOneAttempt(s: State)
    requires !Guarded(s)
    ensures StartConnect(StartConnect(s)) == StartConnect(s)
    ensures StartConnect(s).inFlight == s.inFlight + 1
  {
  }

  /** The flag is lowered by a failure even though a retry is scheduled, so a
      `connect()` while the retry is pending starts a second, independent
      attempt. */
  lemma ConnectDuringPendingRetryStartsAnotherAttempt(s: State)
    requires !Guarded(s) && s.retries + 1 < MaxRetries
    ensures var t := Complete(StartConnect(s), ConnectFailed);
      t.pending == s.pending + 1 && !t.isConnecting && !Guarded(t)
      && StartConnect(t).inFlight == t.inFlight + 1
  {
  }

  /** After an attempt that connected but could not open a channel, the guard
      sees the connection: every later `connect()` is a no-op, and every
      publish drops its message without touching the broker. */
  lemma StrandedConnectionDropsEveryPublish(s: State, queue: string, m: Message, o: Outcome, sendOk: bool)
    requires s.connection.Some? && s.channel.None?
    ensures Connect(s, o) == s
    ensures Publish(s, queue, m, o, sendOk) == (s, Dropped)
  {
  }

  /** A publish without a channel never sends: whatever the attempt it
      triggers does, the record gains no `Sent` event. */
  lemma {:induction false} DroppedPublishSendsNothing(s: State, queue: string, m: Message, o: Outcome, sendOk: bool)
    requires s.channel.None? && !AnySent(s.log)
    ensures Publish(s, queue, m, o, sendOk).1 == Dropped
    ensures !AnySent(Publish(s, queue, m, o, sendOk).0.log)
  {
    var r := Publish(s, queue, m, o, sendOk).0;
    assert r == Connect(s, o);
    if !Guarded(s) {
      var t := StartConnect(s);
      var u := Complete(t, o);
      assert u.log == s.log || u.log == s.log + [GaveUp] || u.log == s.log + [QueueAsserted(u.channel.value, QueueName)];
    }
  }

}

/** The manager object itself: the JavaScript class with its fields updated in
    place. Each method's new state is the corresponding transition above. */
module OrderBroker {
  import opened Wrappers
  import opened BrokerCommon
  import Spec = OrderBrokerSpec

  class MessageBroker {
    var channel: Option<Handle>
    var connection: Option<Handle>
    var isConnecting: bool
    var retries: nat
    var inFlight: nat
    var pending: nat
    var openCount: nat
    var log: seq<Event>

    const reconnectInterval: nat
    const maxRetries: nat

    function Model(): Spec.State
      reads this
    {
      Spec.State(connection, channel, isConnecting, retries, inFlight, pending, openCount, log)
    }

    ghost predicate Valid()
      reads this
    {
      Spec.Valid(Model()) && maxRetries == Spec.MaxRetries && reconnectInterval == Spec.ReconnectInterval
    }

    constructor ()
      ensures Valid()
      ensures Model() == Spec.Init()
      ensures channel.None? && connection.None? && !isConnecting && retries == 0
      ensures maxRetries == 10 && reconnectInterval == 5000
    {
      channel := None;
      connection := None;
      isConnecting := false;
      reconnectInterval := Spec.ReconnectInterval;
      maxRetries := Spec.MaxRetries;
      retries := 0;
      inFlight, pending, openCount, log := 0, 0, 0, [];
    }

    /** `connect()` up to its first await. */
    method StartConnect() returns (started: bool)
      requires Valid()
      modifies this
      ensures Valid()
      ensures started <==> !Spec.Guarded(old(Model()))
      ensures Model() == Spec.StartConnect(old(Model()))
    {
      if isConnecting || connection.Some? {
        return false;
      }
      isConnecting := true;
      inFlight := inFlight + 1;
      return true;
    }

    /** The `catch` block of `connectToRabbitMQ`. */
    method Fail()
      modifies this
      ensures Model() == Spec.Failed(old(Model()))
    {
      retries := retries + 1;
      isConnecting := false;
      if retries < Spec.MaxRetries {
        pending := pending + 1;
      } else {
        log := log + [GaveUp];
      }
    }

    /** An attempt in flight resolves: the awaits of `connectToRabbitMQ` in
        order, each result stored before the next call. */
    method CompleteAttempt(o: Outcome)
      requires Valid() && inFlight > 0
      modifies this
      ensures Valid()
      ensures Model() == Spec.Complete(old(Model()), o)
    {
      inFlight := inFlight - 1;
      if o == ConnectFailed {
        Fail();
        return;
      }
      connection := Some(Handle(openCount));
      openCount := openCount + 1;
      if o == ChannelFailed {
        Fail();
        return;
      }
      channel := Some(Handle(openCount));
      openCount := openCount + 1;
      if o == QueueFailed {
        Fail();
        return;
      }
      log := log + [QueueAsserted(channel.value, Spec.QueueName)];
      retries := 0;
      isConnecting := false;
    }

    /** A retry scheduled with `setTimeout` fires. */
    method FireRetry()
      requires Valid() && pending > 0
      modifies this
      ensures Valid()
      ensures Model() == Spec.FireRetry(old(Model()))
    {
      pending := pending - 1;
      inFlight := inFlight + 1;
    }

    /** `await connect()`: the attempt it starts, if any, ends with `o`. */
    method Connect(o: Outcome)
      requires Valid()
      modifies this
      ensures Valid()
      ensures Model() == Spec.Connect(old(Model()), o)
    {
      var started := StartConnect();
      if started {
        CompleteAttempt(o);
      }
    }

    method PublishMessage(queue: string, message: Message, o: Outcome, sendOk: bool) returns (r: PublishResult)
      requires Valid()
      modifies this
      ensures Valid()
      ensures (Model(), r) == Spec.Publish(old(Model()), queue, message, o, sendOk)
    {
      if channel.None? {
        Connect(o);
        return Dropped;
      }
      if sendOk {
        log := log + [Sent(queue, message)];
        r := Published;
      } else {
        log := log + [SendFailed(queue, message)];
        r := PublishFailed;
      }
    }

    method ConsumeMessage(queue: string, o: Outcome, consumeOk: bool)
      requires Valid()
      modifies this
      ensures Valid()
      ensures Model() == Spec.Consume(old(Model()), queue, o, consumeOk)
    {
      if channel.None? {
        Connect(o);
      }
      if channel.Some? && consumeOk {
        log := log + [ConsumerRegistered(queue)];
      } else {
        log := log + [ConsumeFailed(queue)];
      }
    }

    /** The consumer callback registered by `consumeMessage` runs on `d`. */
    method Deliver(queue: string, d: Delivery) returns (m: Option<Message>)
      requires Valid() && Spec.Consuming(Model(), queue)
      modifies this
      ensures Valid()
      ensures var r := BrokerCommon.Deliver(old(log), queue, d);
        Model() == old(Model()).(log := r.0) && m == r.1
    {
      m := d.content;
      if m.Some? {
        log := log + [Acked(d.tag)];
      }
    }

    method CloseConnection(channelCloses: bool, connectionCloses: bool)
      requires Valid()
      modifies this
      ensures Valid()
      ensures Model() == old(Model()).(log := BrokerCommon.Close(old(log), old(channel), old(connection), channelCloses, connectionCloses))
    {
      if channel.Some? {
        if !channelCloses {
          log := log + [CloseFailed];
          return;
        }
        log := log + [ChannelClosed(channel.value)];
      }
      if connection.Some? {
        log := log + [if connectionCloses then ConnectionClosed(connection.value) else CloseFailed];
      }
    }
  }
}
