/** What the broker guarantees over every sequence of operations. */
module BrokerProofs {
  import opened Ids
  import opened Broker

  // ------------------------------------------------------------------
  // One operation

  lemma SubscriptionOfOk(b: Broker, key: Key)
    requires BrokerOk(b)
    ensures SubscriptionOk(SubscriptionOf(b, key), TopicOf(b.topics, key.topic))
  {
    if key !in b.subscriptions {
      EnqueueAllOk(TopicOf(b.topics, key.topic));
    }
  }

  lemma PublishTopics(messages: map<Text, Message>, topics: map<Text, seq<Text>>, m: Message)
    requires TopicsOk(messages, topics) && m.id !in messages
    ensures m.id !in TopicOf(topics, m.topic)
    ensures TopicsOk(messages[m.id := m], topics[m.topic := TopicOf(topics, m.topic) + [m.id]])
  {
    hide Distinct;
    var topic := TopicOf(topics, m.topic);
    var nextMessages, nextTopics := messages[m.id := m], topics[m.topic := topic + [m.id]];
    assert m.id !in topic;
    forall t | t in nextTopics ensures Distinct(nextTopics[t]) {
      TopicDistinct(messages, topics, m.topic);
      if t == m.topic { DistinctSnoc(topic, m.id); }
    }
    forall t, id | t in nextTopics && id in nextTopics[t] ensures id in nextMessages && nextMessages[id].topic == t {
      if id != m.id { assert id in TopicOf(topics, t); }
    }
    forall id | id in nextMessages ensures nextMessages[id].id == id
    && id in TopicOf(nextTopics, nextMessages[id].topic) {
      if id == m.id {
        LastIn(topic, m.id);
      } else {
        assert id in TopicOf(topics, messages[id].topic);
      }
    }
  }

  lemma TopicDistinct(messages: map<Text, Message>, topics: map<Text, seq<Text>>, t: Text)
    requires TopicsOk(messages, topics)
    ensures Distinct(TopicOf(topics, t))
  {
  }

  lemma DistinctSnoc(s: seq<Text>, x: Text)
    requires Distinct(s) && x !in s
    ensures Distinct(s + [x])
  {
  }

  lemma LastIn(s: seq<Text>, x: Text)
    ensures x in s + [x]
  {
    assert (s + [x])[|s|] == x;
  }

  lemma PublishSubscription(s: Subscription, topics: map<Text, seq<Text>>, key: Key, m: Message)
    requires SubscriptionOk(s, TopicOf(topics, key.topic)) && m.id !in TopicOf(topics, m.topic)
    ensures var next := topics[m.topic := TopicOf(topics, m.topic) + [m.id]];
            SubscriptionOk(if key.topic == m.topic then Enqueue(s, m.id) else s, TopicOf(next, key.topic))
  {
    if key.topic == m.topic {
      EnqueueNew(s, TopicOf(topics, key.topic), m.id);
    }
  }

  lemma PublishOk(b: Broker, m: Message)
    requires BrokerOk(b) && Publish(b, m).Ok?
    ensures BrokerOk(Publish(b, m).value)
  {
    if m.id !in b.messages {
      PublishTopics(b.messages, b.topics, m);
      forall key | key in b.subscriptions {
        PublishSubscription(b.subscriptions[key], b.topics, key, m);
      }
    }
  }

  lemma ReplaceSubscription(b: Broker, key: Key, s: Subscription)
    requires BrokerOk(b) && SubscriptionOk(s, TopicOf(b.topics, key.topic))
    ensures BrokerOk(b.(subscriptions := b.subscriptions[key := s]))
  {
  }

  lemma ReceiveOk(b: Broker, key: Key)
    requires BrokerOk(b) && Receive(b, key).Ok?
    ensures BrokerOk(Receive(b, key).value.0)
    ensures Receive(b, key).value.1.Some? ==> Delivers(b, key, Receive(b, key).value.1.value)
  {
    SubscriptionOfOk(b, key);
    var s := SubscriptionOf(b, key);
    var topic := TopicOf(b.topics, key.topic);
    if s.queued == [] {
      ReplaceSubscription(b, key, s);
    } else {
      TakeHeadOk(s, topic);
      ReplaceSubscription(b, key, TakeHead(s));
      TakeHeadInOrder(s, topic);
      assert s.queued[0] in topic;
    }
  }

  /** A delivery hands out a published message of the topic, never an acknowledged one, under the
      next delivery count; a first delivery is the next message in the order of publication. */
  predicate Delivers(b: Broker, key: Key, d: Delivery) {
    var s := SubscriptionOf(b, key);
    var topic := TopicOf(b.topics, key.topic);
    && d.key == key
    && d.message.id in topic && d.message.id in b.messages && d.message == b.messages[d.message.id]
    && d.message.id !in s.acked && d.message.id !in s.inFlight
    && d.count == CountOf(s, d.message.id) + 1
    && (d.count == 1 ==> |s.deliveryCount| < |topic| && d.message.id == topic[|s.deliveryCount|])
  }

  lemma AckOk(b: Broker, d: Delivery)
    requires BrokerOk(b) && d.count >= 1 && Ack(b, d).Ok?
    ensures BrokerOk(Ack(b, d).value)
  {
    AcknowledgedOk(b.subscriptions[d.key], TopicOf(b.topics, d.key.topic), d.message.id);
    ReplaceSubscription(b, d.key, Acknowledged(b.subscriptions[d.key], d.message.id));
  }

  lemma NackOk(b: Broker, d: Delivery)
    requires BrokerOk(b) && d.count >= 1 && Nack(b, d).Ok?
    ensures BrokerOk(Nack(b, d).value)
  {
    RequeuedOk(b.subscriptions[d.key], TopicOf(b.topics, d.key.topic), d.message.id);
    ReplaceSubscription(b, d.key, Requeued(b.subscriptions[d.key], d.message.id));
  }

  // ------------------------------------------------------------------
  // Sequences of operations

  datatype Op =
    | DoPublish(m: Message) | DoReceive(key: Key) | DoAck(d: Delivery) | DoNack(d: Delivery) | DoProgress(d: Delivery)
    | DoClose

  // Deliveries come from Receive, which counts from one.
  predicate OpOk(op: Op) {
    match op
    case DoAck(d) => d.count >= 1
    case DoNack(d) => d.count >= 1
    case _ => true
  }

  function Apply(b: Broker, op: Op): Broker {
    match op
    case DoPublish(m) => (match Publish(b, m) case Ok(next) => next case Err(_) => b)
    case DoReceive(key) => (match Receive(b, key) case Ok(r) => r.0 case Err(_) => b)
    case DoAck(d) => (match Ack(b, d) case Ok(next) => next case Err(_) => b)
    case DoNack(d) => (match Nack(b, d) case Ok(next) => next case Err(_) => b)
    case DoProgress(_) => b
    case DoClose => b.(closed := true)
  }

  function ApplyAll(b: Broker, ops: seq<Op>): Broker
    decreases |ops|
  {
    if ops == [] then b else ApplyAll(Apply(b, ops[0]), ops[1..])
  }

  predicate OpsOk(ops: seq<Op>) {
    forall i :: 0 <= i < |ops| ==> OpOk(ops[i])
  }

  lemma ApplyOk(b: Broker, op: Op)
    requires BrokerOk(b) && OpOk(op)
    ensures BrokerOk(Apply(b, op))
  {
    match op
    case DoPublish(m) => if Publish(b, m).Ok? { PublishOk(b, m); }
    case DoReceive(key) => if Receive(b, key).Ok? { ReceiveOk(b, key); }
    case DoAck(d) => if Ack(b, d).Ok? { AckOk(b, d); }
    case DoNack(d) => if Nack(b, d).Ok? { NackOk(b, d); }
    case DoProgress(_) =>
    case DoClose =>
  }

  /** Conservation over every run: in every subscription, whenever it was created, each message of
      its topic is queued once, in flight once or acknowledged, and nothing else is anywhere. */
  lemma {:induction false} AlwaysConserved(b: Broker, ops: seq<Op>)
    requires BrokerOk(b) && OpsOk(ops)
    ensures BrokerOk(ApplyAll(b, ops))
    decreases |ops|
  {
    if ops != [] {
      ApplyOk(b, ops[0]);
      AlwaysConserved(Apply(b, ops[0]), ops[1..]);
    }
  }

  lemma EmptyBrokerOk()
    ensures BrokerOk(EMPTY_BROKER)
  {
  }

  /** A delivery that can no longer be settled, although it was made. */
  predicate Spent(b: Broker, d: Delivery) {
    && d.count >= 1 && d.key in b.subscriptions
    && CountOf(b.subscriptions[d.key], d.message.id) >= d.count
    && !Active(b, d)
  }

  lemma SettlingSpends(b: Broker, d: Delivery)
    requires BrokerOk(b) && d.count >= 1
    ensures Ack(b, d).Ok? ==> Spent(Ack(b, d).value, d)
    ensures Nack(b, d).Ok? ==> Spent(Nack(b, d).value, d)
  {
    hide BrokerOk;
    if Active(b, d) { InFlightCounted(b, d.key); }
  }

  lemma InFlightCounted(b: Broker, key: Key)
    requires BrokerOk(b) && key in b.subscriptions
    ensures Counted(b.subscriptions[key])
  {
  }

  /** How one subscription may change in one operation on it. */
  ghost predicate Evolves(s: Subscription, next: Subscription) {
    && (forall id :: CountOf(s, id) <= CountOf(next, id))
    && s.acked <= next.acked
    && (forall id :: id in next.inFlight ==>
          (id in s.inFlight && next.inFlight[id] == s.inFlight[id]) || next.inFlight[id] == CountOf(s, id) + 1)
  }

  lemma EvolvesSame(s: Subscription)
    ensures Evolves(s, s)
  {
  }

  lemma EnqueueEvolves(s: Subscription, id: Text)
    ensures Evolves(s, Enqueue(s, id))
  {
  }

  lemma TakeHeadEvolves(s: Subscription)
    requires s.queued != []
    ensures Evolves(s, TakeHead(s))
  {
  }

  lemma SettleEvolves(s: Subscription, id: Text)
    ensures Evolves(s, Acknowledged(s, id))
    ensures Evolves(s, Requeued(s, id))
  {
  }

  lemma ApplyEvolves(b: Broker, op: Op, key: Key)
    requires key in b.subscriptions
    ensures key in Apply(b, op).subscriptions
    ensures Evolves(b.subscriptions[key], Apply(b, op).subscriptions[key])
  {
    var s := b.subscriptions[key];
    EvolvesSame(s);
    match op
    case DoPublish(m) => EnqueueEvolves(s, m.id);
    case DoReceive(k) => if s.queued != [] { TakeHeadEvolves(s); }
    case DoAck(d) => SettleEvolves(s, d.message.id);
    case DoNack(d) => SettleEvolves(s, d.message.id);
    case _ =>
  }

  lemma SpentStep(b: Broker, op: Op, d: Delivery)
    requires BrokerOk(b) && OpOk(op) && Spent(b, d)
    ensures Spent(Apply(b, op), d)
  {
    hide BrokerOk, Apply, OpOk;
    ApplyEvolves(b, op, d.key);
  }

  /** Each delivery settles at most once: after an Ack or Nack has succeeded, no later Ack, Nack or
      Progress of the same delivery ever succeeds, whatever happens in between. */
  lemma {:induction false} SettlesAtMostOnce(b: Broker, d: Delivery, ops: seq<Op>)
    requires BrokerOk(b) && OpsOk(ops) && Spent(b, d)
    ensures Spent(ApplyAll(b, ops), d)
    ensures Ack(ApplyAll(b, ops), d).Err? && Nack(ApplyAll(b, ops), d).Err? && Progress(ApplyAll(b, ops), d).Err?
    decreases |ops|
  {
    hide BrokerOk, Apply;
    if ops != [] {
      SpentStep(b, ops[0], d);
      ApplyOk(b, ops[0]);
      SettlesAtMostOnce(Apply(b, ops[0]), d, ops[1..]);
    }
  }

  predicate IsAcked(b: Broker, key: Key, id: Text) {
    key in b.subscriptions && id in b.subscriptions[key].acked
  }

  lemma AckedNow(b: Broker, key: Key, id: Text)
    requires BrokerOk(b) && IsAcked(b, key, id)
    ensures var r := Receive(b, key); r.Ok? && r.value.1.Some? ==> r.value.1.value.message.id != id
  {
    hide BrokerOk, ValidKey;
    if Receive(b, key).Ok? {
      ReceiveOk(b, key);
    }
  }

  /** An acknowledged message never returns to the subscription that acknowledged it. */
  lemma {:induction false} AckedForever(b: Broker, key: Key, id: Text, ops: seq<Op>)
    requires BrokerOk(b) && OpsOk(ops) && IsAcked(b, key, id)
    ensures IsAcked(ApplyAll(b, ops), key, id)
    ensures var r := Receive(ApplyAll(b, ops), key); r.Ok? && r.value.1.Some? ==> r.value.1.value.message.id != id
    decreases |ops|
  {
    hide BrokerOk, Apply, OpOk;
    if ops == [] {
      AckedNow(b, key, id);
    } else {
      ApplyEvolves(b, ops[0], key);
      ApplyOk(b, ops[0]);
      AckedForever(Apply(b, ops[0]), key, id, ops[1..]);
    }
  }

  // ------------------------------------------------------------------
  // First deliveries

  function FirstDelivery(b: Broker, op: Op, key: Key): seq<Text> {
    if op == DoReceive(key) && Receive(b, key).Ok? && Receive(b, key).value.1.Some?
    && Receive(b, key).value.1.value.count == 1
    then [Receive(b, key).value.1.value.message.id]
    else []
  }

  function FirstDeliveries(b: Broker, ops: seq<Op>, key: Key): seq<Text>
    decreases |ops|
  {
    if ops == [] then [] else FirstDelivery(b, ops[0], key) + FirstDeliveries(Apply(b, ops[0]), ops[1..], key)
  }

  function DeliveredOnce(b: Broker, key: Key): nat {
    |SubscriptionOf(b, key).deliveryCount|
  }

  lemma TopicGrows(b: Broker, op: Op, topic: Text)
    ensures TopicOf(b.topics, topic) <= TopicOf(Apply(b, op).topics, topic)
  {
  }

  lemma {:induction false} TopicGrowsAll(b: Broker, ops: seq<Op>, topic: Text)
    ensures TopicOf(b.topics, topic) <= TopicOf(ApplyAll(b, ops).topics, topic)
    decreases |ops|
  {
    if ops != [] {
      TopicGrows(b, ops[0], topic);
      TopicGrowsAll(Apply(b, ops[0]), ops[1..], topic);
    }
  }

  lemma NewSubscriptionUndelivered(b: Broker, key: Key)
    requires TopicsOk(b.messages, b.topics) && key !in b.subscriptions
    ensures SubscriptionOf(b, key).deliveryCount == map[]
  {
    EnqueueAllIs(TopicOf(b.topics, key.topic));
  }

  lemma PublishKeepsCounts(b: Broker, m: Message, key: Key)
    requires key in b.subscriptions && Publish(b, m).Ok?
    ensures SubscriptionOf(Publish(b, m).value, key).deliveryCount == SubscriptionOf(b, key).deliveryCount
  {
  }

  lemma PublishDeliversNothing(b: Broker, m: Message, key: Key)
    requires TopicsOk(b.messages, b.topics) && Publish(b, m).Ok?
    ensures SubscriptionOf(Publish(b, m).value, key).deliveryCount == SubscriptionOf(b, key).deliveryCount
  {
    if key in b.subscriptions {
      PublishKeepsCounts(b, m, key);
    } else {
      NewSubscriptionUndelivered(b, key);
      if m.id !in b.messages {
        PublishTopics(b.messages, b.topics, m);
        NewSubscriptionUndelivered(Publish(b, m).value, key);
      }
    }
  }

  lemma SettlingDeliversNothing(b: Broker, d: Delivery, key: Key)
    ensures Ack(b, d).Ok? ==> DeliveredOnce(Ack(b, d).value, key) == DeliveredOnce(b, key)
    ensures Nack(b, d).Ok? ==> DeliveredOnce(Nack(b, d).value, key) == DeliveredOnce(b, key)
  {
  }

  /** Taking a head counts as a first delivery exactly when its message was never delivered. */
  lemma HeadDelivered(s: Subscription)
    requires Counted(s) && s.queued != []
    ensures |TakeHead(s).deliveryCount| == |s.deliveryCount| + if CountOf(s, s.queued[0]) == 0 then 1 else 0
  {
    CountKeys(s.deliveryCount, s.queued[0], CountOf(s, s.queued[0]) + 1);
  }

  lemma ReceiveDelivers(b: Broker, key: Key)
    requires BrokerOk(b) && Receive(b, key).Ok?
    ensures var n := DeliveredOnce(b, key);
            && DeliveredOnce(Receive(b, key).value.0, key) == n + |FirstDelivery(b, DoReceive(key), key)|
            && (FirstDelivery(b, DoReceive(key), key) != [] ==>
                  n < |TopicOf(b.topics, key.topic)|
                  && FirstDelivery(b, DoReceive(key), key) == [TopicOf(b.topics, key.topic)[n]])
  {
    ReceiveOk(b, key);
    if SubscriptionOf(b, key).queued != [] {
      assert Counted(SubscriptionOf(b, key)) by {
        SubscriptionOfOk(b, key);
      }
      HeadDelivered(SubscriptionOf(b, key));
    }
  }

  lemma OtherReceive(b: Broker, k: Key, key: Key)
    requires Receive(b, k).Ok? && k != key
    ensures DeliveredOnce(Receive(b, k).value.0, key) == DeliveredOnce(b, key)
  {
  }

  lemma FirstDeliveryStep(b: Broker, op: Op, key: Key)
    requires BrokerOk(b)
    ensures var n := DeliveredOnce(b, key);
            && DeliveredOnce(Apply(b, op), key) == n + |FirstDelivery(b, op, key)|
            && (FirstDelivery(b, op, key) != [] ==>
                  n < |TopicOf(b.topics, key.topic)| && FirstDelivery(b, op, key) == [TopicOf(b.topics, key.topic)[n]])
  {
    match op
    case DoReceive(k) =>
      if Receive(b, k).Ok? {
        if k == key { ReceiveDelivers(b, key); } else { OtherReceive(b, k, key); }
      }
    case DoPublish(m) => if Publish(b, m).Ok? { PublishDeliversNothing(b, m, key); }
    case DoAck(d) => SettlingDeliversNothing(b, d, key);
    case DoNack(d) => SettlingDeliversNothing(b, d, key);
    case _ =>
  }

  /** First deliveries follow the order of publication: the i-th message a subscription hands out
      for the first time is the i-th message of its topic not handed out before. */
  lemma {:induction false} FirstDeliveriesInOrder(b: Broker, ops: seq<Op>, key: Key, i: nat)
    requires BrokerOk(b) && OpsOk(ops) && i < |FirstDeliveries(b, ops, key)|
    ensures DeliveredOnce(b, key) + i < |TopicOf(ApplyAll(b, ops).topics, key.topic)|
    ensures FirstDeliveries(b, ops, key)[i] == TopicOf(ApplyAll(b, ops).topics, key.topic)[DeliveredOnce(b, key) + i]
    decreases |ops|
  {
    hide BrokerOk, Apply, DeliveredOnce, FirstDelivery, TopicOf;
    FirstDeliveryStep(b, ops[0], key);
    if FirstDelivery(b, ops[0], key) != [] && i == 0 {
      TopicGrowsAll(b, ops, key.topic);
    } else {
      ApplyOk(b, ops[0]);
      FirstDeliveriesInOrder(Apply(b, ops[0]), ops[1..], key, i - |FirstDelivery(b, ops[0], key)|);
    }
  }
}
