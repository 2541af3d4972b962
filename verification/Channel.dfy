/** One durable subscription seen on its own: the messages of its topic, which of them are
acknowledged, and which are in flight under which delivery count. The order of the queue is left
open. The broker refines this view, and traffic on other topics does not touch it. */
module Channel {
  import opened Ids
  import opened Edges
  import opened Broker
  import opened BrokerProofs

  datatype Channel = Channel(bodies: map<Text, Payload>, acked: set<Text>, flight: map<Text, nat>,
                             counts: map<Text, nat>)

  // A delivery of the subscription.
  datatype Ticket = Ticket(id: Text, count: nat)

  const EMPTY_CHANNEL: Channel := Channel(map[], {}, map[], map[])

  predicate ChannelOk(c: Channel) {
    && c.acked <= c.bodies.Keys && c.flight.Keys <= c.bodies.Keys && c.acked !! c.flight.Keys
    && forall id :: id in c.flight ==> c.flight[id] >= 1 && id in c.counts && c.flight[id] == c.counts[id]
  }

  /** Waiting to be received. */
  predicate Deliverable(c: Channel, id: Text) {
    id in c.bodies && id !in c.acked && id !in c.flight
  }

  function Count(c: Channel, id: Text): nat {
    if id in c.counts then c.counts[id] else 0
  }

  predicate Live(c: Channel, d: Ticket) {
    d.id in c.flight && c.flight[d.id] == d.count
  }

  predicate Conflicts(c: Channel, id: Text, body: Payload) {
    id in c.bodies && c.bodies[id] != body
  }

  function Posted(c: Channel, id: Text, body: Payload): Channel {
    if id in c.bodies then c else c.(bodies := c.bodies[id := body])
  }

  function Taken(c: Channel, id: Text): Channel {
    c.(flight := c.flight[id := Count(c, id) + 1], counts := c.counts[id := Count(c, id) + 1])
  }

  function Acked(c: Channel, d: Ticket): Channel {
    if Live(c, d) then c.(flight := c.flight - {d.id}, acked := c.acked + {d.id}) else c
  }

  function Nacked(c: Channel, d: Ticket): Channel {
    if Live(c, d) then c.(flight := c.flight - {d.id}) else c
  }

  // ------------------------------------------------------------------
  // The broker refines the channel

  ghost function View(b: Broker, key: Key): Channel
    requires BrokerOk(b)
  {
    MessageTopic(b, key.topic);
    var s := SubscriptionOf(b, key);
    Channel(Bodies(b.messages, TopicOf(b.topics, key.topic)), s.acked, s.inFlight, s.deliveryCount)
  }

  lemma ViewOk(b: Broker, key: Key)
    requires BrokerOk(b)
    ensures ChannelOk(View(b, key))
    ensures forall id :: Deliverable(View(b, key), id) <==> id in SubscriptionOf(b, key).queued
  {
    hide BrokerOk, SubscriptionOf, SubscriptionOk, TopicOf;
    SubscriptionOfOk(b, key);
    MessageTopic(b, key.topic);
    WhatWaits(SubscriptionOf(b, key), TopicOf(b.topics, key.topic));
  }

  /** Of the topic, what is neither acknowledged nor in flight is queued. */
  lemma WhatWaits(s: Subscription, topic: seq<Text>)
    requires SubscriptionOk(s, topic)
    ensures forall id :: id in topic && id !in s.acked && id !in s.inFlight <==> id in s.queued
    ensures (forall id :: id in s.acked || id in s.inFlight ==> id in topic) && s.acked !! s.inFlight.Keys
    ensures forall id :: id in s.inFlight ==> s.inFlight[id] >= 1 && id in s.deliveryCount
                                              && s.inFlight[id] == s.deliveryCount[id]
  {
    hide InOrder, Distinct;
    assert forall id :: id in topic <==> id in Elements(topic);
    assert forall id :: id in s.queued <==> id in s.queuedSet;
  }

  lemma ReceiveRefines(b: Broker, key: Key)
    requires BrokerOk(b) && Receive(b, key).Ok?
    ensures BrokerOk(Receive(b, key).value.0)
    ensures Receive(b, key).value.1.None? ==> View(Receive(b, key).value.0, key) == View(b, key)
    ensures Receive(b, key).value.1.Some? ==>
              var d := Receive(b, key).value.1.value;
              && Deliverable(View(b, key), d.message.id)
              && d.count == Count(View(b, key), d.message.id) + 1
              && View(Receive(b, key).value.0, key) == Taken(View(b, key), d.message.id)
  {
    hide BrokerOk, SubscriptionOf, ValidKey, Delivers, Deliverable, Bodies;
    ReceiveOk(b, key);
    var s := SubscriptionOf(b, key);
    if s.queued == [] {
      SubscriptionSet(b, key, s);
    } else {
      ViewOk(b, key);
      assert s.queued[0] in s.queued;
      QueueHead(b, key);
      SubscriptionSet(b, key, TakeHead(s));
    }
  }

  lemma SubscriptionSet(b: Broker, key: Key, s: Subscription)
    ensures SubscriptionOf(b.(subscriptions := b.subscriptions[key := s]), key) == s
  {
  }

  /** The first message of the queue is one of the broker's. */
  lemma QueueHead(b: Broker, key: Key)
    requires BrokerOk(b) && SubscriptionOf(b, key).queued != []
    ensures var id := SubscriptionOf(b, key).queued[0]; id in b.messages && b.messages[id].id == id
  {
    hide SubscriptionOf, SubscriptionOk, SubscriptionsOk;
    SubscriptionOfOk(b, key);
    var s, topic := SubscriptionOf(b, key), TopicOf(b.topics, key.topic);
    assert s.queued[0] in s.queued;
    WhatWaits(s, topic);
    assert s.queued[0] in topic;
  }

  /** A new message changes no progress of any subscription. */
  lemma PublishProgress(b: Broker, m: Message, key: Key)
    requires TopicsOk(b.messages, b.topics) && m.id !in b.messages && Publish(b, m).Ok?
    ensures var s := SubscriptionOf(b, key);
            var next := SubscriptionOf(Publish(b, m).value, key);
            next.acked == s.acked && next.inFlight == s.inFlight && next.deliveryCount == s.deliveryCount
  {
    if key !in b.subscriptions {
      PublishTopics(b.messages, b.topics, m);
      EnqueueAllIs(TopicOf(b.topics, key.topic));
      EnqueueAllIs(TopicOf(Publish(b, m).value.topics, key.topic));
    }
  }

  ghost function Bodies(messages: map<Text, Message>, topic: seq<Text>): map<Text, Payload>
    requires forall id :: id in topic ==> id in messages
  {
    map id | id in topic :: messages[id].body
  }

  lemma NewBody(messages: map<Text, Message>, topic: seq<Text>, m: Message)
    requires (forall id :: id in topic ==> id in messages) && m.id !in messages
    ensures Bodies(messages[m.id := m], topic) == Bodies(messages, topic)
    ensures Bodies(messages[m.id := m], topic + [m.id]) == Bodies(messages, topic)[m.id := m.body]
  {
  }

  lemma PublishRefines(b: Broker, key: Key, m: Message)
    requires BrokerOk(b) && m.topic == key.topic && Publish(b, m).Ok?
    ensures BrokerOk(Publish(b, m).value)
    ensures !Conflicts(View(b, key), m.id, m.body)
    ensures View(Publish(b, m).value, key) == Posted(View(b, key), m.id, m.body)
  {
    hide BrokerOk, ValidMessage, SubscriptionOf, Bodies;
    PublishOk(b, m);
    MessageTopic(b, key.topic);
    BodyAt(b, m.id, key.topic);
    if m.id !in b.messages {
      BrokerTopics(b);
      PublishProgress(b, m, key);
      NewBody(b.messages, TopicOf(b.topics, key.topic), m);
    }
  }

  lemma BrokerTopics(b: Broker)
    requires BrokerOk(b)
    ensures TopicsOk(b.messages, b.topics)
  {
  }

  lemma MessageTopic(b: Broker, topic: Text)
    requires BrokerOk(b)
    ensures forall id :: id in b.messages && b.messages[id].topic == topic ==> id in TopicOf(b.topics, topic)
    ensures forall id :: id in TopicOf(b.topics, topic) ==> id in b.messages
  {
  }

  lemma BodyAt(b: Broker, id: Text, topic: Text)
    requires BrokerOk(b)
    ensures forall x :: x in TopicOf(b.topics, topic) ==> x in b.messages
    ensures id in Bodies(b.messages, TopicOf(b.topics, topic)) <==> id in TopicOf(b.topics, topic)
    ensures id in TopicOf(b.topics, topic) ==> Bodies(b.messages, TopicOf(b.topics, topic))[id] == b.messages[id].body
  {
  }

  lemma SettleRefines(b: Broker, d: Delivery)
    requires BrokerOk(b) && d.count >= 1 && !b.closed
    ensures Active(b, d) <==> Live(View(b, d.key), Ticket(d.message.id, d.count))
    ensures Ack(b, d).Ok? ==> BrokerOk(Ack(b, d).value)
                              && View(Ack(b, d).value, d.key) == Acked(View(b, d.key), Ticket(d.message.id, d.count))
    ensures Nack(b, d).Ok? ==> BrokerOk(Nack(b, d).value)
                               && View(Nack(b, d).value, d.key) == Nacked(View(b, d.key), Ticket(d.message.id, d.count))
  {
    if Active(b, d) {
      AckOk(b, d);
      NackOk(b, d);
      RequeuedOk(b.subscriptions[d.key], TopicOf(b.topics, d.key.topic), d.message.id);
    } else if d.key !in b.subscriptions {
      EnqueueAllIs(TopicOf(b.topics, d.key.topic));
    }
  }

  lemma OtherPublishInvisible(b: Broker, key: Key, m: Message)
    requires BrokerOk(b) && m.topic != key.topic && Publish(b, m).Ok?
    ensures BrokerOk(Publish(b, m).value)
    ensures View(Publish(b, m).value, key) == View(b, key)
  {
    PublishOk(b, m);
    if m.id !in b.messages {
      PublishProgress(b, m, key);
      NewBody(b.messages, TopicOf(b.topics, key.topic), m);
    }
  }

  predicate OtherTopic(op: Op, topic: Text) {
    match op
    case DoPublish(m) => m.topic != topic
    case DoReceive(k) => k.topic != topic
    case DoAck(d) => d.key.topic != topic
    case DoNack(d) => d.key.topic != topic
    case _ => true
  }

  lemma OtherSubscriptionKept(b: Broker, key: Key, op: Op)
    requires !op.DoPublish? && OtherTopic(op, key.topic)
    ensures Apply(b, op).messages == b.messages && Apply(b, op).topics == b.topics
    ensures SubscriptionOf(Apply(b, op), key) == SubscriptionOf(b, key)
  {
  }

  /** Other runs sharing the broker use other topics; nothing they do shows in this view. */
  lemma OtherTrafficInvisible(b: Broker, key: Key, op: Op)
    requires BrokerOk(b) && OpOk(op) && OtherTopic(op, key.topic)
    ensures BrokerOk(Apply(b, op))
    ensures View(Apply(b, op), key) == View(b, key)
  {
    if op.DoPublish? {
      if Publish(b, op.m).Ok? {
        OtherPublishInvisible(b, key, op.m);
      }
    } else {
      ApplyOk(b, op);
      OtherSubscriptionKept(b, key, op);
    }
  }
}
