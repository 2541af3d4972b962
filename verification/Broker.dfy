/** The in-memory task broker: durable competing consumers with explicit acknowledgement. */
module Broker {
  import opened Ids
  import opened Edges

  // A message body: a task dispatch, or bytes that do not decode to one.
  datatype Payload =
    | Raw(bytes: seq<byte>)
    | Dispatch(runId: Text, taskId: Text, taskRunId: Text, attemptId: Text)

  datatype Message = Message(id: Text, topic: Text, body: Payload, headers: map<Text, Text>)

  datatype Key = Key(consumerId: Text, topic: Text)

  datatype Delivery = Delivery(key: Key, message: Message, count: nat)

  datatype Subscription = Subscription(
    queued: seq<Text>, queuedSet: set<Text>, inFlight: map<Text, nat>, acked: set<Text>, deliveryCount: map<Text, nat>)

  datatype Broker = Broker(
    closed: bool, messages: map<Text, Message>, topics: map<Text, seq<Text>>, subscriptions: map<Key, Subscription>)

  datatype BrokerError = Closed | InvalidMessage | InvalidSubscription | Conflict(id: Text) | Settled

  const EMPTY_BROKER: Broker := Broker(false, map[], map[], map[])

  const EMPTY_SUBSCRIPTION: Subscription := Subscription([], {}, map[], {}, map[])

  // ------------------------------------------------------------------
  // Operations

  /** Lower-case token bytes. */
  predicate HeaderByte(b: byte) {
    97 <= b <= 122 || 48 <= b <= 57
    || b in {33, 35, 36, 37, 38, 39, 42, 43, 45, 46, 94, 95, 96, 124, 126}
  }

  predicate ValidHeader(name: Text, value: Text) {
    && name != [] && (forall i :: 0 <= i < |name| ==> HeaderByte(name[i]))
    && forall i :: 0 <= i < |value| ==> value[i] != 10 && value[i] != 13
  }

  predicate ValidMessage(m: Message) {
    && ValidIdentifier(m.id) && ValidIdentifier(m.topic) && m.body != Raw([])
    && forall name :: name in m.headers ==> ValidHeader(name, m.headers[name])
  }

  predicate ValidKey(key: Key) {
    ValidIdentifier(key.consumerId) && ValidIdentifier(key.topic)
  }

  function TopicOf(topics: map<Text, seq<Text>>, topic: Text): seq<Text> {
    if topic in topics then topics[topic] else []
  }

  function Enqueue(s: Subscription, id: Text): Subscription {
    if id in s.acked || id in s.queuedSet || id in s.inFlight then s
    else s.(queued := s.queued + [id], queuedSet := s.queuedSet + {id})
  }

  function EnqueueAll(s: Subscription, ids: seq<Text>): Subscription {
    if ids == [] then s else Enqueue(EnqueueAll(s, ids[..|ids| - 1]), ids[|ids| - 1])
  }

  /** The subscription a key denotes; it comes into being with the topic's whole history queued. */
  function SubscriptionOf(b: Broker, key: Key): Subscription {
    if key in b.subscriptions then b.subscriptions[key]
      else EnqueueAll(EMPTY_SUBSCRIPTION, TopicOf(b.topics, key.topic))
  }

  /** Publishing under a known identifier is a no-op when topic and body agree; the first headers stay. */
  function Publish(b: Broker, m: Message): Result<Broker, BrokerError> {
    if !ValidMessage(m) then Err(InvalidMessage)
    else if b.closed then Err(Closed)
    else if m.id in b.messages then
      if b.messages[m.id].topic == m.topic && b.messages[m.id].body == m.body then Ok(b) else Err(Conflict(m.id))
    else Ok(b.(messages := b.messages[m.id := m],
               topics := b.topics[m.topic := TopicOf(b.topics, m.topic) + [m.id]],
               subscriptions := map key | key in b.subscriptions ::
                 if key.topic == m.topic then Enqueue(b.subscriptions[key], m.id) else b.subscriptions[key]))
  }

  function CountOf(s: Subscription, id: Text): nat {
    if id in s.deliveryCount then s.deliveryCount[id] else 0
  }

  function TakeHead(s: Subscription): Subscription
    requires s.queued != []
  {
    var id := s.queued[0];
    var count := CountOf(s, id) + 1;
    s.(queued := s.queued[1..], queuedSet := s.queuedSet - {id},
       deliveryCount := s.deliveryCount[id := count], inFlight := s.inFlight[id := count])
  }

  /** A receive that finds a message; one that finds none creates the subscription and waits. */
  function Receive(b: Broker, key: Key): Result<(Broker, Option<Delivery>), BrokerError> {
    if !ValidKey(key) then Err(InvalidSubscription)
    else if b.closed then Err(Closed)
    else
      var s := SubscriptionOf(b, key);
      if s.queued == [] then Ok((b.(subscriptions := b.subscriptions[key := s]), None))
      else
        var id := s.queued[0];
        var message := if id in b.messages then b.messages[id] else Message([], [], Raw([]), map[]);
        Ok((b.(subscriptions := b.subscriptions[key := TakeHead(s)]), Some(Delivery(key, message, CountOf(s, id) + 1))))
  }

  function InFlightOf(b: Broker, key: Key, id: Text): nat {
    if key in b.subscriptions && id in b.subscriptions[key].inFlight then b.subscriptions[key].inFlight[id] else 0
  }

  /** A delivery can be settled while it is the one in flight. */
  predicate Active(b: Broker, d: Delivery) {
    d.key in b.subscriptions && InFlightOf(b, d.key, d.message.id) == d.count
  }

  function Acknowledged(s: Subscription, id: Text): Subscription {
    s.(inFlight := s.inFlight - {id}, acked := s.acked + {id})
  }

  function Requeued(s: Subscription, id: Text): Subscription {
    Enqueue(s.(inFlight := s.inFlight - {id}), id)
  }

  function Ack(b: Broker, d: Delivery): Result<Broker, BrokerError> {
    if b.closed then Err(Closed)
    else if !Active(b, d) then Err(Settled)
    else Ok(b.(subscriptions := b.subscriptions[d.key := Acknowledged(b.subscriptions[d.key], d.message.id)]))
  }

  function Nack(b: Broker, d: Delivery): Result<Broker, BrokerError> {
    if b.closed then Err(Closed)
    else if !Active(b, d) then Err(Settled)
    else Ok(b.(subscriptions := b.subscriptions[d.key := Requeued(b.subscriptions[d.key], d.message.id)]))
  }

  function Progress(b: Broker, d: Delivery): Result<(), BrokerError> {
    if b.closed then Err(Closed) else if !Active(b, d) then Err(Settled) else Ok(())
  }

  // ------------------------------------------------------------------
  // Invariant

  /** The elements of a queue that were never delivered, in order. */
  function Fresh(queue: seq<Text>, delivered: set<Text>): seq<Text> {
    if queue == [] then []
    else
      var front := Fresh(queue[..|queue| - 1], delivered);
      if queue[|queue| - 1] in delivered then front else front + [queue[|queue| - 1]]
  }

  /** Every message of the topic is in exactly one of three places, and nothing else is anywhere. */
  predicate Conserved(s: Subscription, topic: seq<Text>) {
    && Distinct(s.queued) && s.queuedSet == Elements(s.queued)
    && s.queuedSet !! s.inFlight.Keys !! s.acked
    && s.queuedSet + s.inFlight.Keys + s.acked == Elements(topic)
  }

  /** A delivery in flight carries the number of times its message has been delivered. */
  predicate Counted(s: Subscription) {
    && (forall id :: id in s.inFlight ==> id in s.deliveryCount && s.inFlight[id] == s.deliveryCount[id])
    && (forall id :: id in s.deliveryCount ==> s.deliveryCount[id] >= 1)
    && s.acked <= s.deliveryCount.Keys
  }

  /** First deliveries have followed the order of publication and will go on doing so. */
  predicate InOrder(s: Subscription, topic: seq<Text>) {
    && |s.deliveryCount| <= |topic|
    && s.deliveryCount.Keys == Elements(topic[..|s.deliveryCount|])
    && Fresh(s.queued, s.deliveryCount.Keys) == topic[|s.deliveryCount|..]
  }

  predicate SubscriptionOk(s: Subscription, topic: seq<Text>) {
    Conserved(s, topic) && Counted(s) && InOrder(s, topic)
  }

  predicate TopicsOk(messages: map<Text, Message>, topics: map<Text, seq<Text>>) {
    && (forall t :: t in topics ==> Distinct(topics[t]))
    && (forall t, id :: t in topics && id in topics[t] ==> id in messages && messages[id].topic == t)
    && forall id :: id in messages ==> messages[id].id == id && id in TopicOf(topics, messages[id].topic)
  }

  predicate SubscriptionsOk(subscriptions: map<Key, Subscription>, topics: map<Text, seq<Text>>) {
    forall key :: key in subscriptions ==> SubscriptionOk(subscriptions[key], TopicOf(topics, key.topic))
  }

  predicate BrokerOk(b: Broker) {
    TopicsOk(b.messages, b.topics) && SubscriptionsOk(b.subscriptions, b.topics)
  }

  // ------------------------------------------------------------------
  // Queues

  lemma FreshSnoc(queue: seq<Text>, id: Text, delivered: set<Text>)
    ensures Fresh(queue + [id], delivered) == Fresh(queue, delivered) + if id in delivered then [] else [id]
  {
    assert (queue + [id])[..|queue|] == queue;
  }

  /** Taking the head away takes it away from the fresh part, if it is there. */
  lemma {:induction false} FreshHead(queue: seq<Text>, delivered: set<Text>)
    requires queue != []
    ensures Fresh(queue, delivered) == (if queue[0] in delivered then [] else [queue[0]]) + Fresh(queue[1..], delivered)
    decreases |queue|
  {
    if |queue| > 1 {
      var n := |queue| - 1;
      FreshHead(queue[..n], delivered);
      assert queue[..n][1..] == queue[1..][..n - 1];
      assert queue[1..][n - 1] == queue[n];
    } else {
      assert queue[..0] == [];
    }
  }

  /** Delivering a message that is not in the queue does not change what is fresh in it. */
  lemma {:induction false} FreshOther(queue: seq<Text>, delivered: set<Text>, id: Text)
    requires id !in queue
    ensures Fresh(queue, delivered + {id}) == Fresh(queue, delivered)
    decreases |queue|
  {
    if queue != [] {
      var n := |queue| - 1;
      assert queue[n] in queue;
      FreshOther(queue[..n], delivered, id);
    }
  }

  lemma {:induction false} FreshOfUndelivered(queue: seq<Text>)
    ensures Fresh(queue, {}) == queue
    decreases |queue|
  {
    if queue != [] {
      FreshOfUndelivered(queue[..|queue| - 1]);
    }
  }

  // ------------------------------------------------------------------
  // Every operation keeps a subscription conserved, counted and in order

  lemma EnqueueConserved(s: Subscription, topic: seq<Text>, id: Text)
    requires Conserved(s, topic) && id !in topic
    ensures Enqueue(s, id) == s.(queued := s.queued + [id], queuedSet := s.queuedSet + {id})
    ensures Conserved(Enqueue(s, id), topic + [id])
  {
    assert id !in Elements(topic);
    assert Elements(topic + [id]) == Elements(topic) + {id};
    assert Elements(s.queued + [id]) == Elements(s.queued) + {id};
  }

  lemma EnqueueInOrder(s: Subscription, topic: seq<Text>, id: Text)
    requires InOrder(s, topic) && id !in topic
    ensures InOrder(s.(queued := s.queued + [id], queuedSet := s.queuedSet + {id}), topic + [id])
  {
    var n := |s.deliveryCount|;
    assert id !in s.deliveryCount by {
      assert forall x :: x in topic[..n] ==> x in topic;
    }
    FreshSnoc(s.queued, id, s.deliveryCount.Keys);
    assert (topic + [id])[..n] == topic[..n];
    assert (topic + [id])[n..] == topic[n..] + [id];
  }

  /** A message newly published to the topic. */
  lemma EnqueueNew(s: Subscription, topic: seq<Text>, id: Text)
    requires SubscriptionOk(s, topic) && id !in topic
    ensures SubscriptionOk(Enqueue(s, id), topic + [id])
    ensures Enqueue(s, id) == s.(queued := s.queued + [id], queuedSet := s.queuedSet + {id})
  {
    EnqueueConserved(s, topic, id);
    EnqueueInOrder(s, topic, id);
  }

  lemma ElementsSnoc(s: seq<Text>, x: Text)
    ensures Elements(s + [x]) == Elements(s) + {x} && (x in Elements(s) <==> x in s) && Elements([]) == {}
  {
  }

  lemma DistinctFront(s: seq<Text>)
    requires Distinct(s) && s != []
    ensures Distinct(s[..|s| - 1]) && s[|s| - 1] !in s[..|s| - 1]
    ensures Distinct(s[1..]) && s[0] !in s[1..]
  {
  }

  lemma {:induction false} EnqueueAllIs(topic: seq<Text>)
    requires Distinct(topic)
    ensures EnqueueAll(EMPTY_SUBSCRIPTION, topic) == Subscription(topic, Elements(topic), map[], {}, map[])
    decreases |topic|
  {
    hide Elements, Distinct;
    ElementsSnoc([], []);
    if topic != [] {
      var front, last := topic[..|topic| - 1], topic[|topic| - 1];
      DistinctFront(topic);
      EnqueueAllIs(front);
      ElementsSnoc(front, last);
      assert topic == front + [last];
    }
  }

  /** A subscription created late sees the whole topic, as if it had been there from the start. */
  lemma EnqueueAllOk(topic: seq<Text>)
    requires Distinct(topic)
    ensures SubscriptionOk(EnqueueAll(EMPTY_SUBSCRIPTION, topic), topic)
  {
    EnqueueAllIs(topic);
    FreshOfUndelivered(topic);
    var s := Subscription(topic, Elements(topic), map[], {}, map[]);
    assert s.deliveryCount.Keys == {} && topic[..0] == [] && topic[0..] == topic;
  }

  lemma TakeHeadConserved(s: Subscription, topic: seq<Text>)
    requires Conserved(s, topic) && s.queued != []
    ensures Conserved(TakeHead(s), topic)
  {
    var id := s.queued[0];
    var rest := s.queued[1..];
    assert s.queued == [id] + rest;
    assert id in s.queued;
    assert id !in rest;
    assert Elements(rest) == Elements(s.queued) - {id};
  }

  lemma DeliverFresh(id: Text, rest: seq<Text>, delivered: set<Text>, topic: seq<Text>, n: nat)
    requires id !in rest && id !in delivered && n <= |topic|
    requires Fresh([id] + rest, delivered) == topic[n..]
    ensures n < |topic| && topic[n] == id
    ensures Fresh(rest, delivered + {id}) == topic[n + 1..]
    ensures Elements(topic[..n + 1]) == Elements(topic[..n]) + {id}
  {
    FreshHead([id] + rest, delivered);
    assert ([id] + rest)[1..] == rest;
    assert topic[n..] == [id] + Fresh(rest, delivered);
    FreshOther(rest, delivered, id);
    assert topic[n] == topic[n..][0];
    assert topic[n + 1..] == topic[n..][1..];
    assert topic[..n + 1] == topic[..n] + [id];
  }

  lemma CountKeys(m: map<Text, nat>, id: Text, count: nat)
    ensures m[id := count].Keys == m.Keys + {id}
    ensures |m[id := count]| == |m| + if id in m then 0 else 1
  {
    assert m[id := count].Keys == m.Keys + {id};
    if id in m {
      assert m.Keys + {id} == m.Keys;
    }
    assert |m[id := count]| == |m[id := count].Keys| && |m| == |m.Keys|;
  }

  /** A message delivered before: the fresh ones stay as they are. */
  lemma RedeliveryInOrder(s: Subscription, topic: seq<Text>)
    requires InOrder(s, topic) && s.queued != [] && s.queued[0] in s.deliveryCount
    ensures InOrder(TakeHead(s), topic)
  {
    hide Elements, Fresh;
    var id := s.queued[0];
    CountKeys(s.deliveryCount, id, CountOf(s, id) + 1);
    FreshHead(s.queued, s.deliveryCount.Keys);
    assert s.deliveryCount.Keys + {id} == s.deliveryCount.Keys;
  }

  /** A message delivered for the first time is the next one of its topic. */
  lemma FirstDeliveryInOrder(s: Subscription, topic: seq<Text>)
    requires InOrder(s, topic) && s.queued != [] && s.queued[0] !in s.deliveryCount && s.queued[0] !in s.queued[1..]
    ensures InOrder(TakeHead(s), topic)
    ensures |s.deliveryCount| < |topic| && s.queued[0] == topic[|s.deliveryCount|]
  {
    hide Elements, Fresh, CountOf;
    var id, rest, delivered, n := s.queued[0], s.queued[1..], s.deliveryCount.Keys, |s.deliveryCount|;
    assert s.queued == [id] + rest;
    DeliverFresh(id, rest, delivered, topic, n);
    CountKeys(s.deliveryCount, id, CountOf(s, id) + 1);
    var next := TakeHead(s);
    assert next.queued == rest && next.deliveryCount.Keys == delivered + {id} && |next.deliveryCount| == n + 1;
  }

  lemma TakeHeadInOrder(s: Subscription, topic: seq<Text>)
    requires Distinct(s.queued) && InOrder(s, topic) && s.queued != []
    ensures InOrder(TakeHead(s), topic)
    ensures s.queued[0] !in s.deliveryCount ==> |s.deliveryCount| < |topic| && s.queued[0] == topic[|s.deliveryCount|]
  {
    hide Distinct, InOrder;
    DistinctFront(s.queued);
    if s.queued[0] in s.deliveryCount {
      RedeliveryInOrder(s, topic);
    } else {
      FirstDeliveryInOrder(s, topic);
    }
  }

  lemma TakeHeadOk(s: Subscription, topic: seq<Text>)
    requires SubscriptionOk(s, topic) && s.queued != []
    ensures SubscriptionOk(TakeHead(s), topic)
    ensures s.queued[0] in topic && s.queued[0] !in s.acked
  {
    TakeHeadConserved(s, topic);
    TakeHeadInOrder(s, topic);
    TakeHeadCounted(s);
    HeadBelongs(s, topic);
  }

  lemma TakeHeadCounted(s: Subscription)
    requires Counted(s) && s.queued != []
    ensures Counted(TakeHead(s))
  {
  }

  lemma HeadBelongs(s: Subscription, topic: seq<Text>)
    requires Conserved(s, topic) && s.queued != []
    ensures s.queued[0] in topic && s.queued[0] !in s.acked
  {
    assert s.queued[0] in s.queuedSet;
    assert s.queued[0] in Elements(topic);
  }

  lemma AcknowledgedOk(s: Subscription, topic: seq<Text>, id: Text)
    requires SubscriptionOk(s, topic) && id in s.inFlight
    ensures SubscriptionOk(Acknowledged(s, id), topic)
  {
  }

  lemma RequeuedOk(s: Subscription, topic: seq<Text>, id: Text)
    requires SubscriptionOk(s, topic) && id in s.inFlight
    ensures SubscriptionOk(Requeued(s, id), topic)
    ensures Requeued(s, id) == s.(inFlight := s.inFlight - {id}, queued := s.queued + [id],
                                  queuedSet := s.queuedSet + {id})
  {
    hide InOrder, Counted;
    RequeuedConserved(s, topic, id);
    RequeuedCounted(s, id);
    RequeuedInOrder(s, topic, id);
  }

  lemma RequeuedConserved(s: Subscription, topic: seq<Text>, id: Text)
    requires Conserved(s, topic) && id in s.inFlight
    ensures Conserved(Requeued(s, id), topic) && id !in s.queued
    ensures Requeued(s, id) == s.(inFlight := s.inFlight - {id}, queued := s.queued + [id],
                                  queuedSet := s.queuedSet + {id})
  {
    assert id !in s.queuedSet && id !in s.acked;
    assert id in s.queued ==> id in Elements(s.queued);
    ElementsSnoc(s.queued, id);
  }

  lemma RequeuedCounted(s: Subscription, id: Text)
    requires Counted(s) && id in s.inFlight
    ensures Counted(Requeued(s, id)) && id in s.deliveryCount
  {
  }

  lemma RequeuedInOrder(s: Subscription, topic: seq<Text>, id: Text)
    requires InOrder(s, topic) && id in s.deliveryCount
    ensures InOrder(Requeued(s, id), topic)
  {
    hide Elements;
    FreshSnoc(s.queued, id, s.deliveryCount.Keys);
    var kept := Fresh(s.queued, s.deliveryCount.Keys);
    assert kept + [] == kept;
  }
}
