/** The in-memory broker as an object. A subscription is a record in a table that the methods replace. */
module MemoryBroker {
  import opened Ids
  import B = Broker
  import P = BrokerProofs

  class InMemoryBroker {
    var closed: bool
    var messages: map<Text, B.Message>
    var topics: map<Text, seq<Text>>
    var subscriptions: map<B.Key, B.Subscription>

    function State(): B.Broker
      reads this
    {
      B.Broker(closed, messages, topics, subscriptions)
    }

    ghost predicate Valid()
      reads this
    {
      B.BrokerOk(State())
    }

    constructor ()
      ensures Valid() && State() == B.EMPTY_BROKER
    {
      closed, messages, topics, subscriptions := false, map[], map[], map[];
      new;
      P.EmptyBrokerOk();
    }

    /** Store a message and queue it on every subscription of its topic. */
    method Publish(m: B.Message) returns (fault: Option<B.BrokerError>)
      requires Valid()
      modifies this
      ensures Valid()
      ensures var r := B.Publish(old(State()), m);
              if r.Ok? then fault.None? && State() == r.value else fault == Some(r.error) && State() == old(State())
    {
      hide B.BrokerOk;
      if !B.ValidMessage(m) {
        return Some(B.InvalidMessage);
      }
      if closed {
        return Some(B.Closed);
      }
      if m.id in messages {
        if messages[m.id].topic == m.topic && messages[m.id].body == m.body {
          return None;
        }
        return Some(B.Conflict(m.id));
      }
      P.PublishOk(State(), m);
      messages := messages[m.id := m];
      topics := topics[m.topic := (if m.topic in topics then topics[m.topic] else []) + [m.id]];
      EnqueueEverywhere(m.topic, m.id);
      return None;
    }

    /** Visit the subscriptions in any order. */
    method EnqueueEverywhere(topic: Text, id: Text)
      modifies this`subscriptions
      ensures subscriptions == map key | key in old(subscriptions) ::
                if key.topic == topic then B.Enqueue(old(subscriptions)[key], id) else old(subscriptions)[key]
    {
      var before := subscriptions;
      var todo := subscriptions.Keys;
      while todo != {}
        invariant todo <= subscriptions.Keys == before.Keys
        invariant forall key :: key in before ==>
                    subscriptions[key] == if key in todo
                    || key.topic != topic then before[key] else B.Enqueue(before[key], id)
        decreases todo
      {
        var key :| key in todo;
        todo := todo - {key};
        if key.topic == topic {
          var next := EnqueueMessage(before[key], id);
          subscriptions := subscriptions[key := next];
        }
      }
    }

    /** The subscription of a key, created with the topic's history if it is new. */
    method SubscriptionLocked(key: B.Key) returns (s: B.Subscription)
      modifies this`subscriptions
      ensures s == B.SubscriptionOf(old(State()), key) && subscriptions == old(subscriptions)[key := s]
    {
      if key in subscriptions {
        s := subscriptions[key];
        assert subscriptions[key := s] == subscriptions;
        return;
      }
      s := B.EMPTY_SUBSCRIPTION;
      var history := if key.topic in topics then topics[key.topic] else [];
      for n := 0 to |history|
        invariant subscriptions == old(subscriptions) && s == B.EnqueueAll(B.EMPTY_SUBSCRIPTION, history[..n])
      {
        s := EnqueueMessage(s, history[n]);
        assert history[..n + 1][..n] == history[..n];
      }
      assert history[..|history|] == history;
      subscriptions := subscriptions[key := s];
    }

    /** Take the head of the queue, or nothing if a receiver would have to wait. */
    method Receive(key: B.Key) returns (r: Result<Option<B.Delivery>, B.BrokerError>)
      requires Valid()
      modifies this
      ensures Valid()
      ensures var spec := B.Receive(old(State()), key);
              if spec.Ok? then r == Ok(spec.value.1) && State() == spec.value.0
                else r == Err(spec.error) && State() == old(State())
    {
      hide B.BrokerOk;
      if !B.ValidKey(key) {
        return Err(B.InvalidSubscription);
      }
      if closed {
        return Err(B.Closed);
      }
      P.ReceiveOk(State(), key);
      var s := SubscriptionLocked(key);
      if |s.queued| == 0 {
        return Ok(None);
      }
      var id := s.queued[0];
      var count := (if id in s.deliveryCount then s.deliveryCount[id] else 0) + 1;
      s := s.(queued := s.queued[1..], queuedSet := s.queuedSet - {id},
              deliveryCount := s.deliveryCount[id := count], inFlight := s.inFlight[id := count]);
      subscriptions := subscriptions[key := s];
      assert subscriptions == old(subscriptions)[key := s];
      var message := if id in messages then messages[id] else B.Message([], [], B.Raw([]), map[]);
      return Ok(Some(B.Delivery(key, message, count)));
    }

    method Ack(d: B.Delivery) returns (fault: Option<B.BrokerError>)
      requires Valid() && d.count >= 1
      modifies this
      ensures Valid()
      ensures var r := B.Ack(old(State()), d);
              if r.Ok? then fault.None? && State() == r.value else fault == Some(r.error) && State() == old(State())
    {
      hide B.BrokerOk;
      if closed {
        return Some(B.Closed);
      }
      if !B.Active(State(), d) {
        return Some(B.Settled);
      }
      P.AckOk(State(), d);
      var s := subscriptions[d.key];
      s := s.(inFlight := s.inFlight - {d.message.id}, acked := s.acked + {d.message.id});
      subscriptions := subscriptions[d.key := s];
      return None;
    }

    method Nack(d: B.Delivery) returns (fault: Option<B.BrokerError>)
      requires Valid() && d.count >= 1
      modifies this
      ensures Valid()
      ensures var r := B.Nack(old(State()), d);
              if r.Ok? then fault.None? && State() == r.value else fault == Some(r.error) && State() == old(State())
    {
      hide B.BrokerOk;
      if closed {
        return Some(B.Closed);
      }
      if !B.Active(State(), d) {
        return Some(B.Settled);
      }
      P.NackOk(State(), d);
      var s := subscriptions[d.key];
      s := EnqueueMessage(s.(inFlight := s.inFlight - {d.message.id}), d.message.id);
      subscriptions := subscriptions[d.key := s];
      return None;
    }

    method Close()
      requires Valid()
      modifies this
      ensures Valid() && State() == old(State()).(closed := true)
    {
      hide B.BrokerOk;
      P.ApplyOk(State(), P.DoClose);
      closed := true;
    }
  }

  /** Append unless the message is acknowledged, queued or in flight. */
  method EnqueueMessage(s: B.Subscription, id: Text) returns (next: B.Subscription)
    ensures next == B.Enqueue(s, id)
  {
    if id in s.acked || id in s.queuedSet || id in s.inFlight {
      return s;
    }
    return s.(queued := s.queued + [id], queuedSet := s.queuedSet + {id});
  }
}
