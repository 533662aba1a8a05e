/** The broker itself: the globals `topics` and `user_informations` and the
    code that runs on them inside each critical section, with `outbox` standing
    for what has been sent on each subscriber's socket. */
module BrokerThreads {
  import opened BrokerModel

  class Broker {
    var topics: map<Topic, seq<Content>>
    var users: map<int, map<Topic, Entry>>
    var outbox: map<int, seq<Packet>>

    constructor ()
      ensures Abs() == EMPTY_BROKER
    {
      topics, users, outbox := map[], map[], map[];
    }

    ghost function Abs(): State
      reads this
    {
      State(topics, users, outbox)
    }

    method RegisterMessage(topic: Topic, content: Content) returns (status: int)
      modifies this`topics
      ensures status == 0
      ensures Abs() == Append(old(Abs()), topic, content)
    {
      if topic in topics {
        topics := topics[topic := topics[topic] + [content]];
      } else {
        var v := [];
        v := v + [content];
        topics := topics[topic := v];
      }
      status := 0;
    }

    /** Broadcasts only for a known topic; `broadcast` tells whether it did. */
    method DistributeMessage(topic: Topic) returns (status: int, broadcast: bool)
      ensures status == -1 <==> topic !in topics
      ensures status == 0 <==> broadcast
      ensures status == 0 || status == -1
    {
      if topic !in topics {
        return -1, false;
      }
      return 0, true;
    }

    /** The publisher's critical section: neither failure branch is ever taken. */
    method HandlePublisher(topic: Topic, content: Content) returns (broadcast: bool)
      modifies this
      ensures Abs() == Step(old(Abs()), Publish(topic, content))
      ensures broadcast
    {
      broadcast := false;
      var registered := RegisterMessage(topic, content);
      if registered < 0 {
        return;
      }
      var distributed;
      distributed, broadcast := DistributeMessage(topic);
      if distributed < 0 {
        return;
      }
    }

    /** The receiver's block, always followed by a broadcast. */
    method HandleReceiver(id: int, topic: Topic)
      modifies this
      ensures Abs() == Step(old(Abs()), Toggle(id, topic))
    {
      if id !in users {
        users := users[id := map[]];
      }
      if topic !in users[id] {
        users := users[id := users[id][topic := Entry(true, 0)]];
      } else {
        var isSubscribed := users[id][topic].on;
        if isSubscribed {
          users := users[id := users[id][topic := users[id][topic].(on := false)]];
        } else {
          users := users[id := users[id][topic := users[id][topic].(on := true)]];
          users := users[id := users[id][topic := users[id][topic].(cursor := 0)]];
        }
        assert users[id] == Subscriptions(Step(old(Abs()), Toggle(id, topic)), id);
      }
      assert users == Step(old(Abs()), Toggle(id, topic)).users;
    }

    /** The send loop for one topic, from the cursor to the end of its log. */
    method SendFrom(id: int, topic: Topic, from: nat)
      requires topic in topics && from < |topics[topic]|
      modifies this`outbox
      ensures Abs() == Emit(old(Abs()), id, Packets(topic, topics[topic][from..]))
    {
      if id !in outbox {
        outbox := outbox[id := []];
      }
      ghost var start := outbox[id];
      var i := from;
      assert start + Packets(topic, topics[topic][from..i]) == start;
      while i < |topics[topic]|
        invariant from <= i <= |topics[topic]|
        invariant outbox == old(outbox)[id := start + Packets(topic, topics[topic][from..i])]
      {
        var message := Packet(topic, topics[topic][i]);
        assert Packets(topic, topics[topic][from..i + 1]) == Packets(topic, topics[topic][from..i]) + [message];
        outbox := outbox[id := outbox[id] + [message]];
        assert outbox[id] == start + Packets(topic, topics[topic][from..i + 1]);
        i := i + 1;
      }
      assert topics[topic][from..i] == topics[topic][from..];
    }

    /** One wake-up of the sender of `id`, with its lock held throughout.
        `order` is the order in which the map was traversed. */
    method HandleSender(id: int) returns (ghost order: seq<Topic>)
      modifies this
      ensures Enabled(old(Abs()), Wake(id, order))
      ensures Abs() == Step(old(Abs()), Wake(id, order))
    {
      if id !in users {
        users := users[id := map[]];
      }
      ghost var start := Abs();
      ghost var keys := users[id].Keys;
      var todo := users[id].Keys;
      order := [];
      while todo != {}
        invariant id in users && users[id].Keys == keys
        invariant todo <= keys
        invariant forall t :: t in order <==> t in keys - todo
        invariant Enumerates(order, keys - todo)
        invariant Abs() == Visits(start, id, order)
        decreases todo
      {
        var topic :| topic in todo;
        var isSubscribed, isReadUpTo := users[id][topic].on, users[id][topic].cursor;
        ghost var before := Abs();
        if isSubscribed {
          if topic !in topics {
            topics := topics[topic := []];
          }
          assert topics == Touch(before, topic).topics;
          if isReadUpTo < |topics[topic]| {
            SendFrom(id, topic, isReadUpTo);
            users := users[id := users[id][topic := users[id][topic].(cursor := |topics[topic]|)]];
          }
        }
        assert Abs() == Visit(before, id, topic);
        todo := todo - {topic};
        assert (order + [topic])[..|order|] == order;
        order := order + [topic];
      }
      assert start == Enter(old(Abs()), id);
    }
  }
}
