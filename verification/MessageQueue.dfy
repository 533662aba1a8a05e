/** The chat server's queue in place, over the array `messages` and the globals
    `front` and `rear`, and the loops that feed and drain it. */
module MessageQueue {
  import opened RingModel

  const MAX_NUM_CLIENT := 10

  class ChatServer {
    const messages: array<Message>
    var front: int
    var rear: int
    /** What has been sent to each connected client, in order of connection. */
    var clients: seq<seq<Message>>

    ghost predicate Valid()
      reads this, messages
    {
      RingModel.Valid(Abs()) && |clients| <= MAX_NUM_CLIENT
    }

    ghost function Abs(): Ring<Message>
      reads this, messages
    {
      Ring(front, rear, messages[..])
    }

    constructor (capacity: nat)
      requires capacity >= 2
      ensures Valid() && fresh(messages)
      ensures messages.Length == capacity && Contents(Abs()) == [] && clients == []
    {
      messages := new Message[capacity](_ => Message(0, ""));
      front, rear, clients := -1, -1, [];
    }

    method IsFull() returns (full: bool)
      requires Valid()
      ensures full <==> Count(Abs()) == messages.Length && !(front == 0 && rear == messages.Length - 1)
    {
      FullMeansAllOccupied(Abs());
      full := front == rear + 1;
    }

    method IsEmpty() returns (empty: bool)
      requires Valid()
      ensures empty <==> |Contents(Abs())| <= 1
    {
      FullMeansAllOccupied(Abs());
      empty := rear == front;
    }

    /** 0 on success, -1 when full. The seam state, all slots occupied from 0 on,
        is not recognised as full and loses everything but the new message. */
    method Enqueue(mes: Message) returns (status: int)
      requires Valid()
      modifies this`front, this`rear, messages
      ensures Valid()
      ensures status == -1 <==> old(Full(AsWritten, Abs()))
      ensures status == -1 ==> Abs() == old(Abs())
      ensures status != -1 ==> status == 0 && Abs() == Insert(old(Abs()), mes)
      ensures status == 0 && old(Count(Abs())) < messages.Length ==> Contents(Abs()) == old(Contents(Abs())) + [mes]
      ensures status == 0 && old(Count(Abs())) == messages.Length ==> Contents(Abs()) == [mes]
    {
      ghost var before := Abs();
      FullMeansAllOccupied(before);
      var full := IsFull();
      if full {
        return -1;
      }
      if front == -1 {
        front := 0;
      }
      rear := (rear + 1) % messages.Length;
      messages[rear] := mes;
      status := 0;
      assert Abs() == Insert(before, mes);
      if Count(before) < messages.Length {
        InsertAppends(before, mes);
      } else {
        InsertOverruns(before, mes);
      }
    }

    /** The slot of the oldest message, or -1; the newest message alone is never
        handed out. */
    method Dequeue() returns (slot: int)
      requires Valid()
      modifies this`front
      ensures Valid()
      ensures slot == -1 <==> |old(Contents(Abs()))| <= 1
      ensures slot == -1 ==> Abs() == old(Abs())
      ensures slot != -1 ==>
                && 0 <= slot < messages.Length
                && messages[slot] == old(Contents(Abs()))[0]
                && Contents(Abs()) == old(Contents(Abs()))[1..]
    {
      FullMeansAllOccupied(Abs());
      var empty := IsEmpty();
      if empty {
        return -1;
      }
      RemoveDropsFirst(Abs());
      slot := front;
      front := (front + 1) % messages.Length;
    }

    /** A receiver's turn: the message is stamped with the receiver's own id
        whatever the client wrote there. */
    method Receive(tid: int, received: Message) returns (status: int)
      requires Valid()
      modifies this`front, this`rear, messages
      ensures Valid()
      ensures var had, stamped := old(Contents(Abs())), Message(tid, received.text);
              if |had| < messages.Length then status == 0 && Contents(Abs()) == had + [stamped]
              else if old(front) != 0 then status == -1 && Contents(Abs()) == had
              else status == 0 && Contents(Abs()) == [stamped]
    {
      FullMeansAllOccupied(Abs());
      var receivedMessage := received.(userId := tid);
      status := Enqueue(receivedMessage);
    }

    /** One turn of the sender's loop, with no enqueue during the sends. */
    method SenderTurn()
      requires Valid()
      modifies this`front, this`clients
      ensures Valid() && |clients| == |old(clients)|
      ensures var had := old(Contents(Abs()));
              if |had| <= 1 then
                Contents(Abs()) == had && clients == old(clients)
              else
                && Contents(Abs()) == had[1..]
                && forall id | 0 <= id < |clients| :: clients[id] == old(clients)[id] + [had[0]]
    {
      var slot := Dequeue();
      if slot == -1 {
        return;
      }
      ghost var dequeued := Abs();
      var id := 0;
      while id < MAX_NUM_CLIENT
        invariant 0 <= id <= MAX_NUM_CLIENT
        invariant Abs() == dequeued && |clients| == |old(clients)|
        invariant forall k | 0 <= k < |clients| ::
                    clients[k] == old(clients)[k] + if k < id then [messages[slot]] else []
      {
        if id < |clients| {
          clients := clients[id := clients[id] + [messages[slot]]];
        }
        id := id + 1;
      }
    }
  }
}
