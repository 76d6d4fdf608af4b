/** RabbitMQ as the pipeline uses it: one durable work queue, its dead-letter queue, and the
    deliveries each consumer connection still owes an answer for (class basic of AMQP 0-9-1,
    section 1.8.3, with RabbitMQ's nack and dead-letter extensions). */
module Broker {
  import opened Domain

  type MsgId = nat
  type Tag = nat
  type WorkerId = nat

  /** A connection belongs to one worker process; a reconnect opens a new epoch. */
  datatype Conn = Conn(worker: WorkerId, epoch: nat)

  datatype Delivery = Delivery(msg: MsgId, tag: Tag, conn: Conn, redelivered: bool)

  /** An accepted message. The three counters are history: how often it was handed out, handed
      back by a handler, and taken back because its connection went away. */
  datatype Message = Message(body: Body, redelivered: bool, deliveries: nat, requeues: nat, losses: nat)

  datatype Broker = Broker(
    messages: map<MsgId, Message>,
    queue: set<MsgId>,
    unacked: map<MsgId, Delivery>,
    dead: set<MsgId>,
    acked: set<MsgId>,
    live: set<Conn>,
    nextMsg: MsgId,
    nextTag: Tag)

  const EMPTY: Broker := Broker(map[], {}, map[], {}, {}, {}, 0, 0)

  /** The broker still waits for an answer to this very delivery. */
  predicate Live(b: Broker, d: Delivery) {
    d.msg in b.unacked && b.unacked[d.msg] == d
  }

  predicate SettledMsg(b: Broker, m: MsgId) {
    m in b.dead || m in b.acked
  }

  // ---- operations -------------------------------------------------------

  function Accept(b: Broker, body: Body): Broker {
    b.(messages := b.messages[b.nextMsg := Message(body, false, 0, 0, 0)],
       queue := b.queue + {b.nextMsg},
       nextMsg := b.nextMsg + 1)
  }

  function Open(b: Broker, c: Conn): Broker {
    b.(live := b.live + {c})
  }

  function NextDelivery(b: Broker, m: MsgId, c: Conn): Delivery
    requires m in b.messages
  {
    Delivery(m, b.nextTag, c, b.messages[m].redelivered)
  }

  function Deliver(b: Broker, m: MsgId, c: Conn): Broker
    requires m in b.messages
  {
    b.(queue := b.queue - {m},
       unacked := b.unacked[m := NextDelivery(b, m, c)],
       messages := b.messages[m := b.messages[m].(deliveries := b.messages[m].deliveries + 1)],
       nextTag := b.nextTag + 1)
  }

  function Ack(b: Broker, d: Delivery): Broker {
    b.(unacked := b.unacked - {d.msg}, acked := b.acked + {d.msg})
  }

  function DeadLetter(b: Broker, d: Delivery): Broker {
    b.(unacked := b.unacked - {d.msg}, dead := b.dead + {d.msg})
  }

  function Requeue(b: Broker, d: Delivery): Broker
    requires d.msg in b.messages
  {
    b.(unacked := b.unacked - {d.msg},
       queue := b.queue + {d.msg},
       messages := b.messages[d.msg := b.messages[d.msg].(redelivered := true,
                                                          requeues := b.messages[d.msg].requeues + 1)])
  }

  /** The messages a connection takes down with it. */
  function HeldBy(b: Broker, c: Conn): set<MsgId> {
    set m | m in b.unacked && b.unacked[m].conn == c
  }

  /** The broker notices that a connection is gone and takes its unanswered deliveries back. */
  function Drop(b: Broker, c: Conn): Broker {
    var lost := HeldBy(b, c);
    b.(unacked := b.unacked - lost,
       queue := b.queue + lost,
       messages := map m | m in b.messages ::
                     if m in lost
                     then b.messages[m].(redelivered := true, losses := b.messages[m].losses + 1)
                     else b.messages[m],
       live := b.live - {c})
  }

  // ---- conservation -----------------------------------------------------

  /** Message m is in exactly one of the four places, once. */
  predicate Conserved(b: Broker, m: MsgId) {
    (if m in b.queue then 1 else 0) + (if m in b.unacked then 1 else 0)
    + (if m in b.dead then 1 else 0) + (if m in b.acked then 1 else 0) == 1
  }

  /** m was handed out once per entry into the queue, and handed back at most once. */
  predicate Accounted(b: Broker, m: MsgId)
    requires m in b.messages
  {
    var x := b.messages[m];
    && x.deliveries + (if m in b.queue then 1 else 0) == 1 + x.requeues + x.losses
    && x.requeues <= 1
    && (x.redelivered <==> x.requeues + x.losses > 0)
  }

  predicate DeliveryOk(b: Broker, m: MsgId)
    requires m in b.unacked
  {
    var d := b.unacked[m];
    d.msg == m && d.conn in b.live && d.tag < b.nextTag
    && m in b.messages && (d.redelivered <==> b.messages[m].redelivered)
  }

  /** What every state of the broker satisfies, whatever clients do. */
  ghost predicate BrokerOk(b: Broker) {
    && (forall m: MsgId :: m in b.messages <==> m < b.nextMsg)
    && b.queue + b.unacked.Keys + b.dead + b.acked == b.messages.Keys
    && (forall m | m in b.messages :: Conserved(b, m) && Accounted(b, m))
    && (forall m | m in b.unacked :: DeliveryOk(b, m))
  }

  lemma AcceptKeepsBroker(b: Broker, body: Body)
    requires BrokerOk(b)
    ensures BrokerOk(Accept(b, body))
  {
  }

  lemma OpenKeepsBroker(b: Broker, c: Conn)
    requires BrokerOk(b)
    ensures BrokerOk(Open(b, c))
  {
  }

  lemma DeliverKeepsBroker(b: Broker, m: MsgId, c: Conn)
    requires BrokerOk(b) && m in b.queue && c in b.live
    ensures BrokerOk(Deliver(b, m, c))
  {
    var a := Deliver(b, m, c);
    assert Conserved(b, m) && Accounted(b, m);
    assert a.messages.Keys == b.messages.Keys;
    assert a.unacked.Keys == b.unacked.Keys + {m};
    assert forall x | x in b.messages :: Conserved(b, x) && Accounted(b, x);
    assert forall x | x in b.unacked :: DeliveryOk(b, x);
  }

  lemma AckKeepsBroker(b: Broker, d: Delivery)
    requires BrokerOk(b) && Live(b, d)
    ensures BrokerOk(Ack(b, d))
  {
  }

  lemma DeadLetterKeepsBroker(b: Broker, d: Delivery)
    requires BrokerOk(b) && Live(b, d)
    ensures BrokerOk(DeadLetter(b, d))
  {
  }

  /** A handler hands back only deliveries not marked redelivered, which is what bounds retries:
      the message was never handed back before and never lost with a connection. */
  lemma RequeueKeepsBroker(b: Broker, d: Delivery)
    requires BrokerOk(b) && Live(b, d) && !d.redelivered
    ensures BrokerOk(Requeue(b, d))
    ensures b.messages[d.msg].requeues == 0 && b.messages[d.msg].losses == 0
  {
  }

  lemma DropKeepsBroker(b: Broker, c: Conn)
    requires BrokerOk(b)
    ensures BrokerOk(Drop(b, c))
  {
    var a := Drop(b, c);
    assert a.messages.Keys == b.messages.Keys;
    assert a.unacked.Keys == b.unacked.Keys - HeldBy(b, c);
    forall m | m in b.messages ensures Conserved(a, m) && Accounted(a, m) {
      assert Conserved(b, m) && Accounted(b, m);
    }
    forall m | m in a.unacked ensures DeliveryOk(a, m) {
      assert DeliveryOk(b, m);
    }
  }

  // ---- the channel object the worker calls ------------------------------

  datatype ChannelFault = Sound | Lost | RaisesAfter | RaisesInstead

  datatype ChannelCall = AckCall(tag: Tag) | NackCall(tag: Tag, requeue: bool)

  /** One settlement call: whether the broker acted on it, and how the call ended. */
  predicate SettleOutcome(b: Broker, d: Delivery, applied: bool, reply: Reply) {
    && (applied ==> Live(b, d))
    && (reply.Raised? ==> reply.exc == OtherException)
  }

  function Settle(b: Broker, d: Delivery, call: ChannelCall): Broker
    requires d.msg in b.messages
  {
    if call.AckCall? then Ack(b, d)
    else if call.requeue then Requeue(b, d)
    else DeadLetter(b, d)
  }

  /** A consumer's channel, with the calls made on it in order. */
  class Channel {
    var broker: Broker
    var calls: seq<ChannelCall>

    constructor (b: Broker)
      ensures broker == b && calls == []
    {
      broker, calls := b, [];
    }

    method Send(d: Delivery, call: ChannelCall, fault: ChannelFault) returns (reply: Reply, ghost applied: bool)
      requires d.msg in broker.messages
      modifies this
      ensures calls == old(calls) + [call]
      ensures SettleOutcome(old(broker), d, applied, reply)
      ensures broker == if applied then Settle(old(broker), d, call) else old(broker)
      ensures fault.Sound? ==> reply.Returned? && (applied <==> Live(old(broker), d))
      ensures reply.Returned? <==> fault.Sound? || fault.Lost?
    {
      calls := calls + [call];
      applied := (fault.Sound? || fault.RaisesAfter?) && Live(broker, d);
      if (fault.Sound? || fault.RaisesAfter?) && Live(broker, d) {
        if call.AckCall? {
          broker := Ack(broker, d);
        } else if call.requeue {
          broker := Requeue(broker, d);
        } else {
          broker := DeadLetter(broker, d);
        }
      }
      reply := if fault.Sound? || fault.Lost? then Returned else Raised(OtherException);
    }
  }
}
