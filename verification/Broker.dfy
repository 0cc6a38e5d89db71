// Kafka as the platform sees it: a topic is the sequence of messages written to it, a partition
// is the subsequence whose keys hash to it.

module Broker {
  import opened Domain

  // A message value is the JSON of an event, which decodes to that event, or something else.
  datatype Body = Json(event: OutboxEvent) | Raw(text: string)

  datatype Message = Message(topic: string, key: string, body: Body, eventId: string, eventType: Kind, tenantId: string)

  function MessageOf(e: OutboxEvent): Message {
    Message(e.topic, e.key, Json(e), e.id, e.kind, e.tenant)
  }

  function Messages(batch: seq<OutboxEvent>): seq<Message> {
    seq(|batch|, i requires 0 <= i < |batch| => MessageOf(batch[i]))
  }

  // A write either succeeds, or reports an error after any part of it went through: `kept` are the
  // positions of the messages that did.
  datatype WriteFault = Accepts | Rejects(kept: set<nat>)

  function Kept(messages: seq<Message>, kept: set<nat>): seq<Message> {
    if messages == [] then []
    else Kept(Init(messages), kept) + (if |messages| - 1 in kept then [Last(messages)] else [])
  }

  function Written(messages: seq<Message>, fault: WriteFault): seq<Message> {
    match fault
    case Accepts => messages
    case Rejects(kept) => Kept(messages, kept)
  }

  class Topic {
    var log: seq<Message>

    constructor ()
      ensures log == []
    {
      log := [];
    }

    method Publish(e: OutboxEvent, fault: WriteFault) returns (ok: bool)
      modifies this
      ensures ok == fault.Accepts?
      ensures log == old(log) + Written([MessageOf(e)], fault)
    {
      var message := Message(e.topic, e.key, Json(e), e.id, e.kind, e.tenant);
      log := log + Written([message], fault);
      ok := fault.Accepts?;
    }

    // All messages are built before any is written.
    method PublishBatch(batch: seq<OutboxEvent>, fault: WriteFault) returns (ok: bool)
      modifies this
      ensures batch != [] ==> ok == fault.Accepts? && log == old(log) + Written(Messages(batch), fault)
      ensures batch == [] ==> ok && log == old(log)
    {
      if |batch| == 0 {
        return true;
      }
      var messages := [];
      for i := 0 to |batch|
        invariant messages == Messages(batch[..i])
      {
        messages := messages + [Message(batch[i].topic, batch[i].key, Json(batch[i]), batch[i].id,
                                        batch[i].kind, batch[i].tenant)];
      }
      assert batch[..|batch|] == batch;
      log := log + Written(messages, fault);
      ok := fault.Accepts?;
    }
  }

  // ----- Partitions -----

  // kafka.Hash: an unspecified hash of the key, reduced modulo the number of partitions.
  datatype Layout = Layout(hash: string -> nat, partitions: nat)

  function PartitionOf(layout: Layout, m: Message): nat
    requires layout.partitions > 0
  {
    layout.hash(m.key) % layout.partitions
  }

  function PartitionLog(layout: Layout, log: seq<Message>, p: nat): seq<Message>
    requires layout.partitions > 0
  {
    if log == [] then []
    else PartitionLog(layout, Init(log), p) + (if PartitionOf(layout, Last(log)) == p then [Last(log)] else [])
  }

  lemma {:induction false} PartitionLogGrows(layout: Layout, a: seq<Message>, b: seq<Message>, p: nat)
    requires layout.partitions > 0
    ensures PartitionLog(layout, a, p) <= PartitionLog(layout, a + b, p)
  {
    if b == [] {
      assert a + b == a;
    } else {
      PartitionLogGrows(layout, a, Init(b), p);
      assert a + b == (a + Init(b)) + [Last(b)];
      InitOfSnoc(a + Init(b), Last(b));
    }
  }

  // A message of the topic sits at some offset of its own partition.
  lemma {:induction false} MessageHasOffset(layout: Layout, log: seq<Message>, m: Message)
    requires layout.partitions > 0 && m in log
    ensures m in PartitionLog(layout, log, PartitionOf(layout, m))
  {
    if m != Last(log) {
      assert log == Init(log) + [Last(log)];
      MessageHasOffset(layout, Init(log), m);
    }
  }

  lemma {:induction false} OffsetHasMessage(layout: Layout, log: seq<Message>, p: nat)
    requires layout.partitions > 0
    ensures forall m :: m in PartitionLog(layout, log, p) ==> m in log
  {
    if log != [] {
      OffsetHasMessage(layout, Init(log), p);
      assert log == Init(log) + [Last(log)];
    }
  }
}
