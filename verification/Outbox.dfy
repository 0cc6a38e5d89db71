// The outbox as both stores expose it to the relay: pending events in append order, and the
// two ways an event's bookkeeping changes.

module Outbox {
  import opened Domain

  const DEFAULT_LIMIT := 100

  ghost predicate DistinctIds(rows: seq<OutboxEvent>) {
    forall i, j :: 0 <= i < j < |rows| ==> rows[i].id != rows[j].id
  }

  // Unpublished events, oldest first.
  function Pending(outbox: seq<OutboxEvent>): seq<OutboxEvent> {
    if outbox == [] then []
    else Pending(Init(outbox)) + (if Last(outbox).published then [] else [Last(outbox)])
  }

  function Limit(limit: int): (n: nat)
    ensures n > 0 && n == if limit > 0 then limit else 100
  {
    if limit <= 0 then DEFAULT_LIMIT else limit
  }

  function Take<T>(s: seq<T>, n: nat): seq<T> {
    if n < |s| then s[..n] else s
  }

  function ListPending(outbox: seq<OutboxEvent>, limit: int): seq<OutboxEvent> {
    Take(Pending(outbox), Limit(limit))
  }

  function Stamp(e: OutboxEvent): OutboxEvent {
    e.(published := true, lastError := "")
  }

  function Retry(e: OutboxEvent, reason: string): OutboxEvent {
    e.(attempts := e.attempts + 1, lastError := reason)
  }

  // Position of the first event with this identifier, |outbox| if there is none.
  function Find(outbox: seq<OutboxEvent>, id: string): (i: nat)
    ensures i <= |outbox|
    ensures forall j :: 0 <= j < i ==> outbox[j].id != id
    ensures i < |outbox| ==> outbox[i].id == id
  {
    if outbox == [] then 0
    else
      var i := Find(Init(outbox), id);
      if i < |outbox| - 1 then i
      else if Last(outbox).id == id then i else i + 1
  }

  lemma {:induction false} PendingIsUnpublished(outbox: seq<OutboxEvent>)
    ensures forall e :: e in Pending(outbox) <==> e in outbox && !e.published
  {
    if outbox != [] {
      PendingIsUnpublished(Init(outbox));
      assert outbox == Init(outbox) + [Last(outbox)];
    }
  }

  lemma {:induction false} PendingOfConcat(a: seq<OutboxEvent>, b: seq<OutboxEvent>)
    ensures Pending(a + b) == Pending(a) + Pending(b)
  {
    if b == [] {
      assert a + b == a;
    } else {
      PendingOfConcat(a, Init(b));
      assert a + b == (a + Init(b)) + [Last(b)];
      InitOfSnoc(a + Init(b), Last(b));
    }
  }

  // The pending events of a prefix are the first pending events.
  lemma PendingOfPrefix(outbox: seq<OutboxEvent>, n: nat)
    requires n <= |outbox|
    ensures Pending(outbox[..n]) <= Pending(outbox)
  {
    assert outbox == outbox[..n] + outbox[n..];
    PendingOfConcat(outbox[..n], outbox[n..]);
  }
}
