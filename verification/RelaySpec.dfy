// The relay's view of the outbox collection, and the exact effect of a sequential batch.

module RelaySpec {
  import opened Domain
  import opened Tables
  import opened Outbox
  import opened Broker

  function StampIds(rows: seq<OutboxEvent>, ids: set<string>): seq<OutboxEvent> {
    seq(|rows|, i requires 0 <= i < |rows| => if rows[i].id in ids then Stamp(rows[i]) else rows[i])
  }

  function RetryId(rows: seq<OutboxEvent>, id: string, reason: string): seq<OutboxEvent> {
    seq(|rows|, i requires 0 <= i < |rows| => if rows[i].id == id then Retry(rows[i], reason) else rows[i])
  }

  function Marked(rows: seq<OutboxEvent>, ids: set<string>, fault: Fault): seq<OutboxEvent> {
    if fault.FailsClean? then rows else StampIds(rows, ids)
  }

  function Noted(rows: seq<OutboxEvent>, id: string, reason: string, fault: Fault): seq<OutboxEvent> {
    if fault.FailsClean? then rows else RetryId(rows, id, reason)
  }

  function IdsOf(items: seq<OutboxEvent>): set<string> {
    set i | 0 <= i < |items| :: items[i].id
  }

  // ----- Sequential batches -----

  const REFUSED := "publish failed"

  datatype ItemFault = ItemFault(publish: WriteFault, mark: Fault, note: Fault)

  datatype RelayError =
    | ListFailed
    | BatchRefused
    | BatchUnmarked
    | ItemRefused(id: string)
    | ItemUnmarked(id: string)

  datatype Outcome = Published | Refused | Unmarked

  datatype World = World(rows: seq<OutboxEvent>, log: seq<Message>)

  function OutcomeOf(fault: ItemFault): Outcome {
    if fault.publish.Rejects? then Refused else if fault.mark.Works? then Published else Unmarked
  }

  function OneItem(w: World, e: OutboxEvent, fault: ItemFault): World {
    World(if fault.publish.Rejects? then Noted(w.rows, e.id, REFUSED, fault.note)
          else Marked(w.rows, {e.id}, fault.mark),
          w.log + Written([MessageOf(e)], fault.publish))
  }

  function AllItems(w: World, items: seq<OutboxEvent>, faults: nat -> ItemFault): World {
    if items == [] then w
    else OneItem(AllItems(w, Init(items), faults), Last(items), faults(|items| - 1))
  }

  function CountOf(faults: nat -> ItemFault, n: nat, outcome: Outcome): nat {
    if n == 0 then 0
    else CountOf(faults, n - 1, outcome) + (if OutcomeOf(faults(n - 1)) == outcome then 1 else 0)
  }

  function ItemErrors(items: seq<OutboxEvent>, faults: nat -> ItemFault): seq<RelayError> {
    if items == [] then []
    else
      ItemErrors(Init(items), faults) +
      match OutcomeOf(faults(|items| - 1))
      case Published => []
      case Refused => [ItemRefused(Last(items).id)]
      case Unmarked => [ItemUnmarked(Last(items).id)]
  }

  // What became of one row after a batch.
  function RowAfter(row: OutboxEvent, items: seq<OutboxEvent>, faults: nat -> ItemFault): OutboxEvent {
    if items == [] then row
    else
      var before := RowAfter(row, Init(items), faults);
      var fault := faults(|items| - 1);
      if Last(items).id != row.id then before
      else if fault.publish.Rejects? then (if fault.note.FailsClean? then before else Retry(before, REFUSED))
      else if fault.mark.FailsClean? then before else Stamp(before)
  }

  lemma {:induction false} RowKeepsId(row: OutboxEvent, items: seq<OutboxEvent>, faults: nat -> ItemFault)
    ensures RowAfter(row, items, faults).id == row.id
  {
    if items != [] {
      RowKeepsId(row, Init(items), faults);
    }
  }

  lemma {:induction false} RowsAfterItems(w: World, items: seq<OutboxEvent>, faults: nat -> ItemFault)
    ensures var rows := AllItems(w, items, faults).rows;
            |rows| == |w.rows| && forall i :: 0 <= i < |rows| ==> rows[i] == RowAfter(w.rows[i], items, faults)
  {
    if items != [] {
      RowsAfterItems(w, Init(items), faults);
      forall i | 0 <= i < |w.rows| ensures RowAfter(w.rows[i], Init(items), faults).id == w.rows[i].id {
        RowKeepsId(w.rows[i], Init(items), faults);
      }
    }
  }

  // A row no item names is untouched; the row of item k shows exactly that item's fate.
  lemma {:induction false} RowOfItem(row: OutboxEvent, items: seq<OutboxEvent>, faults: nat -> ItemFault, k: nat)
    requires DistinctIds(items) && k <= |items|
    requires k < |items| ==> items[k].id == row.id
    requires k == |items| ==> row.id !in IdsOf(items)
    ensures RowAfter(row, items, faults) ==
            if k == |items| then row
            else if faults(k).publish.Rejects? then
              (if faults(k).note.FailsClean? then row else Retry(row, REFUSED))
            else if faults(k).mark.FailsClean? then row else Stamp(row)
  {
    if items != [] {
      var n := |items| - 1;
      if k == n + 1 {
        assert items[n].id in IdsOf(items);
        assert forall id :: id in IdsOf(Init(items)) ==> id in IdsOf(items);
        RowOfItem(row, Init(items), faults, n);
      } else if k == n {
        assert forall i :: 0 <= i < n ==> items[i].id != row.id;
        RowOfItem(row, Init(items), faults, n);
      } else {
        RowOfItem(row, Init(items), faults, k);
      }
    }
  }

  lemma {:induction false} OutcomesAddUp(faults: nat -> ItemFault, n: nat)
    ensures CountOf(faults, n, Published) + CountOf(faults, n, Refused) + CountOf(faults, n, Unmarked) == n
    ensures CountOf(faults, n, Published) == n <==> forall k :: 0 <= k < n ==> OutcomeOf(faults(k)) == Published
  {
    if n > 0 {
      OutcomesAddUp(faults, n - 1);
    }
  }

  // The error is nil exactly when every item was counted.
  lemma {:induction false} NilErrorIff(items: seq<OutboxEvent>, faults: nat -> ItemFault)
    ensures ItemErrors(items, faults) == [] <==> CountOf(faults, |items|, Published) == |items|
    ensures |ItemErrors(items, faults)| + CountOf(faults, |items|, Published) == |items|
  {
    if items != [] {
      NilErrorIff(Init(items), faults);
    }
  }

  // Accounting of one sequential batch of pending events, whatever fails, when failed marks take no
  // effect and failure notes are kept: the three outcomes add up to the batch; exactly the counted
  // events became published; attempts rose by one for exactly the refused ones; other rows are
  // untouched; and the error is nil if and only if every event was counted.
  lemma SequentialAccounting(w: World, items: seq<OutboxEvent>, faults: nat -> ItemFault)
    requires DistinctIds(w.rows) && DistinctIds(items)
    requires forall k :: 0 <= k < |items| ==> items[k] in w.rows && !items[k].published
    requires forall k :: 0 <= k < |items| ==> !faults(k).mark.FailsDirty? && !faults(k).note.FailsClean?
    ensures var rows := AllItems(w, items, faults).rows;
            && CountOf(faults, |items|, Published) + CountOf(faults, |items|, Refused)
               + CountOf(faults, |items|, Unmarked) == |items|
            && |rows| == |w.rows|
            && (forall i, k :: 0 <= i < |rows| && 0 <= k < |items| && rows[i].id == items[k].id ==>
                  && (rows[i].published <==> OutcomeOf(faults(k)) == Published)
                  && rows[i].attempts == w.rows[i].attempts + (if OutcomeOf(faults(k)) == Refused then 1 else 0))
            && (forall i :: 0 <= i < |rows| && w.rows[i].id !in IdsOf(items) ==> rows[i] == w.rows[i])
            && (CountOf(faults, |items|, Published) == |items| <==> ItemErrors(items, faults) == [])
            && (ItemErrors(items, faults) == [] <==>
                forall k :: 0 <= k < |items| ==> OutcomeOf(faults(k)) == Published)
  {
    hide AllItems, RowAfter, CountOf, ItemErrors;
    NilErrorIff(items, faults);
    var rows := AllItems(w, items, faults).rows;
    OutcomesAddUp(faults, |items|);
    RowsAfterItems(w, items, faults);
    forall i | 0 <= i < |rows| ensures RowAfter(w.rows[i], items, faults).id == w.rows[i].id {
      RowKeepsId(w.rows[i], items, faults);
    }
    forall i, k | 0 <= i < |rows| && 0 <= k < |items| && rows[i].id == items[k].id
      ensures rows[i].published <==> OutcomeOf(faults(k)) == Published
      ensures rows[i].attempts == w.rows[i].attempts + (if OutcomeOf(faults(k)) == Refused then 1 else 0)
    {
      RowOfItem(w.rows[i], items, faults, k);
      assert items[k] in w.rows;
      var j :| 0 <= j < |w.rows| && w.rows[j] == items[k];
      assert i == j;
    }
    forall i | 0 <= i < |rows| && w.rows[i].id !in IdsOf(items) ensures rows[i] == w.rows[i] {
      RowOfItem(w.rows[i], items, faults, |items|);
    }
  }

  // ----- What has reached the log -----

  // The row has a message in the log that carries it as it was listed.
  ghost predicate Sent(log: seq<Message>, row: OutboxEvent) {
    exists m :: m in log && m.body.Json? && Content(m.body.event) == Content(row)
  }

  lemma SentGrows(a: seq<Message>, b: seq<Message>, row: OutboxEvent)
    requires Sent(a, row)
    ensures Sent(a + b, row)
  {
    var m :| m in a && m.body.Json? && Content(m.body.event) == Content(row);
    assert m in a + b;
  }

  lemma SentAppended(a: seq<Message>, b: seq<Message>, row: OutboxEvent)
    requires Sent(b, row)
    ensures Sent(a + b, row)
  {
    var m :| m in b && m.body.Json? && Content(m.body.event) == Content(row);
    assert m in a + b;
  }

  lemma SentOfContent(log: seq<Message>, a: OutboxEvent, b: OutboxEvent)
    requires Sent(log, a) && Content(a) == Content(b)
    ensures Sent(log, b)
  {
  }
}
