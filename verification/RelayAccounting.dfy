// What one round, in either mode, leaves in every row, field by field.

module RelayAccounting {
  import opened Domain
  import opened Outbox
  import opened Broker
  import opened RelaySpec
  import opened RelayRounds

  // The row after it was marked, or noted as a failed attempt, or neither.
  ghost predicate Fate(before: OutboxEvent, after: OutboxEvent, marked: bool, noted: bool) {
    after == before.(published := before.published || marked,
                     attempts := before.attempts + (if noted then 1 else 0),
                     lastError := if marked then "" else if noted then REFUSED else before.lastError)
  }

  // Item k of a round was published and its mark took effect.
  predicate MarksItem(batching: bool, f: RoundFault, k: nat) {
    if batching then f.publish.Accepts? && !f.mark.FailsClean?
    else f.items(k).publish.Accepts? && !f.items(k).mark.FailsClean?
  }

  // Item k of a round was refused and the note of it was kept.
  predicate NotesItem(batching: bool, f: RoundFault, k: nat) {
    if batching then f.publish.Rejects? && !f.notes(k).FailsClean?
    else f.items(k).publish.Rejects? && !f.items(k).note.FailsClean?
  }

  // The rows of the items show their fate; every other row is as it was.
  ghost predicate Accounted(before: seq<OutboxEvent>, after: seq<OutboxEvent>, items: seq<OutboxEvent>,
                            batching: bool, f: RoundFault)
  {
    && |after| == |before|
    && (forall i, k :: 0 <= i < |before| && 0 <= k < |items| && before[i].id == items[k].id ==>
          Fate(before[i], after[i], MarksItem(batching, f, k), NotesItem(batching, f, k)))
    && (forall i :: 0 <= i < |before| && before[i].id !in IdsOf(items) ==> after[i] == before[i])
  }

  lemma {:induction false} NoteAllRow(rows: seq<OutboxEvent>, items: seq<OutboxEvent>, notes: nat -> Fault, i: nat, k: nat)
    requires DistinctIds(items) && i < |rows| && k <= |items|
    requires k < |items| ==> items[k].id == rows[i].id
    requires k == |items| ==> rows[i].id !in IdsOf(items)
    ensures |NoteAll(rows, items, notes)| == |rows|
    ensures Fate(rows[i], NoteAll(rows, items, notes)[i], false, k < |items| && !notes(k).FailsClean?)
  {
    if items != [] {
      var n := |items| - 1;
      if k == n + 1 {
        assert items[n].id in IdsOf(items);
        assert forall id :: id in IdsOf(Init(items)) ==> id in IdsOf(items);
        NoteAllRow(rows, Init(items), notes, i, n);
      } else if k == n {
        assert forall j :: 0 <= j < n ==> items[j].id != rows[i].id;
        NoteAllRow(rows, Init(items), notes, i, n);
      } else {
        NoteAllRow(rows, Init(items), notes, i, k);
      }
    }
  }

  lemma {:induction false} NoteAllLength(rows: seq<OutboxEvent>, items: seq<OutboxEvent>, notes: nat -> Fault)
    ensures |NoteAll(rows, items, notes)| == |rows|
  {
    if items != [] {
      NoteAllLength(rows, Init(items), notes);
    }
  }

  // After a batch round: if the publish was refused, the row of each item whose note was kept counts one
  // attempt more, with the reason, and is no more published than before; if it was accepted, no attempts
  // change; rows outside the batch are untouched.
  lemma BatchAccounting(w: World, items: seq<OutboxEvent>, f: RoundFault)
    requires DistinctIds(items)
    ensures Accounted(w.rows, BatchRound(w, items, f).rows, items, true, f)
  {
    hide NoteAll;
    var after := BatchRound(w, items, f).rows;
    NoteAllLength(w.rows, items, f.notes);
    forall i, k | 0 <= i < |w.rows| && 0 <= k < |items| && w.rows[i].id == items[k].id
      ensures Fate(w.rows[i], after[i], MarksItem(true, f, k), NotesItem(true, f, k))
    {
      assert items[k].id in IdsOf(items);
      NoteAllRow(w.rows, items, f.notes, i, k);
    }
    forall i | 0 <= i < |w.rows| && w.rows[i].id !in IdsOf(items) ensures after[i] == w.rows[i] {
      NoteAllRow(w.rows, items, f.notes, i, |items|);
    }
  }

  lemma SequentialFates(w: World, items: seq<OutboxEvent>, f: RoundFault)
    requires DistinctIds(items)
    ensures Accounted(w.rows, AllItems(w, items, f.items).rows, items, false, f)
  {
    hide AllItems, RowAfter;
    var after := AllItems(w, items, f.items).rows;
    RowsAfterItems(w, items, f.items);
    forall i, k | 0 <= i < |w.rows| && 0 <= k < |items| && w.rows[i].id == items[k].id
      ensures Fate(w.rows[i], after[i], MarksItem(false, f, k), NotesItem(false, f, k))
    {
      RowOfItem(w.rows[i], items, f.items, k);
    }
    forall i | 0 <= i < |w.rows| && w.rows[i].id !in IdsOf(items) ensures after[i] == w.rows[i] {
      RowOfItem(w.rows[i], items, f.items, |items|);
    }
  }

  lemma RoundAccounting(w: World, items: seq<OutboxEvent>, batching: bool, f: RoundFault)
    requires DistinctIds(items)
    ensures Accounted(w.rows, Round(w, items, batching, f).rows, items, batching, f)
  {
    hide Accounted, AllItems, BatchRound;
    if batching {
      BatchAccounting(w, items, f);
    } else {
      SequentialFates(w, items, f);
    }
  }

  // After progress through the first n pending events exactly those are published, their error cleared.
  lemma ProgressAccounting(w: World, n: nat)
    requires DistinctIds(w.rows) && n <= |Pending(w.rows)|
    ensures |Progress(w, n).rows| == |w.rows|
    ensures forall i, q :: 0 <= i < |w.rows| && 0 <= q < |Pending(w.rows)| && w.rows[i].id == Pending(w.rows)[q].id ==>
              Fate(w.rows[i], Progress(w, n).rows[i], q < n, false)
    ensures forall i :: 0 <= i < |w.rows| && w.rows[i].published ==> Progress(w, n).rows[i] == w.rows[i]
  {
    hide Pending;
    var pending := Pending(w.rows);
    PendingIsUnpublished(w.rows);
    PendingDistinct(w.rows);
    forall i, q | 0 <= i < |w.rows| && 0 <= q < |pending| && w.rows[i].id == pending[q].id
      ensures w.rows[i].id in IdsOf(pending[..n]) <==> q < n
    {
      assert q < n ==> pending[..n][q] == pending[q];
      assert forall j :: 0 <= j < n ==> pending[..n][j] == pending[j];
    }
    forall i | 0 <= i < |w.rows| && w.rows[i].published ensures w.rows[i].id !in IdsOf(pending[..n]) {
      PublishedIsNotPending(w.rows, i);
      assert forall j :: 0 <= j < n ==> pending[..n][j] == pending[j];
    }
  }

  lemma PublishedIsNotPending(rows: seq<OutboxEvent>, i: nat)
    requires DistinctIds(rows) && i < |rows| && rows[i].published
    ensures forall q :: 0 <= q < |Pending(rows)| ==> Pending(rows)[q].id != rows[i].id
  {
    PendingIsUnpublished(rows);
    forall q | 0 <= q < |Pending(rows)| ensures Pending(rows)[q].id != rows[i].id {
      assert Pending(rows)[q] in Pending(rows);
      var j :| 0 <= j < |rows| && rows[j] == Pending(rows)[q];
    }
  }
}
