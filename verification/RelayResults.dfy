// What a finished drain guarantees, whatever failed, and what runs of batch drains keep.

module RelayResults {
  import opened Domain
  import opened Tables
  import opened Outbox
  import opened Broker
  import opened RelaySpec
  import opened RelayRounds
  import opened RelayAccounting
  import opened Relay

  // A nil error means nothing is left pending: the count is the number of events that were, each
  // was stamped, and the log gained exactly those events in outbox order.
  lemma NilErrorDrains(before: World, after: World, size: nat, batching: bool, plan: nat -> RoundFault,
                       n: nat, rounds: nat, total: nat)
    requires DistinctIds(before.rows)
    requires Drained(before, after, size, batching, plan, n, rounds, total, [])
    ensures Pending(after.rows) == []
    ensures total == |Pending(before.rows)|
    ensures after == World(StampIds(before.rows, IdsOf(Pending(before.rows))),
                           before.log + Messages(Pending(before.rows)))
  {
    hide StampIds, IdsOf, Messages;
    PendingAfterProgress(before, n);
    assert Pending(before.rows)[..n] == Pending(before.rows);
  }

  ghost predicate Clean(plan: nat -> RoundFault) {
    forall r :: CleanRoundFault(plan(r))
  }

  ghost predicate CleanRoundFault(f: RoundFault) {
    f.list && f.publish.Accepts? && f.mark.Works? && forall i :: OutcomeOf(f.items(i)) == Published
  }

  lemma {:induction false} NoItemErrors(items: seq<OutboxEvent>, faults: nat -> ItemFault)
    requires forall i :: OutcomeOf(faults(i)) == Published
    ensures ItemErrors(items, faults) == []
  {
    if items != [] {
      NoItemErrors(Init(items), faults);
    }
  }

  // Without failures a drain ends without error, in both modes.
  lemma CleanDrainSucceeds(before: World, after: World, size: nat, batching: bool, plan: nat -> RoundFault,
                           n: nat, rounds: nat, total: nat, errors: seq<RelayError>)
    requires Clean(plan) && Drained(before, after, size, batching, plan, n, rounds, total, errors)
    ensures errors == []
  {
    hide Progress, Round, RoundCount;
    assert CleanRoundFault(plan(rounds));
    NoItemErrors(Take(Pending(before.rows)[n..], size), plan(rounds).items);
  }

  // Batch draining refines sequential draining: without failures a batch drain and a sequential drain
  // from the same world both succeed and end in the same world with the same count, whatever the batch
  // sizes; the log gained the pending events in outbox order.
  lemma ModesAgree(before: World, a: World, b: World, sizeA: nat, sizeB: nat, planA: nat -> RoundFault,
                   planB: nat -> RoundFault, nA: nat, nB: nat, rA: nat, rB: nat, totalA: nat, totalB: nat,
                   errorsA: seq<RelayError>, errorsB: seq<RelayError>)
    requires DistinctIds(before.rows) && Clean(planA) && Clean(planB)
    requires Drained(before, a, sizeA, true, planA, nA, rA, totalA, errorsA)
    requires Drained(before, b, sizeB, false, planB, nB, rB, totalB, errorsB)
    ensures errorsA == errorsB == []
    ensures a == b && totalA == totalB
    ensures Pending(a.rows) == [] && a.log == before.log + Messages(Pending(before.rows))
  {
    hide Drained, Clean, Messages, StampIds, IdsOf, Pending;
    CleanDrainSucceeds(before, a, sizeA, true, planA, nA, rA, totalA, errorsA);
    CleanDrainSucceeds(before, b, sizeB, false, planB, nB, rB, totalB, errorsB);
    NilErrorDrains(before, a, sizeA, true, planA, nA, rA, totalA);
    NilErrorDrains(before, b, sizeB, false, planB, nB, rB, totalB);
  }

  // ----- Counting under failures -----

  ghost predicate NeverDirty(plan: nat -> RoundFault) {
    forall r :: CleanMarks(plan(r))
  }

  // Failed marks take no effect.
  ghost predicate CleanMarks(f: RoundFault) {
    !f.mark.FailsDirty? && NoDirtyMark(f.items)
  }

  lemma {:induction false} RetryKeepsPendingCount(rows: seq<OutboxEvent>, id: string, reason: string)
    ensures |Pending(RetryId(rows, id, reason))| == |Pending(rows)|
  {
    if rows != [] {
      RetryKeepsPendingCount(Init(rows), id, reason);
      assert RetryId(rows, id, reason) ==
             RetryId(Init(rows), id, reason) + [if Last(rows).id == id then Retry(Last(rows), reason) else Last(rows)];
    }
  }

  lemma DropOne(s: seq<OutboxEvent>, k: nat)
    requires DistinctIds(s) && k < |s|
    ensures |DropIds(s, {s[k].id})| == |s| - 1
  {
    var ids := {s[k].id};
    assert s == (s[..k] + [s[k]]) + s[k + 1..];
    DropConcat(s[..k] + [s[k]], s[k + 1..], ids);
    DropSnoc(s[..k], s[k], ids);
    DropNone(s[..k], ids);
    DropNone(s[k + 1..], ids);
  }

  // The row of an item not handled yet is still as it was listed.
  lemma RowOfNextItem(w: World, items: seq<OutboxEvent>, faults: nat -> ItemFault)
    requires DistinctIds(w.rows) && Listed(w.rows, items) && items != []
    ensures Last(items) in AllItems(w, Init(items), faults).rows
    ensures DistinctIds(AllItems(w, Init(items), faults).rows)
  {
    hide AllItems, RowAfter;
    var rows := AllItems(w, Init(items), faults).rows;
    RowsAfterItems(w, Init(items), faults);
    forall i | 0 <= i < |rows| ensures rows[i].id == w.rows[i].id {
      RowKeepsId(w.rows[i], Init(items), faults);
    }
    var e := items[|items| - 1];
    assert e in w.rows;
    var j :| 0 <= j < |w.rows| && w.rows[j] == e;
    RowOfItem(w.rows[j], Init(items), faults, |items| - 1);
    assert rows[j] == e;
  }

  lemma OneItemCounts(w: World, e: OutboxEvent, fault: ItemFault)
    requires DistinctIds(w.rows) && e in w.rows && !e.published && !fault.mark.FailsDirty?
    ensures |Pending(OneItem(w, e, fault).rows)| + (if OutcomeOf(fault) == Published then 1 else 0)
         == |Pending(w.rows)|
  {
    hide Pending, DropIds, RetryId, StampIds;
    RetryKeepsPendingCount(w.rows, e.id, REFUSED);
    PendingAfterStamp(w.rows, {e.id});
    PendingIsUnpublished(w.rows);
    PendingDistinct(w.rows);
    assert e in Pending(w.rows);
    var k :| 0 <= k < |Pending(w.rows)| && Pending(w.rows)[k] == e;
    DropOne(Pending(w.rows), k);
  }

  lemma LastItem(w: World, items: seq<OutboxEvent>, faults: nat -> ItemFault)
    requires items != []
    ensures AllItems(w, items, faults) == OneItem(AllItems(w, Init(items), faults), Last(items), faults(|items| - 1))
  {
  }

  // The items are distinct pending rows.
  ghost predicate Listed(rows: seq<OutboxEvent>, items: seq<OutboxEvent>) {
    DistinctIds(items) && forall k :: 0 <= k < |items| ==> items[k] in rows && !items[k].published
  }

  lemma ListedInit(rows: seq<OutboxEvent>, items: seq<OutboxEvent>)
    requires Listed(rows, items) && items != []
    ensures Listed(rows, Init(items)) && !Last(items).published
  {
    assert Last(items) == items[|items| - 1];
  }

  ghost predicate NoDirtyMark(faults: nat -> ItemFault) {
    forall k :: !faults(k).mark.FailsDirty?
  }

  lemma {:induction false} ItemsCount(w: World, items: seq<OutboxEvent>, faults: nat -> ItemFault)
    requires DistinctIds(w.rows) && Listed(w.rows, items) && NoDirtyMark(faults)
    ensures |Pending(AllItems(w, items, faults).rows)| + CountOf(faults, |items|, Published) == |Pending(w.rows)|
  {
    if items != [] {
      hide Pending, OneItem, OutcomeOf, DistinctIds, AllItems, Listed;
      ListedInit(w.rows, items);
      LastItem(w, items, faults);
      ItemsCount(w, Init(items), faults);
      RowOfNextItem(w, items, faults);
      OneItemCounts(AllItems(w, Init(items), faults), Last(items), faults(|items| - 1));
    }
  }

  lemma {:induction false} NotesKeepPendingCount(rows: seq<OutboxEvent>, items: seq<OutboxEvent>, notes: nat -> Fault)
    ensures |Pending(NoteAll(rows, items, notes))| == |Pending(rows)|
  {
    if items != [] {
      hide Pending;
      NotesKeepPendingCount(rows, Init(items), notes);
      RetryKeepsPendingCount(NoteAll(rows, Init(items), notes), Last(items).id, REFUSED);
    }
  }

  lemma RoundCounts(w: World, size: nat, batching: bool, f: RoundFault)
    requires DistinctIds(w.rows) && CleanMarks(f)
    ensures var items := Take(Pending(w.rows), size);
            |Pending(Round(w, items, batching, f).rows)| + RoundCount(items, batching, f) == |Pending(w.rows)|
  {
    hide Pending, AllItems, StampIds, NoteAll, IdsOf;
    var pending := Pending(w.rows);
    var items := Take(pending, size);
    PendingIsUnpublished(w.rows);
    PendingDistinct(w.rows);
    if batching {
      NotesKeepPendingCount(w.rows, items, f.notes);
      assert items == pending[..|items|];
      PendingAfterStamp(w.rows, IdsOf(items));
      DropPrefix(pending, |items|);
    } else {
      assert forall k :: 0 <= k < |items| ==> items[k] == pending[k] && pending[k] in pending;
      ItemsCount(w, items, f.items);
    }
  }

  lemma ProgressIsDistinct(w: World, n: nat)
    requires DistinctIds(w.rows) && n <= |Pending(w.rows)|
    ensures DistinctIds(Progress(w, n).rows)
  {
    ProgressKeepsIds(w, n);
  }

  // If failed marks take no effect, the count a drain returns, error or not, is the number of
  // events that stopped being pending.
  lemma CountIsNewlyMarked(before: World, after: World, size: nat, batching: bool, plan: nat -> RoundFault,
                           n: nat, rounds: nat, total: nat, errors: seq<RelayError>)
    requires DistinctIds(before.rows) && NeverDirty(plan)
    requires Drained(before, after, size, batching, plan, n, rounds, total, errors)
    ensures total + |Pending(after.rows)| == |Pending(before.rows)|
  {
    hide Progress, Round, RoundErrors, RoundCount, Pending;
    PendingAfterProgress(before, n);
    ProgressIsDistinct(before, n);
    assert CleanMarks(plan(rounds));
    RoundCounts(Progress(before, n), size, batching, plan(rounds));
  }

  // ----- Nothing is marked that was not published -----

  lemma MessagesSend(items: seq<OutboxEvent>, k: nat)
    requires k < |items|
    ensures Sent(Messages(items), items[k])
  {
    assert Messages(items)[k] == MessageOf(items[k]);
    assert MessageOf(items[k]) in Messages(items);
  }

  lemma {:induction false} AcceptedItemIsSent(w: World, items: seq<OutboxEvent>, faults: nat -> ItemFault, k: nat)
    requires k < |items| && faults(k).publish.Accepts?
    ensures Sent(AllItems(w, items, faults).log, items[k])
  {
    var before := AllItems(w, Init(items), faults).log;
    var tail := Written([MessageOf(Last(items))], faults(|items| - 1).publish);
    if k < |items| - 1 {
      AcceptedItemIsSent(w, Init(items), faults, k);
      SentGrows(before, tail, items[k]);
    } else {
      assert MessageOf(items[k]) in before + [MessageOf(items[k])];
    }
  }

  ghost predicate MarkedAreSent(before: World, after: World) {
    |after.rows| == |before.rows| &&
    forall i :: 0 <= i < |after.rows| ==>
      Content(after.rows[i]) == Content(before.rows[i])
      && (after.rows[i].published && !before.rows[i].published ==> Sent(after.log, before.rows[i]))
  }

  lemma StampedAreSent(w: World, items: seq<OutboxEvent>)
    requires DistinctIds(w.rows) && forall k :: 0 <= k < |items| ==> items[k] in w.rows
    ensures MarkedAreSent(w, World(StampIds(w.rows, IdsOf(items)), w.log + Messages(items)))
  {
    hide Sent;
    forall i | 0 <= i < |w.rows| && w.rows[i].id in IdsOf(items)
      ensures Sent(w.log + Messages(items), w.rows[i])
    {
      var k :| 0 <= k < |items| && items[k].id == w.rows[i].id;
      assert items[k] in w.rows;
      MessagesSend(items, k);
      SentAppended(w.log, Messages(items), items[k]);
    }
  }

  lemma {:induction false} RowKeepsContent(row: OutboxEvent, items: seq<OutboxEvent>, faults: nat -> ItemFault)
    ensures Content(RowAfter(row, items, faults)) == Content(row)
  {
    if items != [] {
      RowKeepsContent(row, Init(items), faults);
    }
  }

  lemma RowIsSent(w: World, items: seq<OutboxEvent>, faults: nat -> ItemFault, i: nat)
    requires DistinctIds(w.rows) && DistinctIds(items) && forall k :: 0 <= k < |items| ==> items[k] in w.rows
    requires i < |w.rows|
    ensures RowAfter(w.rows[i], items, faults).published && !w.rows[i].published ==>
              Sent(AllItems(w, items, faults).log, w.rows[i])
  {
    hide AllItems, RowAfter, Sent;
    if w.rows[i].id in IdsOf(items) {
      var k :| 0 <= k < |items| && items[k].id == w.rows[i].id;
      RowOfItem(w.rows[i], items, faults, k);
      if faults(k).publish.Accepts? {
        AcceptedItemIsSent(w, items, faults, k);
        assert items[k] in w.rows;
        assert items[k] == w.rows[i];
      }
    } else {
      RowOfItem(w.rows[i], items, faults, |items|);
    }
  }

  lemma ItemsAreSent(w: World, items: seq<OutboxEvent>, faults: nat -> ItemFault)
    requires DistinctIds(w.rows) && DistinctIds(items) && forall k :: 0 <= k < |items| ==> items[k] in w.rows
    ensures MarkedAreSent(w, AllItems(w, items, faults))
  {
    hide AllItems, RowAfter, Sent;
    var after := AllItems(w, items, faults);
    RowsAfterItems(w, items, faults);
    forall i | 0 <= i < |w.rows|
      ensures Content(after.rows[i]) == Content(w.rows[i])
      ensures after.rows[i].published && !w.rows[i].published ==> Sent(after.log, w.rows[i])
    {
      RowKeepsContent(w.rows[i], items, faults);
      RowIsSent(w, items, faults, i);
    }
  }

  lemma {:induction false} NotesKeepRows(rows: seq<OutboxEvent>, items: seq<OutboxEvent>, notes: nat -> Fault)
    ensures var noted := NoteAll(rows, items, notes);
            |noted| == |rows| &&
            forall i :: 0 <= i < |rows| ==>
              Content(noted[i]) == Content(rows[i]) && noted[i].published == rows[i].published
  {
    if items != [] {
      NotesKeepRows(rows, Init(items), notes);
    }
  }

  lemma RoundsMarkSent(w: World, size: nat, batching: bool, f: RoundFault)
    requires DistinctIds(w.rows)
    ensures MarkedAreSent(w, Round(w, Take(Pending(w.rows), size), batching, f))
  {
    hide Pending, AllItems, StampIds, NoteAll, IdsOf, Sent, Messages;
    var pending := Pending(w.rows);
    var items := Take(pending, size);
    PendingIsUnpublished(w.rows);
    PendingDistinct(w.rows);
    assert forall k :: 0 <= k < |items| ==> items[k] == pending[k] && pending[k] in pending;
    if batching {
      NotesKeepRows(w.rows, items, f.notes);
      StampedAreSent(w, items);
    } else {
      ItemsAreSent(w, items, f.items);
    }
  }

  lemma MarkedAreSentTransitive(a: World, b: World, c: World)
    requires MarkedAreSent(a, b) && MarkedAreSent(b, c) && b.log <= c.log
    ensures MarkedAreSent(a, c)
  {
    hide Sent;
    forall i | 0 <= i < |a.rows|
      ensures Content(c.rows[i]) == Content(a.rows[i])
      ensures c.rows[i].published && !a.rows[i].published ==> Sent(c.log, a.rows[i])
    {
      if b.rows[i].published && !a.rows[i].published {
        assert c.log == b.log + c.log[|b.log|..];
        SentGrows(b.log, c.log[|b.log|..], a.rows[i]);
      } else if c.rows[i].published && !b.rows[i].published {
        SentOfContent(c.log, b.rows[i], a.rows[i]);
      }
    }
  }

  lemma {:induction false} ItemsGrowLog(w: World, items: seq<OutboxEvent>, faults: nat -> ItemFault)
    ensures w.log <= AllItems(w, items, faults).log
  {
    if items != [] {
      ItemsGrowLog(w, Init(items), faults);
    }
  }

  // However a drain ends, it only changed bookkeeping, and every event it marked is in the log.
  lemma DrainMarksOnlySent(before: World, after: World, size: nat, batching: bool, plan: nat -> RoundFault,
                           n: nat, rounds: nat, total: nat, errors: seq<RelayError>)
    requires DistinctIds(before.rows)
    requires Drained(before, after, size, batching, plan, n, rounds, total, errors)
    ensures MarkedAreSent(before, after)
  {
    hide Round, RoundErrors, RoundCount, Pending, MarkedAreSent, StampIds, IdsOf, Messages;
    var pending := Pending(before.rows);
    PendingIsUnpublished(before.rows);
    assert forall k :: 0 <= k < n ==> pending[..n][k] == pending[k] && pending[k] in pending;
    StampedAreSent(before, pending[..n]);
    PendingAfterProgress(before, n);
    ProgressIsDistinct(before, n);
    var w := Progress(before, n);
    RoundsMarkSent(w, size, batching, plan(rounds));
    RoundGrowsLog(w, Take(Pending(w.rows), size), batching, plan(rounds));
    MarkedAreSentTransitive(before, w, Round(w, Take(Pending(w.rows), size), batching, plan(rounds)));
  }

  lemma RoundGrowsLog(w: World, items: seq<OutboxEvent>, batching: bool, f: RoundFault)
    ensures w.log <= Round(w, items, batching, f).log
  {
    ItemsGrowLog(w, items, f.items);
  }

  // ----- Every row after a drain -----

  // A drain that ended in a failing round: that round's item k, if any, is pending event n + k.
  ghost predicate Failed(errors: seq<RelayError>) {
    errors != [] && errors != [ListFailed]
  }

  // Every row after a whole drain, in either mode and whatever failed. The q-th pending event is
  // published, its error cleared, if it was among the first n, or an item the failing round marked; it
  // counts one attempt more, with the reason, exactly if it is an item of the failing round whose note
  // was kept. Every other row is as it was.
  lemma DrainAccounting(before: World, after: World, size: nat, batching: bool, plan: nat -> RoundFault,
                        n: nat, rounds: nat, total: nat, errors: seq<RelayError>)
    requires DistinctIds(before.rows)
    requires Drained(before, after, size, batching, plan, n, rounds, total, errors)
    ensures |after.rows| == |before.rows|
    ensures var pending := Pending(before.rows);
            forall i, q :: 0 <= i < |before.rows| && 0 <= q < |pending| && before.rows[i].id == pending[q].id ==>
              var failing := Failed(errors) && n <= q < n + size;
              Fate(before.rows[i], after.rows[i],
                   q < n || (failing && MarksItem(batching, plan(rounds), q - n)),
                   failing && NotesItem(batching, plan(rounds), q - n))
    ensures forall i :: 0 <= i < |before.rows| && before.rows[i].published ==> after.rows[i] == before.rows[i]
  {
    hide Progress, Pending, Round, RoundErrors, RoundCount, DistinctIds, Fate, MarksItem, NotesItem;
    ProgressAccounting(before, n);
    if Failed(errors) {
      RoundFates(before, size, batching, plan(rounds), n);
    }
  }

  // The failing round after n events of progress.
  lemma RoundFates(before: World, size: nat, batching: bool, f: RoundFault, n: nat)
    requires DistinctIds(before.rows) && n <= |Pending(before.rows)|
    ensures var pending := Pending(before.rows);
            var after := Round(Progress(before, n), Take(pending[n..], size), batching, f);
            && |after.rows| == |before.rows|
            && (forall i, q :: 0 <= i < |before.rows| && 0 <= q < |pending| && before.rows[i].id == pending[q].id ==>
                  Fate(before.rows[i], after.rows[i], q < n || (n <= q < n + size && MarksItem(batching, f, q - n)),
                       n <= q < n + size && NotesItem(batching, f, q - n)))
            && forall i :: 0 <= i < |before.rows| && before.rows[i].published ==> after.rows[i] == before.rows[i]
  {
    hide Progress, Pending, Round, MarksItem, NotesItem, Fate, DistinctIds, Accounted;
    var pending := Pending(before.rows);
    var items := Take(pending[n..], size);
    var w := Progress(before, n);
    var after := Round(w, items, batching, f);
    ProgressAccounting(before, n);
    ProgressKeepsIds(before, n);
    PendingDistinct(before.rows);
    PartDistinct(pending, n, size);
    RoundAccounting(w, items, batching, f);
    SizeOf(w.rows, after.rows, items, batching, f);
    forall i, q | 0 <= i < |before.rows| && 0 <= q < |pending| && before.rows[i].id == pending[q].id
      ensures Fate(before.rows[i], after.rows[i], q < n || (n <= q < n + size && MarksItem(batching, f, q - n)),
                   n <= q < n + size && NotesItem(batching, f, q - n))
    {
      OneFate(pending, w.rows, after.rows, n, size, batching, f, i, q);
      Untouched(before.rows[i], w.rows[i], after.rows[i], q < n);
    }
    forall i | 0 <= i < |before.rows| && before.rows[i].published ensures after.rows[i] == before.rows[i] {
      PublishedIsNotPending(before.rows, i);
      NotAnItem(pending, w.rows, after.rows, n, size, batching, f, i);
    }
  }

  lemma SizeOf(a: seq<OutboxEvent>, b: seq<OutboxEvent>, items: seq<OutboxEvent>, batching: bool, f: RoundFault)
    requires Accounted(a, b, items, batching, f)
    ensures |a| == |b|
  {
  }

  lemma PartDistinct(pending: seq<OutboxEvent>, n: nat, size: nat)
    requires DistinctIds(pending) && n <= |pending|
    ensures DistinctIds(Take(pending[n..], size))
  {
  }

  // A row that did not change keeps the fate it had.
  lemma Untouched(a: OutboxEvent, b: OutboxEvent, c: OutboxEvent, first: bool)
    requires Fate(a, b, first, false)
    ensures first && c == b ==> Fate(a, c, true, false)
    ensures !first ==> b == a
  {
  }

  lemma OneFate(pending: seq<OutboxEvent>, a: seq<OutboxEvent>, b: seq<OutboxEvent>, n: nat, size: nat,
                batching: bool, f: RoundFault, i: nat, q: nat)
    requires DistinctIds(pending) && n <= |pending| && i < |a| && q < |pending| && a[i].id == pending[q].id
    requires |a| == |b| && Accounted(a, b, Take(pending[n..], size), batching, f)
    ensures if n <= q < n + size then Fate(a[i], b[i], MarksItem(batching, f, q - n), NotesItem(batching, f, q - n))
            else b[i] == a[i]
  {
    hide Fate, MarksItem, NotesItem;
    var items := Take(pending[n..], size);
    if n <= q < n + size {
      assert items[q - n] == pending[q];
    } else {
      assert forall k :: 0 <= k < |items| ==> items[k] == pending[n + k];
    }
  }

  lemma NotAnItem(pending: seq<OutboxEvent>, a: seq<OutboxEvent>, b: seq<OutboxEvent>, n: nat, size: nat,
                  batching: bool, f: RoundFault, i: nat)
    requires n <= |pending| && i < |a| && forall q :: 0 <= q < |pending| ==> pending[q].id != a[i].id
    requires |a| == |b| && Accounted(a, b, Take(pending[n..], size), batching, f)
    ensures b[i] == a[i]
  {
    hide Fate, MarksItem, NotesItem;
    var items := Take(pending[n..], size);
    assert forall k :: 0 <= k < |items| ==> items[k] == pending[n + k];
  }

  // ----- Batch drains keep the published events a prefix -----

  ghost predicate PublishedPrefix(rows: seq<OutboxEvent>, k: nat) {
    k <= |rows| && forall i :: 0 <= i < |rows| ==> (rows[i].published <==> i < k)
  }

  lemma {:induction false} PendingOfPublished(rows: seq<OutboxEvent>)
    requires forall i :: 0 <= i < |rows| ==> rows[i].published
    ensures Pending(rows) == []
  {
    if rows != [] {
      PendingOfPublished(Init(rows));
    }
  }

  lemma {:induction false} PendingOfUnpublished(rows: seq<OutboxEvent>)
    requires forall i :: 0 <= i < |rows| ==> !rows[i].published
    ensures Pending(rows) == rows
  {
    if rows != [] {
      hide Init, Last;
      SplitLast(rows);
      PendingOfUnpublished(Init(rows));
    }
  }

  lemma PendingIsSuffix(rows: seq<OutboxEvent>, k: nat)
    requires PublishedPrefix(rows, k)
    ensures Pending(rows) == rows[k..]
  {
    assert rows == rows[..k] + rows[k..];
    PendingOfConcat(rows[..k], rows[k..]);
    PendingOfPublished(rows[..k]);
    PendingOfUnpublished(rows[k..]);
  }

  lemma StampingExtendsPrefix(rows: seq<OutboxEvent>, k: nat, n: nat)
    requires DistinctIds(rows) && PublishedPrefix(rows, k) && k + n <= |rows|
    ensures PublishedPrefix(StampIds(rows, IdsOf(rows[k..k + n])), k + n)
  {
    var batch := rows[k..k + n];
    forall i | 0 <= i < |rows| ensures rows[i].id in IdsOf(batch) <==> k <= i < k + n {
      if k <= i < k + n {
        assert batch[i - k] == rows[i];
      }
      if rows[i].id in IdsOf(batch) {
        var j :| 0 <= j < |batch| && batch[j].id == rows[i].id;
        assert batch[j] == rows[k + j];
      }
    }
  }

  // One batch round, whatever fails, marks all of its events or none.
  lemma BatchRoundKeepsPrefix(w: World, size: nat, f: RoundFault, k: nat) returns (m: nat)
    requires DistinctIds(w.rows) && PublishedPrefix(w.rows, k)
    ensures m == |RoundAcked(w, size, f)|
    ensures m > 0 ==> k + m <= |w.rows| && RoundAcked(w, size, f) == w.rows[k..k + m]
    ensures var after := Round(w, Take(Pending(w.rows), size), true, f);
            && k + m <= |w.rows| && PublishedPrefix(after.rows, k + m)
            && w.log + Messages(w.rows[k..k + m]) <= after.log
  {
    hide StampIds, IdsOf, Messages, NoteAll, Pending;
    var items := Take(Pending(w.rows), size);
    PendingIsSuffix(w.rows, k);
    assert items == w.rows[k..k + |items|];
    NotesKeepRows(w.rows, items, f.notes);
    StampingExtendsPrefix(w.rows, k, |items|);
    NoMessages();
    m := if f.publish.Accepts? && !f.mark.FailsClean? then |items| else 0;
    assert w.rows[k..k + 0] == [];
  }

  lemma NoMessages()
    ensures Messages([]) == []
  {
  }

  // After a batch drain the published events are again a prefix of the outbox, whatever failed; it
  // grew by the first m pending events, and the log received exactly those, in order, first.
  lemma BatchDrainKeepsPrefix(before: World, after: World, size: nat, plan: nat -> RoundFault,
                              n: nat, rounds: nat, total: nat, errors: seq<RelayError>, k: nat) returns (m: nat)
    requires DistinctIds(before.rows) && PublishedPrefix(before.rows, k)
    requires Drained(before, after, size, true, plan, n, rounds, total, errors)
    ensures k + m <= |before.rows| && PublishedPrefix(after.rows, k + m)
    ensures before.log + Messages(before.rows[k..k + m]) <= after.log
  {
    hide StampIds, IdsOf, Messages, Pending, Round, RoundErrors, RoundCount, DistinctIds, RoundAcked;
    ProgressKeepsPrefix(before, k, n);
    m := n;
    if errors != [] && errors != [ListFailed] {
      var w := Progress(before, n);
      PendingAfterProgress(before, n);
      var j := BatchRoundKeepsPrefix(w, size, plan(rounds), k + n);
      ProgressKeepsTail(before, k, n);
      m := n + j;
      assert before.rows[k..k + m] == before.rows[k..k + n] + w.rows[k + n..k + m];
      MessagesConcat(before.rows[k..k + n], w.rows[k + n..k + m]);
    }
  }

  lemma ProgressKeepsPrefix(w: World, k: nat, n: nat)
    requires DistinctIds(w.rows) && PublishedPrefix(w.rows, k) && n <= |Pending(w.rows)|
    ensures k + n <= |w.rows| && PublishedPrefix(Progress(w, n).rows, k + n)
    ensures DistinctIds(Progress(w, n).rows)
    ensures Progress(w, n).log == w.log + Messages(w.rows[k..k + n])
  {
    hide StampIds, IdsOf, Messages;
    PendingIsSuffix(w.rows, k);
    assert w.rows[k..][..n] == w.rows[k..k + n];
    StampingExtendsPrefix(w.rows, k, n);
    ProgressIsDistinct(w, n);
  }

  lemma ProgressKeepsTail(w: World, k: nat, n: nat)
    requires DistinctIds(w.rows) && PublishedPrefix(w.rows, k) && n <= |Pending(w.rows)| && k + n <= |w.rows|
    requires PublishedPrefix(Progress(w, n).rows, k + n)
    ensures |Progress(w, n).rows| == |w.rows|
    ensures forall i :: k + n <= i < |w.rows| ==> Progress(w, n).rows[i] == w.rows[i]
  {
    hide StampIds;
    var v := Progress(w, n);
    PendingAfterProgress(w, n);
    PendingIsSuffix(w.rows, k);
    PendingIsSuffix(v.rows, k + n);
    ProgressKeepsIds(w, n);
    assert v.rows[k + n..] == w.rows[k..][n..];
    forall i | k + n <= i < |w.rows| ensures v.rows[i] == w.rows[i] {
      assert v.rows[i] == v.rows[k + n..][i - k - n];
    }
  }

  // ----- Histories of batch drains -----

  ghost predicate AllSent(log: seq<Message>, items: seq<OutboxEvent>) {
    forall i :: 0 <= i < |items| ==> Sent(log, items[i])
  }

  // From w to v the published prefix of length k grew by exactly the events of `batch`, all of them in
  // the log; nothing else happened to the content of the outbox.
  ghost predicate Extends(w: World, v: World, k: nat, batch: seq<OutboxEvent>) {
    && SameContent(w.rows, v.rows) && DistinctIds(v.rows)
    && k + |batch| <= |w.rows| && PublishedPrefix(v.rows, k + |batch|)
    && SameContent(batch, w.rows[k..k + |batch|])
    && w.log <= v.log && AllSent(v.log, batch)
  }

  lemma RoundExtends(w: World, size: nat, f: RoundFault, k: nat)
    requires DistinctIds(w.rows) && PublishedPrefix(w.rows, k)
    ensures Extends(w, Round(w, Take(Pending(w.rows), size), true, f), k, RoundAcked(w, size, f))
  {
    hide Sent, Pending, Messages, Round, RoundAcked, Content;
    var v := Round(w, Take(Pending(w.rows), size), true, f);
    var batch := RoundAcked(w, size, f);
    var m := BatchRoundKeepsPrefix(w, size, f, k);
    RoundsMarkSent(w, size, true, f);
    SameIds(w, v);
    RoundGrowsLog(w, Take(Pending(w.rows), size), true, f);
    forall i | 0 <= i < m ensures batch[i] == w.rows[k + i] && Sent(v.log, batch[i]) {
      assert v.rows[k + i].published && !w.rows[k + i].published;
    }
  }

  lemma SameIds(w: World, v: World)
    requires DistinctIds(w.rows) && SameContent(w.rows, v.rows)
    ensures DistinctIds(v.rows)
  {
    forall i | 0 <= i < |w.rows| ensures v.rows[i].id == w.rows[i].id {
      assert Content(v.rows[i]) == Content(w.rows[i]);
    }
  }

  lemma SentStays(a: seq<Message>, b: seq<Message>, items: seq<OutboxEvent>)
    requires a <= b && AllSent(a, items)
    ensures AllSent(b, items)
  {
    hide Sent;
    assert b == a + b[|a|..];
    forall i | 0 <= i < |items| ensures Sent(b, items[i]) {
      SentGrows(a, b[|a|..], items[i]);
    }
  }

  lemma ExtendsTransitive(u: World, v: World, w: World, k: nat, a: seq<OutboxEvent>, b: seq<OutboxEvent>)
    requires Extends(u, v, k, a) && Extends(v, w, k + |a|, b)
    ensures Extends(u, w, k, a + b)
  {
    hide Sent, Content, DistinctIds;
    SentStays(v.log, w.log, a);
    forall i | 0 <= i < |a + b| ensures Content((a + b)[i]) == Content(u.rows[k + i]) && Sent(w.log, (a + b)[i]) {
      if i < |a| {
        assert Content(a[i]) == Content(u.rows[k..k + |a|][i]);
        assert Sent(w.log, a[i]);
      } else {
        assert Content(b[i - |a|]) == Content(v.rows[k + |a|..k + |a| + |b|][i - |a|]);
        assert Content(u.rows[k + i]) == Content(v.rows[k + i]);
      }
    }
  }

  // However many rounds are played and whatever fails in them, the published prefix grows by the
  // concatenation of the batches that were published and marked.
  lemma {:induction false} RoundsExtend(w: World, size: nat, plan: nat -> RoundFault, n: nat, k: nat)
    requires DistinctIds(w.rows) && PublishedPrefix(w.rows, k)
    ensures Extends(w, AfterRounds(w, size, true, plan, n), k, Acked(w, size, plan, n))
  {
    hide Extends, Round, RoundAcked, Pending, AfterRounds, Acked, DistinctIds, PublishedPrefix;
    if n == 0 {
      NothingExtends(w, size, plan, k);
    } else {
      RoundsExtend(w, size, plan, n - 1, k);
      var v, a := AfterRounds(w, size, true, plan, n - 1), Acked(w, size, plan, n - 1);
      ExtendsBasics(w, v, k, a);
      RoundExtends(v, size, plan(n - 1), k + |a|);
      OneMoreRound(w, size, plan, n - 1);
      ExtendsTransitive(w, v, AfterRounds(w, size, true, plan, n), k, a, RoundAcked(v, size, plan(n - 1)));
    }
  }

  lemma NothingExtends(w: World, size: nat, plan: nat -> RoundFault, k: nat)
    requires DistinctIds(w.rows) && PublishedPrefix(w.rows, k)
    ensures Extends(w, AfterRounds(w, size, true, plan, 0), k, Acked(w, size, plan, 0))
  {
    hide Sent;
  }

  lemma OneMoreRound(w: World, size: nat, plan: nat -> RoundFault, n: nat)
    ensures var v := AfterRounds(w, size, true, plan, n);
            && AfterRounds(w, size, true, plan, n + 1) == Round(v, Take(Pending(v.rows), size), true, plan(n))
            && Acked(w, size, plan, n + 1) == Acked(w, size, plan, n) + RoundAcked(v, size, plan(n))
  {
  }

  lemma ExtendsBasics(w: World, v: World, k: nat, a: seq<OutboxEvent>)
    requires Extends(w, v, k, a)
    ensures DistinctIds(v.rows) && PublishedPrefix(v.rows, k + |a|)
  {
  }

  // A history of one relay: events are appended and batch drains run, in any order and with any
  // failures. `acked` collects the batches published and marked, round by round.
  ghost predicate BatchHistory(worlds: seq<World>, acked: seq<OutboxEvent>) {
    worlds != [] &&
    if |worlds| == 1 then worlds[0].rows == [] && acked == []
    else
      var w, v := Last(Init(worlds)), Last(worlds);
      (BatchHistory(Init(worlds), acked) && AppendsOne(w, v))
      || exists earlier, batches :: BatchHistory(Init(worlds), earlier) && DrainsBatches(w, v, batches)
                                      && acked == earlier + batches
  }

  ghost predicate AppendsOne(w: World, v: World) {
    exists e :: AppendsEvent(w, v, e)
  }

  ghost predicate AppendsEvent(w: World, v: World, e: OutboxEvent) {
    !e.published && e.id !in IdsOf(w.rows) && v == World(w.rows + [e], w.log)
  }

  // What a batch drain does, as DrainOutbox ensures: some number of rounds.
  ghost predicate DrainsBatches(w: World, v: World, batches: seq<OutboxEvent>) {
    exists size: nat, plan, n: nat ::
      v == AfterRounds(w, size, true, plan, n) && batches == Acked(w, size, plan, n)
  }

  lemma AppendKeepsPrefix(w: World, v: World, k: nat)
    requires AppendsOne(w, v) && DistinctIds(w.rows) && PublishedPrefix(w.rows, k)
    ensures DistinctIds(v.rows) && PublishedPrefix(v.rows, k)
    ensures v.rows[..k] == w.rows[..k] && v.log == w.log
  {
    var e :| AppendsEvent(w, v, e);
    assert forall i :: 0 <= i < |w.rows| ==> w.rows[i].id in IdsOf(w.rows);
  }

  lemma DrainExtends(w: World, v: World, batches: seq<OutboxEvent>, k: nat)
    requires DrainsBatches(w, v, batches) && DistinctIds(w.rows) && PublishedPrefix(w.rows, k)
    ensures Extends(w, v, k, batches)
  {
    hide AfterRounds, Acked, Extends;
    var size: nat, plan, n: nat :| v == AfterRounds(w, size, true, plan, n) && batches == Acked(w, size, plan, n);
    RoundsExtend(w, size, plan, n, k);
  }

  // With one relay, every history of batch drains keeps the published events a prefix of the outbox:
  // the batches that were published and marked, concatenated in the order of their rounds, are exactly
  // that prefix, all of it in the log.
  lemma {:induction false} AckedIsPublishedPrefix(worlds: seq<World>, acked: seq<OutboxEvent>)
    requires BatchHistory(worlds, acked)
    ensures var w := Last(worlds);
            && DistinctIds(w.rows)
            && PublishedPrefix(w.rows, |acked|)
            && SameContent(acked, w.rows[..|acked|])
            && AllSent(w.log, acked)
  {
    if |worlds| > 1 {
      hide Sent, DrainsBatches, AppendsOne, Content, Extends;
      var w, v := Last(Init(worlds)), Last(worlds);
      if BatchHistory(Init(worlds), acked) && AppendsOne(w, v) {
        AckedIsPublishedPrefix(Init(worlds), acked);
        AppendKeepsPrefix(w, v, |acked|);
      } else {
        var earlier, batches :| BatchHistory(Init(worlds), earlier) && DrainsBatches(w, v, batches)
                                && acked == earlier + batches;
        AckedIsPublishedPrefix(Init(worlds), earlier);
        DrainExtends(w, v, batches, |earlier|);
        AckedAfterDrain(w, v, earlier, batches);
      }
    }
  }

  lemma AckedAfterDrain(w: World, v: World, earlier: seq<OutboxEvent>, batches: seq<OutboxEvent>)
    requires Extends(w, v, |earlier|, batches) && AllSent(w.log, earlier)
    requires SameContent(earlier, w.rows[..|earlier|])
    ensures var acked := earlier + batches;
            && DistinctIds(v.rows) && PublishedPrefix(v.rows, |acked|)
            && SameContent(acked, v.rows[..|acked|]) && AllSent(v.log, acked)
  {
    hide Sent, Content, DistinctIds;
    var acked := earlier + batches;
    SentStays(w.log, v.log, earlier);
    forall i | 0 <= i < |acked| ensures Content(acked[i]) == Content(v.rows[i]) && Sent(v.log, acked[i]) {
      assert Content(w.rows[i]) == Content(v.rows[i]);
      if i < |earlier| {
        assert Content(earlier[i]) == Content(w.rows[..|earlier|][i]);
        assert Sent(v.log, earlier[i]);
      } else {
        assert Content(batches[i - |earlier|]) == Content(w.rows[|earlier|..|acked|][i - |earlier|]);
      }
    }
  }
}
