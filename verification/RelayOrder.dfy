// The sequential path under failures, and the relay's view of the memory store's outbox.

module RelayOrder {
  import opened Domain
  import opened Tables
  import opened Outbox
  import opened Broker
  import opened RelaySpec
  import opened RelayRounds
  import opened Relay
  import opened RelayResults
  import MemorySpec
  import Ledger

  // Item k is marked: it was sent and the mark took effect.
  predicate IsMarked(fault: ItemFault) {
    fault.publish.Accepts? && !fault.mark.FailsClean?
  }

  ghost predicate NoLaterMark(faults: nat -> ItemFault, n: nat) {
    forall a: nat, b: nat :: a < b < n && !IsMarked(faults(a)) ==> !IsMarked(faults(b))
  }

  // Item j of a sequential batch of the first pending events is row k + j; other rows stay.
  lemma RowsAfterBatch(w: World, k: nat, n: nat, faults: nat -> ItemFault)
    requires DistinctIds(w.rows) && PublishedPrefix(w.rows, k) && k + n <= |w.rows|
    ensures var rows := AllItems(w, w.rows[k..k + n], faults).rows;
            |rows| == |w.rows| && forall i :: 0 <= i < |rows| ==>
              (rows[i].published <==> i < k || (i < k + n && IsMarked(faults(i - k))))
  {
    hide AllItems, RowAfter;
    var items := w.rows[k..k + n];
    var rows := AllItems(w, items, faults).rows;
    RowsAfterItems(w, items, faults);
    forall i | 0 <= i < |rows|
      ensures rows[i].published <==> i < k || (i < k + n && IsMarked(faults(i - k)))
    {
      if k <= i < k + n {
        assert items[i - k] == w.rows[i];
        RowOfItem(w.rows[i], items, faults, i - k);
      } else {
        RowOfItem(w.rows[i], items, faults, n);
      }
    }
  }

  // The sequential path goes on after a failed publish. It keeps the published events a prefix of the
  // outbox exactly when no event was marked after one that was not.
  lemma SequentialKeepsPrefixIff(w: World, k: nat, size: nat, faults: nat -> ItemFault)
    requires DistinctIds(w.rows) && PublishedPrefix(w.rows, k)
    ensures var items := Take(Pending(w.rows), size);
            (exists m: nat :: PublishedPrefix(AllItems(w, items, faults).rows, m)) <==> NoLaterMark(faults, |items|)
  {
    hide AllItems, Pending;
    PendingIsSuffix(w.rows, k);
    var items := Take(Pending(w.rows), size);
    var n := |items|;
    assert items == w.rows[k..k + n];
    RowsAfterBatch(w, k, n, faults);
    var rows := AllItems(w, items, faults).rows;
    if NoLaterMark(faults, n) {
      var m := Leading(faults, n);
      forall i | 0 <= i < |rows| ensures rows[i].published <==> i < k + m {
        if k + m <= i < k + n {
          assert !IsMarked(faults(m));
          assert i > k + m ==> !IsMarked(faults(i - k));
        }
      }
      assert PublishedPrefix(rows, k + m);
    } else {
      var a: nat, b: nat :| a < b < n && !IsMarked(faults(a)) && IsMarked(faults(b));
      assert !rows[k + a].published && rows[k + b].published;
    }
  }

  // A whole sequential drain keeps the published events a prefix exactly when its last round did: the
  // drain ended without a failing round, or that round marked nothing after an event it did not mark.
  lemma SequentialDrainKeepsPrefixIff(before: World, after: World, size: nat, plan: nat -> RoundFault,
                                      n: nat, rounds: nat, total: nat, errors: seq<RelayError>, k: nat)
    requires DistinctIds(before.rows) && PublishedPrefix(before.rows, k)
    requires Drained(before, after, size, false, plan, n, rounds, total, errors)
    ensures (exists m: nat :: PublishedPrefix(after.rows, m)) <==>
            errors == [] || errors == [ListFailed]
            || NoLaterMark(plan(rounds).items, |Take(Pending(before.rows)[n..], size)|)
  {
    hide AllItems, Pending, Progress, NoLaterMark, RoundErrors, RoundCount, DistinctIds, PublishedPrefix;
    ProgressKeepsPrefix(before, k, n);
    PendingAfterProgress(before, n);
    if errors != [] && errors != [ListFailed] {
      var w := Progress(before, n);
      var items := Take(Pending(before.rows)[n..], size);
      SequentialKeepsPrefixIff(w, k + n, size, plan(rounds).items);
      assert after == AllItems(w, items, plan(rounds).items);
    }
  }

  // It occurs: the first of two events is refused, the second published and marked.
  lemma RefusedThenMarked(a: OutboxEvent, b: OutboxEvent)
    requires a.id != b.id && !a.published && !b.published
    ensures var faults := (k: nat) => ItemFault(if k == 0 then Rejects({}) else Accepts, Works, Works);
            var w := World([a, b], []);
            && AllItems(w, [a, b], faults) == World([Retry(a, REFUSED), Stamp(b)], [MessageOf(b)])
            && forall m: nat :: !PublishedPrefix(AllItems(w, [a, b], faults).rows, m)
  {
    var faults := (k: nat) => ItemFault(if k == 0 then Rejects({}) else Accepts, Works, Works);
    var w := World([a, b], []);
    assert Init([a, b]) == [a] && Init([a]) == [] && Init([MessageOf(a)]) == [];
    var first := OneItem(w, a, faults(0));
    assert first.log == Kept([MessageOf(a)], {}) == [];
    assert first.rows == [Retry(a, REFUSED), b];
    assert AllItems(w, [a], faults) == first;
    var second := OneItem(first, b, faults(1));
    assert second.rows == [Retry(a, REFUSED), Stamp(b)];
    assert AllItems(w, [a, b], faults) == second;
    var rows := AllItems(w, [a, b], faults).rows;
    forall m: nat ensures !PublishedPrefix(rows, m) {
      assert !rows[0].published && rows[1].published;
    }
  }

  function Leading(faults: nat -> ItemFault, n: nat): (m: nat)
    ensures m <= n
    ensures forall j: nat :: j < m ==> IsMarked(faults(j))
    ensures m < n ==> !IsMarked(faults(m))
  {
    if n == 0 then 0
    else
      var m := Leading(faults, n - 1);
      if m < n - 1 then m else if IsMarked(faults(n - 1)) then n else n - 1
  }

  // ----- The memory store behind the relay -----

  // In every reachable state the memory store's two outbox calls, which change the first event with
  // the identifier, have the effect the relay relies on: they change exactly the events with it.
  lemma MemoryMarksAlike(ops: seq<MemorySpec.Op>, id: string, reason: string)
    ensures var s := MemorySpec.Run(ops);
            && DistinctIds(s.tables.outbox)
            && MemorySpec.Amend(s, id, Stamp).0.tables.outbox == StampIds(s.tables.outbox, {id})
            && MemorySpec.Amend(s, id, e => Retry(e, reason)).0.tables.outbox == RetryId(s.tables.outbox, id, reason)
  {
    Ledger.OutboxIdsDistinct(ops);
    var rows := MemorySpec.Run(ops).tables.outbox;
    assert forall i, j :: 0 <= i < |rows| && 0 <= j < |rows| && rows[i].id == rows[j].id ==> i == j;
  }

  // In every reachable state of the memory store the outbox is an exact event-sourced copy of the
  // record table: the fold rebuilds every record's tenant, workflow, state and version, a record's
  // events are one creation at version 1 and updates at 2, 3, ... without gap, and the audit log
  // agrees entry by entry.
  lemma OutboxSourcesRecords(ops: seq<MemorySpec.Op>, id: string)
    ensures var tables := MemorySpec.Run(ops).tables;
            && Rebuild(tables.outbox) == Some(Views(tables.records))
            && AuditMatchesOutbox(tables.audit, tables.outbox)
            && GapFree(History(tables.outbox, id))
            && |History(tables.outbox, id)| == (if id in tables.records then tables.records[id].version else 0)
  {
    hide Rebuild, History, AuditMatchesOutbox, WellFormed, Indexed;
    MemorySpec.ReachableIsValid(ops);
    HistoryOfRecord(MemorySpec.Run(ops).tables, id);
  }
}
