// When the completion detector answers. A workflow whose events have all come through is found complete,
// whatever happens between the reads; and there is a run that is, with exactly the records expected.

module DetectorComplete {
  import opened Domain
  import opened Tables
  import opened Outbox
  import opened Commits
  import opened Broker
  import opened RelaySpec
  import opened Projection
  import opened Consumer
  import opened Pipeline
  import opened PipelineRuns
  import opened PipelineResults
  import opened LoadTest
  import opened Detector

  // Nothing is pending, every partition is caught up, and each creation event of the workflow, which has
  // at least so many records, has its notification.
  ghost predicate CameThrough(layout: Layout, s: Pipe, workflow: string, records: int)
    requires layout.partitions > 0
  {
    && Pending(s.db.outbox) == [] && CaughtUp(layout, s)
    && |RecordsOf(s.db, workflow)| >= records
    && forall i: nat :: i < |s.db.outbox| && IsCreation(s.db.outbox[i], workflow) ==> s.db.outbox[i].id in s.notifications
  }

  // ----- As many creation events as records -----

  lemma FirstEvent(db: Database, id: string)
    requires Sourced(db) && id in db.records && db.records[id].version >= 1
    ensures exists i :: 0 <= i < |db.outbox| && db.outbox[i].aggregate == id && FirstId(db.outbox, id) == db.outbox[i].id
                         && IsCreation(db.outbox[i], db.records[id].workflow)
  {
    hide Rebuild, AuditMatchesOutbox;
    HistoryOfRecord(db, id);
    HistoryIsFromLog(db.outbox, id);
    var e := History(db.outbox, id)[0];
    assert e in db.outbox;
    var i :| 0 <= i < |db.outbox| && db.outbox[i] == e;
    RowNamesRecord(db.outbox, i);
  }

  lemma FirstIdTells(db: Database, a: string, b: string)
    requires Sourced(db) && DistinctIds(db.outbox) && a in db.records && b in db.records
    requires db.records[a].version >= 1 && db.records[b].version >= 1
    requires FirstId(db.outbox, a) == FirstId(db.outbox, b)
    ensures a == b
  {
    hide Sourced, FirstId, IsCreation;
    FirstEvent(db, a);
    FirstEvent(db, b);
  }

  lemma {:induction false} FirstIdsCount(db: Database, ids: set<string>)
    requires Sourced(db) && DistinctIds(db.outbox)
    requires forall id :: id in ids ==> id in db.records && db.records[id].version >= 1
    ensures |FirstIds(db.outbox, ids)| == |ids|
  {
    hide Sourced, FirstId, DistinctIds;
    if ids == {} {
      assert FirstIds(db.outbox, ids) == {};
    } else {
      var id :| id in ids;
      FirstIdsCount(db, ids - {id});
      forall other | other in ids - {id} ensures FirstId(db.outbox, other) != FirstId(db.outbox, id) {
        if FirstId(db.outbox, other) == FirstId(db.outbox, id) {
          FirstIdTells(db, other, id);
        }
      }
      assert FirstIds(db.outbox, ids) == FirstIds(db.outbox, ids - {id}) + {FirstId(db.outbox, id)};
    }
  }

  // A workflow has exactly as many creation events as records.
  lemma CreationsCountRecords(db: Database, workflow: string)
    requires Sourced(db) && DistinctIds(db.outbox) && WellFormed(db)
    ensures |CreationIds(db.outbox, workflow)| == |RecordsOf(db, workflow)|
  {
    hide Sourced, FirstId, DistinctIds, IsCreation;
    var ids := RecordsOf(db, workflow);
    OneCreationPerRecord(db, workflow);
    FirstIdsCount(db, ids);
    forall first | first in FirstIds(db.outbox, ids) ensures first in CreationIds(db.outbox, workflow) {
      var id :| id in ids && FirstId(db.outbox, id) == first;
      FirstEvent(db, id);
    }
    SubsetIsSmaller(FirstIds(db.outbox, ids), CreationIds(db.outbox, workflow));
  }

  // ----- Completeness -----

  lemma NoneCounted(outbox: seq<OutboxEvent>, workflow: string)
    requires Pending(outbox) == []
    ensures |UnpublishedCreations(outbox, workflow)| == 0
  {
    PendingIsUnpublished(outbox);
    assert forall i :: 0 <= i < |outbox| ==> outbox[i] in outbox;
    assert UnpublishedCreations(outbox, workflow) == {};
  }

  lemma AllCounted(layout: Layout, run: seq<Pipe>, at: Moments, workflow: string)
    requires layout.partitions > 0 && IsRun(layout, run) && Ordered(layout, run, at)
    requires CameThrough(layout, run[at.listed], workflow, 0)
    ensures Taken(layout, run, at, workflow).notifications == |RecordsOf(run[at.listed].db, workflow)|
  {
    hide IsRun, LagSum, UnpublishedCreations, RecordsOf, Sourced, DistinctIds, Stands, CaughtUp, Pending, WellFormed,
         NotificationsGenuine, IsCreation;
    var a, b := run[at.listed], run[at.notified];
    var ids := CreationIds(a.db.outbox, workflow);
    SourcedAt(layout, run, at.listed);
    FormedAt(layout, run, at.listed);
    CreationsCountRecords(a.db, workflow);
    NothingTakenBack(layout, run, at.listed, at.notified);
    forall id | id in ids ensures id in b.notifications {
      var i: nat :| i < |a.db.outbox| && IsCreation(a.db.outbox[i], workflow) && a.db.outbox[i].id == id;
      NotificationStands(a, b, id);
    }
    assert Notified(ids, b.notifications) == ids;
  }

  lemma NoLag(layout: Layout, run: seq<Pipe>, at: Moments)
    requires layout.partitions > 0 && IsRun(layout, run) && Ordered(layout, run, at)
    requires forall p: nat :: p < layout.partitions ==> CaughtUp(layout, run[at.committed(p)])
    ensures LagSum(Ends(layout, run, at), Committeds(layout, run, at)) == 0
  {
    hide IsRun, PartitionLog, LagSum;
    var ends, committed := Ends(layout, run, at), Committeds(layout, run, at);
    forall p | p in ends ensures ends[p] <= 0 || (p in committed && ends[p] <= committed[p]) {
      LogStands(layout, run, at.ends(p), at.committed(p), p);
      assert CaughtUp(layout, run[at.committed(p)]);
      assert Position(run[at.committed(p)], p) >= |PartitionLog(layout, run[at.ends(p)].topic, p)|;
    }
    LagZeroIff(ends, committed);
  }

  // The converse of soundness: if throughout the reads the workflow's events have come through and it has
  // the expected records beyond the baseline, the snapshot is complete, whatever happens in between.
  lemma CameThroughIsComplete(layout: Layout, run: seq<Pipe>, at: Moments, workflow: string,
                              baseline: Snapshot, expected: int)
    requires layout.partitions > 0 && IsRun(layout, run) && Ordered(layout, run, at)
    requires forall t :: at.records <= t <= at.finish ==>
               CameThrough(layout, run[t], workflow, baseline.records + expected) &&
               CameThrough(layout, run[t], workflow, baseline.notifications + expected)
    ensures PipelineComplete(Taken(layout, run, at, workflow), baseline, expected)
  {
    hide IsRun, LagSum, UnpublishedCreations, RecordsOf, Notified, CreationIds, Stands, CaughtUp, Pending;
    assert CameThrough(layout, run[at.records], workflow, baseline.records + expected);
    assert CameThrough(layout, run[at.unpublished], workflow, baseline.records + expected);
    assert CameThrough(layout, run[at.listed], workflow, baseline.notifications + expected);
    NoneCounted(run[at.unpublished].db.outbox, workflow);
    AllCounted(layout, run, at, workflow);
    forall p: nat | p < layout.partitions ensures CaughtUp(layout, run[at.committed(p)]) {
      assert at.notified <= at.ends(p) <= at.committed(p) <= at.finish;
      assert CameThrough(layout, run[at.committed(p)], workflow, baseline.records + expected);
    }
    NoLag(layout, run, at);
  }

  lemma FormedAt(layout: Layout, run: seq<Pipe>, t: nat)
    requires layout.partitions > 0 && IsRun(layout, run) && t < |run|
    ensures WellFormed(run[t].db)
  {
    hide IsRun, Sourced, DistinctIds, NotificationsGenuine, PublishedAreSent, TopicGenuine, CommittedSettled, RelayFine,
         WorkerFine, WellFormed, Indexed;
    RunKeepsInvariant(layout, run, t);
  }

  // ----- One record, expected and found -----

  // A record is created, published, marked, fetched, projected and committed.
  lemma OneRecord(layout: Layout) returns (run: seq<Pipe>)
    requires layout.partitions > 0
    ensures IsRun(layout, run) && run != []
    ensures RecordsOf(Last(run).db, "w") == {"r"}
    ensures CameThrough(layout, Last(run), "w", 1)
  {
    hide IsRun;
    run := RecordCreated(layout);
    run := RecordRelayed(layout, run);
    run := RecordProjected(layout, run);
    OneCaughtUp(layout, Last(run));
  }

  const WF := Workflow("w", "t", "n", "", ["S"], 1)
  const REC := Record("r", "t", "w", "S", None, 1, "")
  const EVENT := OutboxEvent("e", "t", "r", RECORD_EVENTS_TOPIC, "r", Created, Change("r", "w", "S", 1), false, 0, "")

  lemma StepOn(layout: Layout, run: seq<Pipe>, step: Step) returns (more: seq<Pipe>)
    requires layout.partitions > 0 && IsRun(layout, run) && Enabled(layout, Last(run), step)
    ensures IsRun(layout, more) && more != [] && Last(more) == Do(layout, Last(run), step)
  {
    RunExtends(layout, run, step);
    more := run + [Do(layout, Last(run), step)];
    InitOfSnoc(run, Do(layout, Last(run), step));
  }

  lemma StartRun(layout: Layout) returns (run: seq<Pipe>)
    requires layout.partitions > 0
    ensures IsRun(layout, run) && Last(run) == Start()
  {
    run := [Start()];
  }

  lemma RecordCreated(layout: Layout) returns (run: seq<Pipe>)
    requires layout.partitions > 0
    ensures IsRun(layout, run)
    ensures Last(run) == Start().(db := Last(run).db)
    ensures Last(run).db.outbox == [EVENT] && Last(run).db.records == map["r" := REC]
  {
    hide IsRun;
    run := StartRun(layout);
    run := StepOn(layout, run, CommitWrite(AddWorkflow(WF)));
    assert Last(run).db.workflows == map["w" := WF] && Last(run).db.outbox == [] && Last(run).db.records == map[];
    run := StepOn(layout, run, CommitWrite(AddRecord(REC, "a", "e")));
  }

  lemma RecordRelayed(layout: Layout, before: seq<Pipe>) returns (run: seq<Pipe>)
    requires layout.partitions > 0 && IsRun(layout, before) && Last(before).db.outbox == [EVENT]
    requires Last(before) == Start().(db := Last(before).db)
    ensures IsRun(layout, run)
    ensures Last(run) == Start().(db := Last(before).db.(outbox := [Stamp(EVENT)]), topic := [MessageOf(EVENT)],
                                  relays := Last(run).relays)
  {
    hide IsRun;
    PendingOne(EVENT);
    run := StepOn(layout, before, List(0, 1, true));
    assert RelayAt(Last(run), 0) == Listed([EVENT], true);
    assert Messages([EVENT]) == [MessageOf(EVENT)];
    run := StepOn(layout, run, PublishBatch(0, Accepts));
    assert RelayAt(Last(run), 0) == BatchSent([EVENT]) && IdsOf([EVENT]) == {"e"} by {
      assert [EVENT][0].id == "e";
    }
    assert StampIds([EVENT], {"e"}) == [Stamp(EVENT)];
    run := StepOn(layout, run, MarkBatch(0, {"e"}));
  }

  lemma PendingOne(e: OutboxEvent)
    requires !e.published
    ensures Pending([e]) == [e] && ListPending([e], 1) == [e]
  {
    assert Init([e]) == [];
  }

  lemma OnePartition(layout: Layout, m: Message, p: nat)
    requires layout.partitions > 0
    ensures PartitionLog(layout, [m], p) == if p == PartitionOf(layout, m) then [m] else []
  {
    assert Init([m]) == [];
  }

  lemma PartitionInRange(layout: Layout, m: Message)
    requires layout.partitions > 0
    ensures PartitionOf(layout, m) < layout.partitions
  {
  }

  lemma RecordProjected(layout: Layout, before: seq<Pipe>) returns (run: seq<Pipe>)
    requires layout.partitions > 0 && IsRun(layout, before) && Last(before).topic == [MessageOf(EVENT)]
    requires Last(before) == Start().(db := Last(before).db, topic := Last(before).topic, relays := Last(before).relays)
    ensures IsRun(layout, run) && run != []
    ensures Last(run).db == Last(before).db && Last(run).topic == Last(before).topic
    ensures Last(run).committed == map[PartitionOf(layout, MessageOf(EVENT)) := 1] && "e" in Last(run).notifications
  {
    hide IsRun, PartitionLog, PartitionOf, StateIn;
    var p := PartitionOf(layout, MessageOf(EVENT));
    PartitionInRange(layout, MessageOf(EVENT));
    OnePartition(layout, MessageOf(EVENT), p);
    run := StepOn(layout, before, Assign(p, 0));
    run := StepOn(layout, run, Fetch(0, p));
    assert WorkerAt(Last(run), 0) == Holding(p, 1, 0, MessageOf(EVENT), 0);
    run := StepOn(layout, run, TryHandle(0, Attempt(0, Works, false)));
    assert WorkerAt(Last(run), 0) == Done(p, 1, 0, MessageOf(EVENT));
    run := StepOn(layout, run, CommitOffset(0, Works));
  }

  lemma OneCaughtUp(layout: Layout, s: Pipe)
    requires layout.partitions > 0 && s.topic == [MessageOf(EVENT)]
    requires s.committed == map[PartitionOf(layout, MessageOf(EVENT)) := 1]
    requires s.db.outbox == [Stamp(EVENT)] && "e" in s.notifications && s.db.records == map["r" := REC]
    ensures RecordsOf(s.db, "w") == {"r"} && CameThrough(layout, s, "w", 1)
  {
    assert Init([Stamp(EVENT)]) == [];
    forall p: nat | p < layout.partitions ensures Position(s, p) >= |PartitionLog(layout, s.topic, p)| {
      OnePartition(layout, MessageOf(EVENT), p);
    }
    assert RecordsOf(s.db, "w") == {"r"};
  }

  // With one record created, one expected and nothing before, the snapshot counts exactly one record and
  // one notification, and is complete.
  lemma ExactlyExpected(layout: Layout) returns (run: seq<Pipe>, at: Moments)
    requires layout.partitions > 0
    ensures IsRun(layout, run) && Ordered(layout, run, at)
    ensures Taken(layout, run, at, "w") == Snapshot(1, 0, 1, 0)
    ensures PipelineComplete(Taken(layout, run, at, "w"), Snapshot(0, 0, 0, 0), 1)
  {
    hide IsRun, CameThrough, Ends, Committeds;
    run := OneRecord(layout);
    var n: nat := |run| - 1;
    at := Moments(n, n, n, n, p => n, p => n, n);
    CameThroughIsComplete(layout, run, at, "w", Snapshot(0, 0, 0, 0), 1);
    CameThroughCounts(layout, run, at);
  }

  lemma CameThroughCounts(layout: Layout, run: seq<Pipe>, at: Moments)
    requires layout.partitions > 0 && IsRun(layout, run) && Ordered(layout, run, at) && at.listed == at.records
    requires CameThrough(layout, run[at.listed], "w", 1) && RecordsOf(run[at.listed].db, "w") == {"r"}
    ensures Taken(layout, run, at, "w").records == 1 && Taken(layout, run, at, "w").notifications == 1
  {
    hide IsRun;
    AllCounted(layout, run, at, "w");
  }
}
