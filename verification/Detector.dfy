// The completion detector of the load tester. A snapshot is made of reads at different moments of
// a run, with steps of the API, relays and workers between them. When the snapshot says the pipeline
// is complete, every creation event of the workflow is published and has arrived, and stays so.

module Detector {
  import opened Domain
  import opened Tables
  import opened Outbox
  import opened Commits
  import opened Broker
  import opened RelaySpec
  import opened Projection
  import opened Consumer
  import opened Pipeline
  import opened PipelineRuns
  import opened PipelineResults
  import opened LoadTest

  // ----- What each read returns -----

  predicate IsCreation(e: OutboxEvent, workflow: string) {
    e.payload.Change? && e.payload.workflowId == workflow && e.kind == Created
  }

  function RecordsOf(db: Database, workflow: string): set<string> {
    set id | id in db.records && db.records[id].workflow == workflow
  }

  function UnpublishedCreations(outbox: seq<OutboxEvent>, workflow: string): set<nat> {
    set i: nat | i < |outbox| && IsCreation(outbox[i], workflow) && !outbox[i].published
  }

  function CreationIds(outbox: seq<OutboxEvent>, workflow: string): set<string> {
    set i | 0 <= i < |outbox| && IsCreation(outbox[i], workflow) :: outbox[i].id
  }

  function Notified(ids: set<string>, notifications: Notifications): set<string> {
    set id | id in ids && id in notifications
  }

  function EndOffset(layout: Layout, s: Pipe, p: nat): int
    requires layout.partitions > 0
  {
    |PartitionLog(layout, s.topic, p)|
  }

  // A partition without a committed offset is answered with -1.
  function CommittedOffset(s: Pipe, p: nat): int {
    if p in s.committed then s.committed[p] else -1
  }

  // ----- When each read happens -----

  // Moments are positions in the run. Offsets of different partitions may be read at different
  // moments, but every end offset before any committed offset.
  datatype Moments = Moments(
    records: nat, unpublished: nat, listed: nat, notified: nat, ends: nat -> nat, committed: nat -> nat, finish: nat)

  ghost predicate Ordered(layout: Layout, run: seq<Pipe>, at: Moments) {
    && at.records <= at.unpublished <= at.listed <= at.notified <= at.finish < |run|
    && (forall p: nat :: p < layout.partitions ==> at.notified <= at.ends(p) <= at.finish)
    && (forall p: nat :: p < layout.partitions ==> at.committed(p) <= at.finish)
    && (forall p: nat, q: nat :: p < layout.partitions && q < layout.partitions ==> at.ends(p) <= at.committed(q))
  }

  ghost function Ends(layout: Layout, run: seq<Pipe>, at: Moments): Offsets
    requires layout.partitions > 0 && Ordered(layout, run, at)
  {
    map p: nat | p < layout.partitions :: EndOffset(layout, run[at.ends(p)], p)
  }

  ghost function Committeds(layout: Layout, run: seq<Pipe>, at: Moments): Offsets
    requires Ordered(layout, run, at)
  {
    map p: nat | p < layout.partitions :: CommittedOffset(run[at.committed(p)], p)
  }

  // The snapshot those reads make.
  ghost function Taken(layout: Layout, run: seq<Pipe>, at: Moments, workflow: string): Snapshot
    requires layout.partitions > 0 && Ordered(layout, run, at)
  {
    Snapshot(
      |RecordsOf(run[at.records].db, workflow)|,
      |UnpublishedCreations(run[at.unpublished].db.outbox, workflow)|,
      |Notified(CreationIds(run[at.listed].db.outbox, workflow), run[at.notified].notifications)|,
      LagSum(Ends(layout, run, at), Committeds(layout, run, at)))
  }

  // From this moment on no record of the workflow is created.
  ghost predicate NoMoreCreates(run: seq<Pipe>, from: nat, workflow: string) {
    from < |run| &&
    forall t :: from <= t < |run| ==> RecordsOf(run[t].db, workflow) <= RecordsOf(run[from].db, workflow)
  }

  // ----- Stability -----

  // A row that was handled stays handled while offsets stand.
  lemma StaysHandled(layout: Layout, a: Pipe, b: Pipe, e: OutboxEvent, f: OutboxEvent)
    requires layout.partitions > 0 && Stands(a, b) && OffsetsStand(layout, a, b)
    requires Handled(layout, a, e) && Content(e) == Content(f)
    ensures Handled(layout, b, f)
  {
    hide PartitionLog, Content, Grows, RowsStand, NotificationsStand;
    var p: nat, i: nat :| p < layout.partitions && HandledAt(layout, a, e, p, i);
    TopicExtends(layout, a.topic, b.topic, p);
    assert HandledAt(layout, b, f, p, i);
  }

  // A row that has arrived stays so, whatever becomes of the offsets.
  lemma StaysArrived(a: Pipe, b: Pipe, e: OutboxEvent, f: OutboxEvent)
    requires Stands(a, b) && Arrived(a, e) && Content(e) == Content(f)
    ensures Arrived(b, f)
  {
    hide Content, Grows, RowsStand, DeadLetterOf;
    SameFields(e, f);
    if !(e.id in a.notifications && Shows(a.notifications[e.id], e)) {
      var d :| d in a.dlq && DeadLetterOf(d, MessageOf(e));
      SameDeadLetter(d, MessageOf(e), MessageOf(f));
      assert d in b.dlq;
    }
  }

  lemma SameId(e: OutboxEvent, f: OutboxEvent)
    requires Content(e) == Content(f)
    ensures e.id == f.id
  {
    assert Content(e).id == e.id && Content(f).id == f.id;
  }

  lemma TopicExtends(layout: Layout, a: seq<Message>, b: seq<Message>, p: nat)
    requires layout.partitions > 0 && a <= b
    ensures PartitionLog(layout, a, p) <= PartitionLog(layout, b, p)
  {
    assert b == a + b[|a|..];
    PartitionLogGrows(layout, a, b[|a|..], p);
  }

  // A message in the topic before the end offsets are read is below the committed offset at the moment
  // its partition's committed offset is read, if the lag comes out as zero.
  lemma ZeroLagHandles(layout: Layout, run: seq<Pipe>, at: Moments, t: nat, e: OutboxEvent) returns (p: nat)
    requires layout.partitions > 0 && IsRun(layout, run) && Ordered(layout, run, at)
    requires LagSum(Ends(layout, run, at), Committeds(layout, run, at)) == 0
    requires t <= at.notified && Sent(run[t].topic, e)
    ensures p < layout.partitions && Handled(layout, run[at.committed(p)], e)
  {
    hide PartitionLog, Content, IsRun, LagSum, Stands, HandledAt;
    var m :| m in run[t].topic && m.body.Json? && Content(m.body.event) == Content(e);
    p := PartitionOf(layout, m);
    MessageHasOffset(layout, run[t].topic, m);
    var i: nat :| i < |PartitionLog(layout, run[t].topic, p)| && PartitionLog(layout, run[t].topic, p)[i] == m;
    LagZeroIff(Ends(layout, run, at), Committeds(layout, run, at));
    LogStands(layout, run, t, at.ends(p), p);
    assert p in Ends(layout, run, at);
    assert EndOffset(layout, run[at.ends(p)], p) > i;
    assert Position(run[at.committed(p)], p) > i;
    LogStands(layout, run, at.ends(p), at.committed(p), p);
    HandledBelow(layout, run[at.committed(p)], e, p, i);
  }

  lemma HandledBelow(layout: Layout, s: Pipe, e: OutboxEvent, p: nat, i: nat)
    requires layout.partitions > 0 && p < layout.partitions
    requires i < Position(s, p) && i < |PartitionLog(layout, s.topic, p)|
    requires PartitionLog(layout, s.topic, p)[i].body.Json?
    requires Content(PartitionLog(layout, s.topic, p)[i].body.event) == Content(e)
    ensures Handled(layout, s, e)
  {
    hide PartitionLog, Content;
    assert HandledAt(layout, s, e, p, i);
  }

  lemma LogStands(layout: Layout, run: seq<Pipe>, i: nat, j: nat, p: nat)
    requires layout.partitions > 0 && IsRun(layout, run) && i <= j < |run|
    ensures PartitionLog(layout, run[i].topic, p) <= PartitionLog(layout, run[j].topic, p)
  {
    hide IsRun, PartitionLog;
    NothingTakenBack(layout, run, i, j);
    TopicExtends(layout, run[i].topic, run[j].topic, p);
  }

  // ----- Soundness -----

  // Row i of a state's outbox is published, in the topic, and has arrived.
  ghost predicate RowDone(s: Pipe, i: nat) {
    i < |s.db.outbox| && s.db.outbox[i].published && Sent(s.topic, s.db.outbox[i]) && Arrived(s, s.db.outbox[i])
  }

  lemma NoneUnpublished(outbox: seq<OutboxEvent>, workflow: string, i: nat)
    requires |UnpublishedCreations(outbox, workflow)| == 0 && i < |outbox| && IsCreation(outbox[i], workflow)
    ensures outbox[i].published
  {
    var counted := UnpublishedCreations(outbox, workflow);
    assert i in counted <==> !outbox[i].published;
  }

  // Row i keeps its content from one moment to another, and stays published.
  lemma RowStands(a: Pipe, b: Pipe, i: nat)
    requires Stands(a, b) && i < |a.db.outbox|
    ensures i < |b.db.outbox| && Content(b.db.outbox[i]) == Content(a.db.outbox[i])
    ensures a.db.outbox[i].published ==> b.db.outbox[i].published
  {
  }

  // What was handled at some moment has arrived at every later one.
  lemma HandledArrivesForGood(layout: Layout, run: seq<Pipe>, from: nat, u: nat, t: nat, i: nat)
    requires layout.partitions > 0 && IsRun(layout, run) && from <= u <= t < |run|
    requires i < |run[from].db.outbox| && Handled(layout, run[u], run[from].db.outbox[i])
    ensures i < |run[t].db.outbox| && Arrived(run[t], run[t].db.outbox[i])
  {
    hide IsRun, Content, Arrived, PipeInvariant, Stands, HandledAt;
    NothingTakenBack(layout, run, from, u);
    NothingTakenBack(layout, run, u, t);
    RowStands(run[from], run[u], i);
    RowStands(run[u], run[t], i);
    RunKeepsInvariant(layout, run, u);
    SameHandled(layout, run[u], run[from].db.outbox[i], run[u].db.outbox[i]);
    HandledArrived(layout, run[u], run[u].db.outbox[i]);
    StaysArrived(run[u], run[t], run[u].db.outbox[i], run[t].db.outbox[i]);
  }

  lemma SameHandled(layout: Layout, s: Pipe, e: OutboxEvent, f: OutboxEvent)
    requires layout.partitions > 0 && Handled(layout, s, e) && Content(e) == Content(f)
    ensures Handled(layout, s, f)
  {
    hide PartitionLog, Content;
    var p: nat, i: nat :| p < layout.partitions && HandledAt(layout, s, e, p, i);
    assert HandledAt(layout, s, f, p, i);
  }

  lemma SentStands(a: Pipe, b: Pipe, e: OutboxEvent, f: OutboxEvent)
    requires Stands(a, b) && Sent(a.topic, e) && Content(e) == Content(f)
    ensures Sent(b.topic, f)
  {
    hide Sent, Content;
    assert b.topic == a.topic + b.topic[|a.topic|..];
    SentGrows(a.topic, b.topic[|a.topic|..], e);
    SentOfContent(b.topic, e, f);
  }

  // The creation events that were in the outbox when the unpublished ones were counted were all
  // published and in the topic then.
  lemma CountedAreSent(layout: Layout, run: seq<Pipe>, at: Moments, workflow: string, i: nat)
    requires layout.partitions > 0 && IsRun(layout, run) && Ordered(layout, run, at)
    requires Taken(layout, run, at, workflow).unpublished == 0
    requires i < |run[at.unpublished].db.outbox| && IsCreation(run[at.unpublished].db.outbox[i], workflow)
    ensures run[at.unpublished].db.outbox[i].published
    ensures Sent(run[at.unpublished].topic, run[at.unpublished].db.outbox[i])
  {
    hide IsRun, PipeInvariant, Sent, UnpublishedCreations;
    NoneUnpublished(run[at.unpublished].db.outbox, workflow, i);
    RunKeepsInvariant(layout, run, at.unpublished);
    RowIsSent(layout, run[at.unpublished], run[at.unpublished].db.outbox[i]);
  }

  ghost predicate CountedDone(counted: seq<OutboxEvent>, workflow: string, s: Pipe) {
    forall i: nat :: i < |counted| && IsCreation(counted[i], workflow) ==> RowDone(s, i)
  }

  // Whatever happens between the reads and afterwards: if the unpublished count and the lag of a
  // snapshot are zero, every creation event of the workflow that was in the outbox when the
  // unpublished ones were counted is published, in the topic and has arrived at the end of the snapshot
  // and at every later moment. No commit needs to be fenced off for this.
  lemma ListedCreationsAreDone(layout: Layout, run: seq<Pipe>, at: Moments, workflow: string, t: nat)
    requires layout.partitions > 0 && IsRun(layout, run) && Ordered(layout, run, at)
    requires Taken(layout, run, at, workflow).unpublished == 0 && Taken(layout, run, at, workflow).lag == 0
    requires at.finish <= t < |run|
    ensures CountedDone(run[at.unpublished].db.outbox, workflow, run[t])
  {
    hide IsRun, LagSum, UnpublishedCreations, IsCreation, RowDone;
    forall i: nat | i < |run[at.unpublished].db.outbox| && IsCreation(run[at.unpublished].db.outbox[i], workflow)
      ensures RowDone(run[t], i)
    {
      ListedCreationIsDone(layout, run, at, workflow, t, i);
    }
  }

  lemma ListedCreationIsDone(layout: Layout, run: seq<Pipe>, at: Moments, workflow: string, t: nat, i: nat)
    requires layout.partitions > 0 && IsRun(layout, run) && Ordered(layout, run, at)
    requires Taken(layout, run, at, workflow).unpublished == 0 && Taken(layout, run, at, workflow).lag == 0
    requires at.finish <= t < |run|
    requires i < |run[at.unpublished].db.outbox| && IsCreation(run[at.unpublished].db.outbox[i], workflow)
    ensures RowDone(run[t], i)
  {
    hide IsRun, Content, Handled, Arrived, Sent, LagSum, UnpublishedCreations, Stands;
    CountedAreSent(layout, run, at, workflow, i);
    var p := ZeroLagHandles(layout, run, at, at.unpublished, run[at.unpublished].db.outbox[i]);
    assert at.notified <= at.ends(p) <= at.committed(p);
    HandledArrivesForGood(layout, run, at.unpublished, at.committed(p), t, i);
    NothingTakenBack(layout, run, at.unpublished, t);
    RowStands(run[at.unpublished], run[t], i);
    SentStands(run[at.unpublished], run[t], run[at.unpublished].db.outbox[i], run[t].db.outbox[i]);
  }

  // With stale commits fenced off those events also stay below the committed offsets.
  lemma ListedCreationsStayHandled(layout: Layout, run: seq<Pipe>, at: Moments, workflow: string, t: nat, i: nat)
    requires layout.partitions > 0 && IsFencedRun(layout, run) && Ordered(layout, run, at)
    requires Taken(layout, run, at, workflow).unpublished == 0 && Taken(layout, run, at, workflow).lag == 0
    requires at.finish <= t < |run|
    requires i < |run[at.unpublished].db.outbox| && IsCreation(run[at.unpublished].db.outbox[i], workflow)
    ensures i < |run[t].db.outbox| && Handled(layout, run[t], run[t].db.outbox[i])
  {
    hide IsRun, Content, Handled, Sent, LagSum, UnpublishedCreations, Stands, TakesFenced;
    CountedAreSent(layout, run, at, workflow, i);
    var p := ZeroLagHandles(layout, run, at, at.unpublished, run[at.unpublished].db.outbox[i]);
    NothingTakenBack(layout, run, at.unpublished, t);
    NothingTakenBack(layout, run, at.committed(p), t);
    OffsetsNeverFall(layout, run, at.committed(p), t);
    RowStands(run[at.unpublished], run[t], i);
    StaysHandled(layout, run[at.committed(p)], run[t], run[at.unpublished].db.outbox[i], run[t].db.outbox[i]);
  }

  // ----- When no more records are created -----

  lemma {:induction false} HistoryLength(a: seq<OutboxEvent>, b: seq<OutboxEvent>, id: string)
    requires |a| <= |b| && forall i :: 0 <= i < |a| ==> Content(a[i]) == Content(b[i])
    ensures |History(a, id)| <= |History(b, id)|
  {
    if |a| < |b| {
      HistoryLength(a, Init(b), id);
    } else if a != [] {
      HistoryLength(Init(a), Init(b), id);
      assert Content(Last(a)).aggregate == Last(a).aggregate && Content(Last(b)).aggregate == Last(b).aggregate;
    }
  }

  // A creation event that names a record which existed before is one of the rows from before.
  lemma NoLateCreation(a: Database, b: Database, i: nat)
    requires Sourced(a) && Sourced(b) && RowsStand(a.outbox, b.outbox)
    requires i < |b.outbox| && b.outbox[i].kind == Created && b.outbox[i].aggregate in a.records
    requires a.records[b.outbox[i].aggregate].version >= 1
    ensures i < |a.outbox|
  {
    hide Rebuild, AuditMatchesOutbox, Content;
    var id := b.outbox[i].aggregate;
    HistoryOfRecord(a, id);
    HistoryOfRecord(b, id);
    if i >= |a.outbox| {
      RowInHistory(b.outbox, i);
      HistoryLength(a.outbox, b.outbox[..i], id);
    }
  }

  lemma CreationsAreKnown(layout: Layout, run: seq<Pipe>, from: nat, workflow: string, t: nat, i: nat)
    requires layout.partitions > 0 && IsRun(layout, run) && NoMoreCreates(run, from, workflow)
    requires from <= t < |run| && i < |run[t].db.outbox| && IsCreation(run[t].db.outbox[i], workflow)
    ensures i < |run[from].db.outbox| && IsCreation(run[from].db.outbox[i], workflow)
  {
    hide IsRun, Rebuild, AuditMatchesOutbox, PublishedAreSent, TopicGenuine, NotificationsGenuine, CommittedSettled,
         RelayFine, WorkerFine, Indexed, Grows, NotificationsStand;
    var a, b := run[from].db, run[t].db;
    var id := b.outbox[i].aggregate;
    RunKeepsInvariant(layout, run, from);
    RunKeepsInvariant(layout, run, t);
    NothingTakenBack(layout, run, from, t);
    RowNamesRecord(b.outbox, i);
    assert id in RecordsOf(b, workflow);
    assert id in RecordsOf(a, workflow);
    NoLateCreation(a, b, i);
    assert Content(a.outbox[i]) == Content(b.outbox[i]);
    assert Content(a.outbox[i]).payload == a.outbox[i].payload && Content(a.outbox[i]).kind == a.outbox[i].kind;
  }

  // Every creation event of the workflow, in this state, is published, in the topic and has arrived.
  ghost predicate AllDone(s: Pipe, workflow: string) {
    forall i: nat :: i < |s.db.outbox| && IsCreation(s.db.outbox[i], workflow) ==> RowDone(s, i)
  }

  // The detector is sound: with no record of the workflow created after the unpublished events were
  // counted, a complete snapshot means that at its end and at every later moment all creation
  // events of the workflow are published and have arrived, and that the expected numbers of records and
  // notifications are there.
  lemma CompleteMeansDone(layout: Layout, run: seq<Pipe>, at: Moments, workflow: string,
                          baseline: Snapshot, expected: int, t: nat)
    requires layout.partitions > 0 && IsRun(layout, run) && Ordered(layout, run, at)
    requires PipelineComplete(Taken(layout, run, at, workflow), baseline, expected)
    requires NoMoreCreates(run, at.unpublished, workflow)
    requires at.finish <= t < |run|
    ensures AllDone(run[t], workflow)
    ensures |RecordsOf(run[t].db, workflow)| - baseline.records >= expected
    ensures |Notified(CreationIds(run[t].db.outbox, workflow), run[t].notifications)| - baseline.notifications >= expected
  {
    hide IsRun, RowDone, LagSum, UnpublishedCreations, IsCreation, RecordsOf, Notified, CreationIds, Stands;
    ListedCreationsAreDone(layout, run, at, workflow, t);
    forall i: nat | i < |run[t].db.outbox| && IsCreation(run[t].db.outbox[i], workflow) ensures RowDone(run[t], i) {
      CreationsAreKnown(layout, run, at.unpublished, workflow, t, i);
    }
    NothingTakenBack(layout, run, at.records, t);
    RecordCountGrows(run[at.records], run[t], workflow);
    NothingTakenBack(layout, run, at.listed, t);
    NothingTakenBack(layout, run, at.notified, t);
    NotifiedCountGrows(run[at.listed], run[at.notified], run[t], workflow);
  }

  ghost predicate AllHandled(layout: Layout, s: Pipe, workflow: string)
    requires layout.partitions > 0
  {
    forall i: nat :: i < |s.db.outbox| && IsCreation(s.db.outbox[i], workflow) ==> Handled(layout, s, s.db.outbox[i])
  }

  // With stale commits fenced off, all of them are and stay below the committed offsets, too.
  lemma CompleteMeansHandled(layout: Layout, run: seq<Pipe>, at: Moments, workflow: string,
                             baseline: Snapshot, expected: int, t: nat)
    requires layout.partitions > 0 && IsFencedRun(layout, run) && Ordered(layout, run, at)
    requires PipelineComplete(Taken(layout, run, at, workflow), baseline, expected)
    requires NoMoreCreates(run, at.unpublished, workflow)
    requires at.finish <= t < |run|
    ensures AllHandled(layout, run[t], workflow)
  {
    hide IsRun, LagSum, UnpublishedCreations, IsCreation, RecordsOf, Notified, CreationIds, Handled, TakesFenced;
    forall i: nat | i < |run[t].db.outbox| && IsCreation(run[t].db.outbox[i], workflow)
      ensures Handled(layout, run[t], run[t].db.outbox[i])
    {
      CreationsAreKnown(layout, run, at.unpublished, workflow, t, i);
      ListedCreationsStayHandled(layout, run, at, workflow, t, i);
    }
  }

  // ----- When as many notifications are expected as there are records -----

  // The identifier of a record's first event.
  function FirstId(outbox: seq<OutboxEvent>, id: string): string {
    if History(outbox, id) == [] then "" else History(outbox, id)[0].id
  }

  function FirstIds(outbox: seq<OutboxEvent>, ids: set<string>): set<string> {
    set id | id in ids :: FirstId(outbox, id)
  }

  lemma {:induction false} ImageIsSmaller(outbox: seq<OutboxEvent>, ids: set<string>)
    ensures |FirstIds(outbox, ids)| <= |ids|
  {
    hide FirstId;
    if ids == {} {
      assert FirstIds(outbox, ids) == {};
    } else {
      var id :| id in ids;
      ImageIsSmaller(outbox, ids - {id});
      assert FirstIds(outbox, ids) == FirstIds(outbox, ids - {id}) + {FirstId(outbox, id)};
    }
  }

  // A creation event is the first event of a record of its workflow.
  lemma CreationIsFirst(db: Database, workflow: string, i: nat)
    requires Sourced(db) && i < |db.outbox| && IsCreation(db.outbox[i], workflow)
    ensures db.outbox[i].aggregate in RecordsOf(db, workflow)
    ensures FirstId(db.outbox, db.outbox[i].aggregate) == db.outbox[i].id
  {
    hide Rebuild, AuditMatchesOutbox;
    HistoryOfRecord(db, db.outbox[i].aggregate);
    RowInHistory(db.outbox, i);
    RowNamesRecord(db.outbox, i);
  }

  // So there are no more creation events than records.
  lemma OneCreationPerRecord(db: Database, workflow: string)
    requires Sourced(db)
    ensures |CreationIds(db.outbox, workflow)| <= |RecordsOf(db, workflow)|
  {
    hide Sourced, FirstId, IsCreation, RecordsOf;
    forall id | id in CreationIds(db.outbox, workflow) ensures id in FirstIds(db.outbox, RecordsOf(db, workflow)) {
      var i: nat :| i < |db.outbox| && IsCreation(db.outbox[i], workflow) && db.outbox[i].id == id;
      CreationIsFirst(db, workflow, i);
    }
    SubsetIsSmaller(CreationIds(db.outbox, workflow), FirstIds(db.outbox, RecordsOf(db, workflow)));
    ImageIsSmaller(db.outbox, RecordsOf(db, workflow));
  }

  lemma {:induction false} FullSubset<T>(a: set<T>, b: set<T>)
    requires a <= b && |a| >= |b|
    ensures a == b
  {
    assert b == a + (b - a);
  }

  // When the snapshot had to find as many notifications as the workflow has records, every creation
  // event that was listed had its notification, and not merely a dead letter.
  lemma AllListedNotified(layout: Layout, run: seq<Pipe>, at: Moments, workflow: string, baseline: Snapshot, expected: int)
    requires layout.partitions > 0 && IsRun(layout, run) && Ordered(layout, run, at)
    requires PipelineComplete(Taken(layout, run, at, workflow), baseline, expected)
    requires NoMoreCreates(run, at.unpublished, workflow)
    requires |RecordsOf(run[at.unpublished].db, workflow)| <= baseline.notifications + expected
    ensures forall id :: id in CreationIds(run[at.listed].db.outbox, workflow) ==> id in run[at.notified].notifications
  {
    hide IsRun, LagSum, UnpublishedCreations, RecordsOf, CreationIds, Rebuild, AuditMatchesOutbox;
    var ids := CreationIds(run[at.listed].db.outbox, workflow);
    SourcedAt(layout, run, at.listed);
    OneCreationPerRecord(run[at.listed].db, workflow);
    SubsetIsSmaller(RecordsOf(run[at.listed].db, workflow), RecordsOf(run[at.unpublished].db, workflow));
    FullSubset(Notified(ids, run[at.notified].notifications), ids);
  }

  lemma SourcedAt(layout: Layout, run: seq<Pipe>, t: nat)
    requires layout.partitions > 0 && IsRun(layout, run) && t < |run|
    ensures Sourced(run[t].db) && DistinctIds(run[t].db.outbox)
    ensures NotificationsGenuine(run[t].db.outbox, run[t].notifications)
  {
    hide IsRun, Sourced, DistinctIds, NotificationsGenuine, PublishedAreSent, TopicGenuine, CommittedSettled, RelayFine,
         WorkerFine, WellFormed, Indexed;
    RunKeepsInvariant(layout, run, t);
  }

  // The row has a notification that shows it.
  ghost predicate RowNotified(s: Pipe, i: nat) {
    i < |s.db.outbox| &&
    var e := s.db.outbox[i];
    e.id in s.notifications && Shows(s.notifications[e.id], e)
  }

  ghost predicate AllNotified(s: Pipe, workflow: string) {
    forall i: nat :: i < |s.db.outbox| && IsCreation(s.db.outbox[i], workflow) ==> RowNotified(s, i)
  }

  // A complete snapshot whose expected count covers all the workflow's records, as with a zero baseline
  // and as many records as were created, means that every creation event has a notification that shows
  // it, then and ever after.
  lemma CompleteMeansNotified(layout: Layout, run: seq<Pipe>, at: Moments, workflow: string,
                              baseline: Snapshot, expected: int, t: nat)
    requires layout.partitions > 0 && IsRun(layout, run) && Ordered(layout, run, at)
    requires PipelineComplete(Taken(layout, run, at, workflow), baseline, expected)
    requires NoMoreCreates(run, at.unpublished, workflow)
    requires |RecordsOf(run[at.unpublished].db, workflow)| <= baseline.notifications + expected
    requires at.finish <= t < |run|
    ensures AllNotified(run[t], workflow)
  {
    hide IsRun, LagSum, UnpublishedCreations, RecordsOf, Taken, PipelineComplete, IsCreation, RowNotified;
    forall i: nat | i < |run[t].db.outbox| && IsCreation(run[t].db.outbox[i], workflow) ensures RowNotified(run[t], i) {
      CreationIsNotified(layout, run, at, workflow, baseline, expected, t, i);
    }
  }

  lemma CreationIsNotified(layout: Layout, run: seq<Pipe>, at: Moments, workflow: string,
                           baseline: Snapshot, expected: int, t: nat, i: nat)
    requires layout.partitions > 0 && IsRun(layout, run) && Ordered(layout, run, at)
    requires PipelineComplete(Taken(layout, run, at, workflow), baseline, expected)
    requires NoMoreCreates(run, at.unpublished, workflow)
    requires |RecordsOf(run[at.unpublished].db, workflow)| <= baseline.notifications + expected
    requires at.finish <= t < |run| && i < |run[t].db.outbox| && IsCreation(run[t].db.outbox[i], workflow)
    ensures RowNotified(run[t], i)
  {
    hide IsRun, LagSum, UnpublishedCreations, RecordsOf, Stands, Content, Sourced, DistinctIds, NotificationsGenuine,
         PipelineComplete, Taken;
    var e := run[t].db.outbox[i];
    CreationsAreKnown(layout, run, at.unpublished, workflow, t, i);
    AllListedNotified(layout, run, at, workflow, baseline, expected);
    NothingTakenBack(layout, run, at.unpublished, at.listed);
    CreationStands(run[at.unpublished], run[at.listed], workflow, i);
    NothingTakenBack(layout, run, at.listed, t);
    RowStands(run[at.listed], run[t], i);
    SameId(run[at.listed].db.outbox[i], e);
    NothingTakenBack(layout, run, at.notified, t);
    NotificationStands(run[at.notified], run[t], e.id);
    SourcedAt(layout, run, t);
    NotificationShows(run[t].db.outbox, run[t].notifications, e);
  }

  lemma CreationStands(a: Pipe, b: Pipe, workflow: string, i: nat)
    requires Stands(a, b) && i < |a.db.outbox| && IsCreation(a.db.outbox[i], workflow)
    ensures i < |b.db.outbox| && IsCreation(b.db.outbox[i], workflow) && b.db.outbox[i].id == a.db.outbox[i].id
  {
    hide Grows;
    var e, f := a.db.outbox[i], b.db.outbox[i];
    assert Content(f) == Content(e);
    assert Content(e).id == e.id && Content(f).id == f.id;
    assert Content(e).payload == e.payload == f.payload && Content(e).kind == e.kind == f.kind by {
      assert Content(f).payload == f.payload && Content(f).kind == f.kind;
    }
  }

  lemma NotificationStands(a: Pipe, b: Pipe, id: string)
    requires Stands(a, b) && id in a.notifications
    ensures id in b.notifications
  {
  }

  lemma {:induction false} SubsetIsSmaller<T>(a: set<T>, b: set<T>)
    requires a <= b
    ensures |a| <= |b|
  {
    assert b == a + (b - a);
  }

  lemma RecordCountGrows(a: Pipe, b: Pipe, workflow: string)
    requires Stands(a, b)
    ensures |RecordsOf(a.db, workflow)| <= |RecordsOf(b.db, workflow)|
  {
    SubsetIsSmaller(RecordsOf(a.db, workflow), RecordsOf(b.db, workflow));
  }

  lemma NotifiedCountGrows(a: Pipe, b: Pipe, c: Pipe, workflow: string)
    requires Stands(a, c) && Stands(b, c)
    ensures |Notified(CreationIds(a.db.outbox, workflow), b.notifications)|
         <= |Notified(CreationIds(c.db.outbox, workflow), c.notifications)|
  {
    hide Stands, IsCreation;
    forall id | id in CreationIds(a.db.outbox, workflow) ensures id in CreationIds(c.db.outbox, workflow) {
      var i: nat :| i < |a.db.outbox| && IsCreation(a.db.outbox[i], workflow) && a.db.outbox[i].id == id;
      CreationStands(a, c, workflow, i);
    }
    forall id | id in b.notifications ensures id in c.notifications {
      NotificationStands(b, c, id);
    }
    SubsetIsSmaller(Notified(CreationIds(a.db.outbox, workflow), b.notifications),
                    Notified(CreationIds(c.db.outbox, workflow), c.notifications));
  }
}
