// What the pipeline delivers: no event is lost in any run, and once nothing is pending and no
// partition lags, every version every record has been through is projected or dead-lettered.

module PipelineResults {
  import opened Domain
  import opened Tables
  import opened Outbox
  import opened Commits
  import opened Broker
  import opened RelaySpec
  import opened Projection
  import opened Consumer
  import opened Pipeline
  import opened PipelineProofs
  import opened PipelineRuns
  import MongoProtocol
  import MongoProofs

  // ----- No event is lost -----

  // In every state of every run, each outbox row is still pending or its message is in the topic, and
  // each message below a committed offset has a notification or a dead letter.
  lemma NoEventLost(layout: Layout, run: seq<Pipe>, t: nat, p: nat)
    requires layout.partitions > 0 && IsRun(layout, run) && t < |run| && p < layout.partitions
    ensures var s := run[t];
            && (forall i :: 0 <= i < |s.db.outbox| ==>
                  s.db.outbox[i] in Pending(s.db.outbox) || Sent(s.topic, s.db.outbox[i]))
            && Position(s, p) <= |PartitionLog(layout, s.topic, p)|
            && (forall i :: 0 <= i < Position(s, p) ==>
                  Settled(s.notifications, s.dlq, PartitionLog(layout, s.topic, p)[i]))
  {
    hide Base, TopicGenuine, NotificationsGenuine, RelayFine, WorkerFine, Settled, Sent, Pending, PartitionLog;
    RunKeepsInvariant(layout, run, t);
    PendingIsUnpublished(run[t].db.outbox);
    assert PartitionSettled(layout, run[t], p);
  }

  // ----- Everything arrives -----

  // The event has arrived: the notification filed under its identifier shows this very event, or it
  // has a dead letter.
  ghost predicate Arrived(s: Pipe, e: OutboxEvent) {
    || (e.id in s.notifications && Shows(s.notifications[e.id], e))
    || (exists d :: d in s.dlq && DeadLetterOf(d, MessageOf(e)))
  }

  ghost predicate CaughtUp(layout: Layout, s: Pipe)
    requires layout.partitions > 0
  {
    forall p: nat :: p < layout.partitions ==> Position(s, p) >= |PartitionLog(layout, s.topic, p)|
  }

  // A message of the row sits below the committed offset of its partition.
  ghost predicate Handled(layout: Layout, s: Pipe, e: OutboxEvent)
    requires layout.partitions > 0
  {
    exists p: nat, i: nat :: p < layout.partitions && HandledAt(layout, s, e, p, i)
  }

  ghost predicate HandledAt(layout: Layout, s: Pipe, e: OutboxEvent, p: nat, i: nat)
    requires layout.partitions > 0
  {
    var log := PartitionLog(layout, s.topic, p);
    i < Position(s, p) && i < |log| && log[i].body.Json? && Content(log[i].body.event) == Content(e)
  }

  // A stored notification filed under a row's identifier shows that row.
  lemma NotificationShows(outbox: seq<OutboxEvent>, notifications: Notifications, e: OutboxEvent)
    requires DistinctIds(outbox) && NotificationsGenuine(outbox, notifications)
    requires e in outbox && e.id in notifications && e.payload.Change?
    ensures Shows(notifications[e.id], e)
  {
    assert ShowsRow(outbox, notifications[e.id]);
    ShowsFields(notifications[e.id], e);
  }

  lemma ShowsFields(n: Notification, e: OutboxEvent)
    requires Timeless(n) == NotificationOf(Content(e), 0) && e.payload.Change?
    ensures Shows(n, e)
  {
    assert Timeless(n).id == n.id && Timeless(n).tenant == n.tenant && Timeless(n).record == n.record;
    assert Timeless(n).kind == n.kind && Timeless(n).state == n.state;
  }

  lemma SettledArrived(s: Pipe, e: OutboxEvent, m: Message)
    requires DistinctIds(s.db.outbox) && NotificationsGenuine(s.db.outbox, s.notifications)
    requires e in s.db.outbox && e.payload.Change? && m.body.Json? && Content(m.body.event) == Content(e)
    requires Settled(s.notifications, s.dlq, m)
    ensures Arrived(s, e)
  {
    hide DistinctIds, NotificationsGenuine, Shows;
    assert Content(e).id == e.id && Content(m.body.event).id == m.body.event.id;
    if e.id in s.notifications {
      NotificationShows(s.db.outbox, s.notifications, e);
    } else {
      var d :| d in s.dlq && DeadLetterOf(d, m);
      SameDeadLetter(d, m, MessageOf(e));
    }
  }

  lemma SameDeadLetter(d: Message, m: Message, n: Message)
    requires DeadLetterOf(d, m) && m.body.Json? && n.body.Json?
    requires Content(m.body.event) == Content(n.body.event)
    ensures DeadLetterOf(d, n)
  {
    var a, b := m.body.event, n.body.event;
    assert Content(a).id == Content(b).id && Content(a).kind == Content(b).kind;
    assert Content(a).payload == Content(b).payload && Content(a).tenant == Content(b).tenant;
    assert Content(a).aggregate == Content(b).aggregate && Content(a).key == Content(b).key;
  }

  lemma HandledArrived(layout: Layout, s: Pipe, e: OutboxEvent)
    requires layout.partitions > 0 && PipeInvariant(layout, s) && e in s.db.outbox && Handled(layout, s, e)
    ensures Arrived(s, e)
  {
    hide Invariant, TopicGenuine, PublishedAreSent, RelayFine, WorkerFine, Settled, PartitionLog, DistinctIds,
         NotificationsGenuine, Arrived, Content;
    var p: nat, i: nat :| p < layout.partitions && HandledAt(layout, s, e, p, i);
    assert PartitionSettled(layout, s, p);
    RowIsChange(s.db, e);
    SettledArrived(s, e, PartitionLog(layout, s.topic, p)[i]);
  }

  lemma RowIsChange(db: Database, e: OutboxEvent)
    requires Invariant(PairSlot, db) && e in db.outbox
    ensures e.payload.Change?
  {
    hide WellFormed, Indexed, Rebuild;
    var i :| 0 <= i < |db.outbox| && db.outbox[i] == e;
    RowNamesRecord(db.outbox, i);
  }

  // What was sent is handled once its partition is caught up.
  lemma SentIsHandled(layout: Layout, s: Pipe, e: OutboxEvent)
    requires layout.partitions > 0 && Sent(s.topic, e) && CaughtUp(layout, s)
    ensures Handled(layout, s, e)
  {
    hide PartitionLog, Content;
    var m :| m in s.topic && m.body.Json? && Content(m.body.event) == Content(e);
    MessageHasOffset(layout, s.topic, m);
    var p := PartitionOf(layout, m);
    var i: nat :| i < |PartitionLog(layout, s.topic, p)| && PartitionLog(layout, s.topic, p)[i] == m;
    assert HandledAt(layout, s, e, p, i);
  }

  lemma {:induction false} HistoryIsFromLog(log: seq<OutboxEvent>, id: string)
    ensures forall e :: e in History(log, id) ==> e in log && e.aggregate == id
  {
    if log != [] {
      HistoryIsFromLog(Init(log), id);
      assert log == Init(log) + [Last(log)];
    }
  }

  // With nothing pending and no lag, every version of every committed record has arrived.
  lemma EveryVersionArrives(layout: Layout, run: seq<Pipe>, t: nat, id: string, version: int)
    requires layout.partitions > 0 && IsRun(layout, run) && t < |run|
    requires Pending(run[t].db.outbox) == [] && CaughtUp(layout, run[t])
    requires id in run[t].db.records && 1 <= version <= run[t].db.records[id].version
    ensures exists e :: e in run[t].db.outbox && IsVersion(e, id, version) && Arrived(run[t], e)
  {
    var s := run[t];
    var e := VersionHasEvent(layout, run, t, id, version);
    PendingIsUnpublished(s.db.outbox);
    RunKeepsInvariant(layout, run, t);
    assert e !in Pending(s.db.outbox);
    RowIsSent(layout, s, e);
    SentIsHandled(layout, s, e);
    HandledArrived(layout, s, e);
  }

  ghost predicate IsVersion(e: OutboxEvent, id: string, version: int) {
    && e.aggregate == id && e.payload.Change? && e.payload.version == version
    && e.kind == if version == 1 then Created else Updated
  }

  lemma VersionHasEvent(layout: Layout, run: seq<Pipe>, t: nat, id: string, version: int) returns (e: OutboxEvent)
    requires layout.partitions > 0 && IsRun(layout, run) && t < |run|
    requires id in run[t].db.records && 1 <= version <= run[t].db.records[id].version
    ensures e in run[t].db.outbox && IsVersion(e, id, version)
  {
    hide IsRun, Rebuild, WellFormed, Indexed;
    RunKeepsInvariant(layout, run, t);
    BaseOf(layout, run[t]);
    HistoryOfRecord(run[t].db, id);
    HistoryIsFromLog(run[t].db.outbox, id);
    e := History(run[t].db.outbox, id)[version - 1];
  }

  lemma RowIsSent(layout: Layout, s: Pipe, e: OutboxEvent)
    requires layout.partitions > 0 && PipeInvariant(layout, s) && e in s.db.outbox && e.published
    ensures Sent(s.topic, e)
  {
    hide Base, TopicGenuine, NotificationsGenuine, RelayFine, WorkerFine, CommittedSettled, Sent;
  }

  // The rebuilt table knows the record of every event, under the event's tenant and workflow.
  lemma {:induction false} RowNamesRecord(log: seq<OutboxEvent>, i: nat)
    requires Rebuild(log).Some? && i < |log|
    ensures log[i].payload.Change? && log[i].aggregate in Rebuild(log).value
    ensures Rebuild(log).value[log[i].aggregate].workflow == log[i].payload.workflowId
    ensures Rebuild(log).value[log[i].aggregate].tenant == log[i].tenant
  {
    if i < |log| - 1 {
      RowNamesRecord(Init(log), i);
    }
  }

  // The event names the record's tenant, workflow and key; it is a creation at version 1 and an update
  // otherwise; and at the record's present version it names the record's present state.
  ghost predicate NamesRecord(db: Database, e: OutboxEvent) {
    && e.aggregate in db.records && e.payload.Change? &&
    var r := db.records[e.aggregate];
    && e.tenant == r.tenant && e.payload.workflowId == r.workflow && e.payload.recordId == r.id == e.aggregate
    && e.key == r.id && e.topic == "workflow.record-events"
    && 1 <= e.payload.version <= r.version
    && e.kind == (if e.payload.version == 1 then Created else Updated)
    && (e.payload.version == r.version ==> e.payload.state == r.state)
  }

  lemma RowNames(db: Database, i: nat)
    requires Sourced(db) && WellFormed(db) && i < |db.outbox|
    ensures NamesRecord(db, db.outbox[i])
  {
    hide Rebuild;
    var id := db.outbox[i].aggregate;
    RowNamesRecord(db.outbox, i);
    HistoryOfRecord(db, id);
    RowInHistory(db.outbox, i);
    assert Twins(db.audit[i], db.outbox[i]);
    assert db.records[id].id == id;
  }

  // Nothing is made up: in every reachable state a notification stands for exactly one event of the
  // outbox. Its record, its tenant, its kind and its state are the event's, and so the record's when the
  // event is the record's latest.
  lemma NotificationsComeFromRecords(layout: Layout, run: seq<Pipe>, t: nat, id: string) returns (i: nat)
    requires layout.partitions > 0 && IsRun(layout, run) && t < |run| && id in run[t].notifications
    ensures var s := run[t];
            var n := s.notifications[id];
            && i < |s.db.outbox| && s.db.outbox[i].id == id == n.id
            && (forall j :: 0 <= j < |s.db.outbox| && s.db.outbox[j].id == id ==> j == i)
            && var e := s.db.outbox[i];
               && NamesRecord(s.db, e)
               && n.record == e.aggregate && n.tenant == s.db.records[e.aggregate].tenant
               && (n.kind == Created <==> e.payload.version == 1) && (n.kind == Updated <==> e.payload.version > 1)
               && n.state == e.payload.state
               && (e.payload.version == s.db.records[e.aggregate].version ==>
                     n.state == s.db.records[e.aggregate].state)
  {
    hide IsRun, Sourced, WellFormed, Indexed, RelayFine, WorkerFine, CommittedSettled, TopicGenuine, PublishedAreSent;
    var s := run[t];
    RunKeepsInvariant(layout, run, t);
    assert ShowsRow(s.db.outbox, s.notifications[id]);
    i :| 0 <= i < |s.db.outbox| && s.db.outbox[i].id == s.notifications[id].id
         && Timeless(s.notifications[id]) == NotificationOf(Content(s.db.outbox[i]), 0);
    RowNames(s.db, i);
    ShowsFields(s.notifications[id], s.db.outbox[i]);
  }

  // A decodable message of the topic carries an event of the outbox, bookkeeping aside, to the topic and
  // under the key and headers that event names.
  lemma MessagesTellRows(layout: Layout, run: seq<Pipe>, t: nat, m: Message) returns (i: nat)
    requires layout.partitions > 0 && IsRun(layout, run) && t < |run| && m in run[t].topic && m.body.Json?
    ensures var s := run[t];
            && i < |s.db.outbox| &&
            var e, f := s.db.outbox[i], m.body.event;
            && NamesRecord(s.db, e)
            && f == e.(published := f.published, attempts := f.attempts, lastError := f.lastError)
            && m.topic == "workflow.record-events" && m.key == e.aggregate
            && m.eventId == e.id && m.eventType == e.kind && m.tenantId == s.db.records[e.aggregate].tenant
  {
    hide IsRun, Sourced, WellFormed, Indexed, RelayFine, WorkerFine, CommittedSettled, NotificationsGenuine, PublishedAreSent;
    var s := run[t];
    RunKeepsInvariant(layout, run, t);
    assert HasRow(s.db.outbox, m.body.event);
    i :| 0 <= i < |s.db.outbox| && Content(s.db.outbox[i]) == Content(m.body.event);
    RowNames(s.db, i);
    SameFields(s.db.outbox[i], m.body.event);
  }

  lemma SameFields(e: OutboxEvent, f: OutboxEvent)
    requires Content(e) == Content(f)
    ensures f == e.(published := f.published, attempts := f.attempts, lastError := f.lastError)
  {
    assert Content(e).id == e.id && Content(f).id == f.id && Content(e).tenant == e.tenant && Content(f).tenant == f.tenant;
    assert Content(e).aggregate == e.aggregate && Content(f).aggregate == f.aggregate;
    assert Content(e).topic == e.topic && Content(f).topic == f.topic && Content(e).key == e.key && Content(f).key == f.key;
    assert Content(e).kind == e.kind && Content(f).kind == f.kind;
    assert Content(e).payload == e.payload && Content(f).payload == f.payload;
  }

  // All messages of one record go to one partition.
  lemma OneRecordOnePartition(layout: Layout, run: seq<Pipe>, t: nat, m: Message, n: Message)
    requires layout.partitions > 0 && IsRun(layout, run) && t < |run|
    requires m in run[t].topic && n in run[t].topic && m.body.Json? && n.body.Json?
    requires m.body.event.aggregate == n.body.event.aggregate
    ensures PartitionOf(layout, m) == PartitionOf(layout, n)
  {
    hide IsRun, Rebuild, WellFormed, Indexed, RelayFine, WorkerFine, CommittedSettled, NotificationsGenuine;
    RunKeepsInvariant(layout, run, t);
    KeyIsAggregate(run[t].db, m.body.event);
    KeyIsAggregate(run[t].db, n.body.event);
  }

  lemma KeyIsAggregate(db: Database, e: OutboxEvent)
    requires Sourced(db) && HasRow(db.outbox, e)
    ensures e.key == e.aggregate
  {
    hide Rebuild;
    var i :| 0 <= i < |db.outbox| && Content(db.outbox[i]) == Content(e);
    assert Twins(db.audit[i], db.outbox[i]);
    assert Content(e).key == e.key && Content(e).aggregate == e.aggregate;
    assert Content(e).key == db.outbox[i].key && Content(e).aggregate == db.outbox[i].aggregate;
  }

  // Position of a row within the history of its record.
  lemma {:induction false} RowInHistory(log: seq<OutboxEvent>, i: nat)
    requires i < |log|
    ensures var id := log[i].aggregate;
            |History(log[..i], id)| < |History(log, id)| && History(log, id)[|History(log[..i], id)|] == log[i]
  {
    if i == |log| - 1 {
      assert log[..i] == Init(log);
    } else {
      RowInHistory(Init(log), i);
      assert Init(log)[..i] == log[..i];
    }
  }

  // ----- Dead letters -----

  // Every dead letter is one of a message of the topic, and went to the dead-letter topic; one for an
  // event that could not be handled records three attempts.
  ghost predicate LettersGenuine(s: Pipe) {
    forall d :: d in s.dlq ==>
      d.topic == "workflow.record-events.dlq" && exists m :: m in s.topic && LetterFits(d, m)
  }

  ghost predicate LetterFits(d: Message, m: Message) {
    DeadLetterOf(d, m) && (m.body.Json? ==> d.body.event.attempts == d.body.event.payload.consumerAttempts == 3)
  }

  lemma {:induction false} LettersComeFromMessages(layout: Layout, run: seq<Pipe>, t: nat)
    requires layout.partitions > 0 && IsRun(layout, run) && t < |run|
    ensures LettersGenuine(run[t])
  {
    if t > 0 {
      hide PipeInvariant, Enabled, Do, Start, LettersGenuine;
      LettersComeFromMessages(layout, run, t - 1);
      RunKeepsInvariant(layout, run, t - 1);
      assert Takes(layout, run[t - 1], run[t]);
      var step :| Enabled(layout, run[t - 1], step) && run[t] == Do(layout, run[t - 1], step);
      StepKeepsLetters(layout, run[t - 1], step);
    }
  }

  lemma StepKeepsLetters(layout: Layout, s: Pipe, step: Step)
    requires layout.partitions > 0 && PipeInvariant(layout, s) && Enabled(layout, s, step) && LettersGenuine(s)
    ensures LettersGenuine(Do(layout, s, step))
  {
    hide PipeInvariant, LetterFor, LetterFits, PartitionLog, LettersGenuine, Written;
    if step.DeadLetter? {
      LetterIsGenuine(layout, s, step);
    } else {
      OnlyLettersAdd(layout, s, step);
      LettersStay(s, Do(layout, s, step));
    }
  }

  lemma OnlyLettersAdd(layout: Layout, s: Pipe, step: Step)
    requires layout.partitions > 0 && Enabled(layout, s, step) && !step.DeadLetter?
    ensures Do(layout, s, step).dlq == s.dlq && s.topic <= Do(layout, s, step).topic
  {
    hide Apply, ApiWrite, StampIds, Noted, PartitionLog, LetterFor, ListPending, Written, AfterItem;
  }

  lemma LettersStay(a: Pipe, b: Pipe)
    requires LettersGenuine(a) && b.dlq == a.dlq && a.topic <= b.topic
    ensures LettersGenuine(b)
  {
    hide LetterFits;
    forall d | d in b.dlq ensures exists m :: m in b.topic && LetterFits(d, m) {
      var m :| m in a.topic && LetterFits(d, m);
      assert m in b.topic;
    }
  }

  lemma LetterIsGenuine(layout: Layout, s: Pipe, step: Step)
    requires layout.partitions > 0 && PipeInvariant(layout, s) && Enabled(layout, s, step) && LettersGenuine(s)
    requires step.DeadLetter?
    ensures LettersGenuine(Do(layout, s, step))
  {
    hide PipeInvariant, LetterFor, LetterFits, PartitionLog, Written;
    WorkerAtFine(layout, s, step.worker);
    var phase := WorkerAt(s, step.worker);
    var letter := LetterFor(phase.message, phase.error, step.generated);
    OffsetHasMessage(layout, s.topic, phase.partition);
    LetterOfMessage(phase.message, phase.error, step.generated);
    PartOfOne(letter, step.written);
    assert Do(layout, s, step).dlq == s.dlq + Written([letter], step.written);
  }

  lemma LetterOfMessage(m: Message, error: HandlerError, generated: string)
    ensures LetterFor(m, error, generated).topic == "workflow.record-events.dlq"
    ensures LetterFits(LetterFor(m, error, generated), m)
  {
  }

  // ----- Any commit order drives a run -----

  lemma RunExtends(layout: Layout, run: seq<Pipe>, step: Step)
    requires layout.partitions > 0 && IsRun(layout, run) && Enabled(layout, Last(run), step)
    ensures IsRun(layout, run + [Do(layout, Last(run), step)])
  {
    hide Enabled, Do, Start;
    var more := run + [Do(layout, Last(run), step)];
    forall i | 0 < i < |more| ensures Takes(layout, more[i - 1], more[i]) {
      if i < |run| {
        assert Takes(layout, run[i - 1], run[i]);
      } else {
        assert more[i - 1] == Last(run);
      }
    }
  }

  ghost predicate WritesOf(commits: seq<Entry>) {
    forall i :: 0 <= i < |commits| ==> !commits[i].write.Bookkeep?
  }

  // Every order of legal API commits with distinct event identifiers, such as the database can be
  // brought through by concurrent calls, is the beginning of a run.
  lemma {:induction false} CommitOrderIsRun(layout: Layout, commits: seq<Entry>) returns (run: seq<Pipe>)
    requires layout.partitions > 0 && Legal(commits) && WritesOf(commits) && DistinctIds(After(commits).outbox)
    ensures IsRun(layout, run) && Last(run).db == After(commits)
  {
    if commits == [] {
      run := [Start()];
    } else {
      hide Allowed, Enabled, IsRun, Invariant;
      var w := Last(commits).write;
      var before := After(Init(commits));
      OutboxPrefix(before, w);
      run := CommitOrderIsRun(layout, Init(commits));
      WriteIsEnabled(layout, Last(run), w);
      RunExtends(layout, run, CommitWrite(w));
      InitOfSnoc(run, Do(layout, Last(run), CommitWrite(w)));
      run := run + [Do(layout, Last(run), CommitWrite(w))];
    }
  }

  lemma OutboxPrefix(db: Database, w: Write)
    requires !w.Bookkeep?
    ensures db.outbox <= Apply(PairSlot, db, w).outbox
  {
  }

  lemma WriteIsEnabled(layout: Layout, s: Pipe, w: Write)
    requires layout.partitions > 0 && Allowed(PairSlot, s.db, w) && !w.Bookkeep?
    requires DistinctIds(Apply(PairSlot, s.db, w).outbox)
    ensures Enabled(layout, s, CommitWrite(w))
  {
    hide Allowed;
    var rows := Apply(PairSlot, s.db, w).outbox;
    if w.AddRecord? || w.Revise? {
      forall i | 0 <= i < |s.db.outbox| ensures s.db.outbox[i].id != w.outboxId {
        assert rows[i] == s.db.outbox[i] && rows[|rows| - 1].id == w.outboxId;
      }
    }
  }

  // So whatever concurrent creates and updates bring the database to is a state the pipeline starts from.
  lemma ConcurrentCallsAreRun(layout: Layout, events: seq<MongoProtocol.Event>, s: MongoProtocol.Sys)
    returns (run: seq<Pipe>)
    requires layout.partitions > 0 && MongoProtocol.Reaches(events, s) && WritesOf(s.commits)
    ensures IsRun(layout, run) && Last(run).db == s.db
  {
    hide IsRun, After, Legal, MongoProtocol.Reaches, MongoProtocol.CallInvariant;
    MongoProofs.ReachableInvariant(events, s);
    run := CommitOrderIsRun(layout, s.commits);
  }
}
