// Every step of the pipeline keeps its invariant.

module PipelineProofs {
  import opened Domain
  import opened Tables
  import opened Outbox
  import opened Commits
  import opened Broker
  import opened RelaySpec
  import opened Projection
  import opened Consumer
  import opened Pipeline

  // ----- Phases -----

  lemma RelayMoves(layout: Layout, s: Pipe, r: nat, phase: RelayPhase)
    requires layout.partitions > 0 && PipeInvariant(layout, s) && RelayFine(s.db.outbox, s.topic, phase)
    ensures PipeInvariant(layout, WithRelay(s, r, phase))
  {
    hide Base, PublishedAreSent, TopicGenuine, NotificationsGenuine, Settled, PartitionLog, RelayFine;
    var s' := WithRelay(s, r, phase);
    forall p: nat | p < layout.partitions ensures PartitionSettled(layout, s', p) {
      assert PartitionSettled(layout, s, p);
    }
    forall w | w in s'.workers ensures WorkerFine(layout, s', s'.workers[w]) {
      assert WorkerFine(layout, s, s.workers[w]);
    }
  }

  lemma WorkerMoves(layout: Layout, s: Pipe, w: nat, phase: WorkerPhase)
    requires layout.partitions > 0 && PipeInvariant(layout, s) && WorkerFine(layout, s, phase)
    ensures PipeInvariant(layout, WithWorker(s, w, phase))
  {
    hide Base, PublishedAreSent, TopicGenuine, NotificationsGenuine, Settled, PartitionLog, RelayFine;
    var s' := WithWorker(s, w, phase);
    forall p: nat | p < layout.partitions ensures PartitionSettled(layout, s', p) {
      assert PartitionSettled(layout, s, p);
    }
    forall v | v in s'.workers ensures WorkerFine(layout, s', s'.workers[v]) {
      assert v != w ==> WorkerFine(layout, s, s.workers[v]);
    }
  }

  lemma RelayAtFine(layout: Layout, s: Pipe, r: nat)
    requires layout.partitions > 0 && PipeInvariant(layout, s)
    ensures RelayFine(s.db.outbox, s.topic, RelayAt(s, r))
    ensures NextInRange(RelayAt(s, r))
    ensures Base(s.db)
  {
    hide Base, PublishedAreSent, TopicGenuine, NotificationsGenuine, CommittedSettled, WorkerFine;
  }

  lemma WorkerAtFine(layout: Layout, s: Pipe, w: nat)
    requires layout.partitions > 0 && PipeInvariant(layout, s)
    ensures WorkerFine(layout, s, WorkerAt(s, w))
    ensures TopicGenuine(s.db.outbox, s.topic)
  {
    hide Base, PublishedAreSent, TopicGenuine, NotificationsGenuine, CommittedSettled, RelayFine;
  }

  // ----- Changes of the outbox -----

  // Rows keep their content; new ones may follow; rows newly published are in the topic.
  ghost predicate OutboxGrows(a: seq<OutboxEvent>, b: seq<OutboxEvent>, topic: seq<Message>) {
    && |a| <= |b|
    && (forall i :: 0 <= i < |a| ==> Content(b[i]) == Content(a[i]))
    && (forall i :: 0 <= i < |a| && b[i].published && !a[i].published ==> Sent(topic, a[i]))
    && (forall i :: |a| <= i < |b| ==> !b[i].published)
  }

  lemma RowsStay(a: seq<OutboxEvent>, b: seq<OutboxEvent>, topic: seq<Message>, e: OutboxEvent)
    requires OutboxGrows(a, b, topic) && HasRow(a, e)
    ensures HasRow(b, e)
  {
    hide Sent, Content;
    var i :| 0 <= i < |a| && Content(a[i]) == Content(e);
    assert Content(b[i]) == Content(e);
  }

  lemma RelayFineStays(a: seq<OutboxEvent>, b: seq<OutboxEvent>, topic: seq<Message>, phase: RelayPhase)
    requires OutboxGrows(a, b, topic) && RelayFine(a, topic, phase)
    ensures RelayFine(b, topic, phase)
  {
    hide Sent, HasRow, OutboxGrows;
    if !phase.Resting? {
      forall k | 0 <= k < |phase.items| && HasRow(a, phase.items[k]) ensures HasRow(b, phase.items[k]) {
        RowsStay(a, b, topic, phase.items[k]);
      }
    }
  }

  lemma ShowsRowStays(a: seq<OutboxEvent>, b: seq<OutboxEvent>, topic: seq<Message>, n: Notification)
    requires OutboxGrows(a, b, topic) && ShowsRow(a, n)
    ensures ShowsRow(b, n)
  {
    hide Sent;
    var i :| 0 <= i < |a| && a[i].id == n.id && Timeless(n) == NotificationOf(Content(a[i]), 0);
    assert Content(b[i]) == Content(a[i]);
    assert Content(b[i]).id == b[i].id && Content(a[i]).id == a[i].id;
  }

  lemma PublishedStaySent(a: seq<OutboxEvent>, b: seq<OutboxEvent>, topic: seq<Message>)
    requires OutboxGrows(a, b, topic) && PublishedAreSent(a, topic)
    ensures PublishedAreSent(b, topic)
  {
    hide Sent, Content;
    forall i | 0 <= i < |b| && b[i].published ensures Sent(topic, b[i]) {
      assert Sent(topic, a[i]);
      SentOfContent(topic, a[i], b[i]);
    }
  }

  lemma GenuineStay(a: seq<OutboxEvent>, b: seq<OutboxEvent>, topic: seq<Message>, notifications: Notifications)
    requires OutboxGrows(a, b, topic)
    requires TopicGenuine(a, topic) && NotificationsGenuine(a, notifications)
    ensures TopicGenuine(b, topic) && NotificationsGenuine(b, notifications)
  {
    hide Sent, HasRow, ShowsRow, OutboxGrows;
    forall m | m in topic && m.body.Json? ensures HasRow(b, m.body.event) {
      RowsStay(a, b, topic, m.body.event);
    }
    forall id | id in notifications ensures ShowsRow(b, notifications[id]) {
      ShowsRowStays(a, b, topic, notifications[id]);
    }
  }

  lemma OutboxChanges(layout: Layout, s: Pipe, db: Database)
    requires layout.partitions > 0 && PipeInvariant(layout, s)
    requires Base(db) && OutboxGrows(s.db.outbox, db.outbox, s.topic)
    ensures PipeInvariant(layout, s.(db := db))
  {
    hide Base, PublishedAreSent, TopicGenuine, NotificationsGenuine, Settled, PartitionLog, RelayFine, OutboxGrows;
    var a, b := s.db.outbox, db.outbox;
    var s' := s.(db := db);
    PublishedStaySent(a, b, s.topic);
    GenuineStay(a, b, s.topic, s.notifications);
    forall r | r in s.relays ensures RelayFine(b, s.topic, s.relays[r]) {
      RelayFineStays(a, b, s.topic, s.relays[r]);
    }
    forall p: nat | p < layout.partitions ensures PartitionSettled(layout, s', p) {
      assert PartitionSettled(layout, s, p);
    }
    forall w | w in s'.workers ensures WorkerFine(layout, s', s'.workers[w]) {
      assert WorkerFine(layout, s, s.workers[w]);
    }
  }

  // Relabelling rows keeps the tables' invariant.
  lemma BaseAfterRelabel(db: Database, rows: seq<OutboxEvent>)
    requires Base(db) && SameContent(db.outbox, rows)
    ensures Base(db.(outbox := rows))
  {
    hide Rebuild;
    BookkeepKeepsSourced(db, rows);
    forall i | 0 <= i < |rows| ensures rows[i].id == db.outbox[i].id {
      assert Content(db.outbox[i]) == Content(rows[i]);
    }
  }

  // Stamping identifiers of sent items publishes only rows that are in the topic.
  lemma StampGrows(outbox: seq<OutboxEvent>, topic: seq<Message>, items: seq<OutboxEvent>, taken: set<string>)
    requires DistinctIds(outbox) && AllHaveRows(outbox, items)
    requires forall id :: id in taken ==> exists k :: 0 <= k < |items| && items[k].id == id && Sent(topic, items[k])
    ensures SameContent(outbox, StampIds(outbox, taken)) && OutboxGrows(outbox, StampIds(outbox, taken), topic)
  {
    hide Sent;
    forall i | 0 <= i < |outbox| && outbox[i].id in taken ensures Sent(topic, outbox[i]) {
      var k :| 0 <= k < |items| && items[k].id == outbox[i].id && Sent(topic, items[k]);
      assert HasRow(outbox, items[k]);
      var j :| 0 <= j < |outbox| && Content(outbox[j]) == Content(items[k]);
      assert outbox[j].id == Content(outbox[j]).id == items[k].id;
      assert i == j;
      SentOfContent(topic, items[k], outbox[i]);
    }
  }

  lemma MarkKeeps(layout: Layout, s: Pipe, items: seq<OutboxEvent>, taken: set<string>)
    requires layout.partitions > 0 && PipeInvariant(layout, s) && AllHaveRows(s.db.outbox, items)
    requires forall id :: id in taken ==> exists k :: 0 <= k < |items| && items[k].id == id && Sent(s.topic, items[k])
    ensures PipeInvariant(layout, WithOutbox(s, StampIds(s.db.outbox, taken)))
  {
    hide PipeInvariant, Sent, Invariant, StampIds, AllHaveRows, OutboxGrows, SameContent;
    BaseOf(layout, s);
    StampGrows(s.db.outbox, s.topic, items, taken);
    BaseAfterRelabel(s.db, StampIds(s.db.outbox, taken));
    OutboxChanges(layout, s, s.db.(outbox := StampIds(s.db.outbox, taken)));
  }

  lemma BaseOf(layout: Layout, s: Pipe)
    requires layout.partitions > 0 && PipeInvariant(layout, s)
    ensures Base(s.db)
  {
    hide Base, PublishedAreSent, TopicGenuine, NotificationsGenuine, CommittedSettled, RelayFine, WorkerFine;
  }

  lemma NoteKeeps(layout: Layout, s: Pipe, id: string, fault: Fault)
    requires layout.partitions > 0 && PipeInvariant(layout, s)
    ensures PipeInvariant(layout, WithOutbox(s, Noted(s.db.outbox, id, REFUSED, fault)))
  {
    hide PipeInvariant, Invariant, Sent;
    var rows := Noted(s.db.outbox, id, REFUSED, fault);
    BaseOf(layout, s);
    assert SameContent(s.db.outbox, rows) && OutboxGrows(s.db.outbox, rows, s.topic);
    BaseAfterRelabel(s.db, rows);
    OutboxChanges(layout, s, s.db.(outbox := rows));
  }

  lemma ApiWriteKeeps(layout: Layout, s: Pipe, w: Write)
    requires layout.partitions > 0 && PipeInvariant(layout, s) && ApiWrite(s.db, w)
    ensures PipeInvariant(layout, s.(db := Apply(PairSlot, s.db, w)))
  {
    hide PipeInvariant, Invariant, Sent;
    var db := Apply(PairSlot, s.db, w);
    BaseOf(layout, s);
    WriteKeepsInvariant(PairSlot, s.db, w);
    OutboxChanges(layout, s, db);
  }

  // ----- Growth of the topic -----

  lemma PartitionsGrow(layout: Layout, log: seq<Message>, more: seq<Message>)
    requires layout.partitions > 0
    ensures forall p: nat :: p < layout.partitions ==> PartitionLog(layout, log, p) <= PartitionLog(layout, log + more, p)
  {
    forall p: nat | p < layout.partitions ensures PartitionLog(layout, log, p) <= PartitionLog(layout, log + more, p) {
      PartitionLogGrows(layout, log, more, p);
    }
  }

  lemma RelayFineWithMore(outbox: seq<OutboxEvent>, log: seq<Message>, more: seq<Message>, phase: RelayPhase)
    requires RelayFine(outbox, log, phase)
    ensures RelayFine(outbox, log + more, phase)
  {
    hide Sent, HasRow;
    if !phase.Resting? {
      forall k | 0 <= k < |phase.items| && Sent(log, phase.items[k]) ensures Sent(log + more, phase.items[k]) {
        SentGrows(log, more, phase.items[k]);
      }
    }
  }

  lemma TopicFacts(outbox: seq<OutboxEvent>, log: seq<Message>, more: seq<Message>)
    requires PublishedAreSent(outbox, log) && TopicGenuine(outbox, log) && TopicGenuine(outbox, more)
    ensures PublishedAreSent(outbox, log + more) && TopicGenuine(outbox, log + more)
  {
    hide Sent, HasRow;
    forall i | 0 <= i < |outbox| && outbox[i].published ensures Sent(log + more, outbox[i]) {
      SentGrows(log, more, outbox[i]);
    }
  }

  lemma TopicGrows(layout: Layout, s: Pipe, more: seq<Message>)
    requires layout.partitions > 0 && PipeInvariant(layout, s) && TopicGenuine(s.db.outbox, more)
    ensures PipeInvariant(layout, WithMessages(s, more))
  {
    hide Base, PublishedAreSent, TopicGenuine, NotificationsGenuine, Settled, PartitionLog, RelayFine;
    var s' := WithMessages(s, more);
    PartitionsGrow(layout, s.topic, more);
    TopicFacts(s.db.outbox, s.topic, more);
    forall r | r in s.relays ensures RelayFine(s.db.outbox, s'.topic, s.relays[r]) {
      RelayFineWithMore(s.db.outbox, s.topic, more, s.relays[r]);
    }
    forall p: nat | p < layout.partitions ensures PartitionSettled(layout, s', p) {
      assert PartitionSettled(layout, s, p);
    }
    forall w | w in s'.workers ensures WorkerFine(layout, s', s'.workers[w]) {
      assert WorkerFine(layout, s, s.workers[w]);
    }
  }

  // Whatever part of a batch reaches the topic carries rows of the outbox.
  lemma {:induction false} KeptAreFrom(messages: seq<Message>, kept: set<nat>)
    ensures forall m :: m in Kept(messages, kept) ==> m in messages
  {
    if messages != [] {
      KeptAreFrom(Init(messages), kept);
      assert messages == Init(messages) + [Last(messages)];
    }
  }

  lemma WrittenAreGenuine(outbox: seq<OutboxEvent>, items: seq<OutboxEvent>, fault: WriteFault)
    requires AllHaveRows(outbox, items)
    ensures TopicGenuine(outbox, Written(Messages(items), fault))
  {
    hide HasRow;
    if fault.Rejects? {
      KeptAreFrom(Messages(items), fault.kept);
    }
    forall m | m in Written(Messages(items), fault) && m.body.Json? ensures HasRow(outbox, m.body.event) {
      assert m in Messages(items);
      var k :| 0 <= k < |items| && Messages(items)[k] == m;
      assert m == MessageOf(items[k]);
    }
  }

  lemma BatchIsSent(log: seq<Message>, items: seq<OutboxEvent>)
    ensures AllSent(log + Messages(items), items)
  {
    hide Content;
    forall k | 0 <= k < |items| ensures Sent(log + Messages(items), items[k]) {
      assert (log + Messages(items))[|log| + k] == MessageOf(items[k]);
      assert MessageOf(items[k]) in log + Messages(items);
    }
  }

  lemma OneMessage(e: OutboxEvent)
    ensures Messages([e]) == [MessageOf(e)]
  {
  }

  // ----- Growth of the projection and the dead-letter topic -----

  lemma SinksGrow(layout: Layout, s: Pipe, notifications: Notifications, dlq: seq<Message>)
    requires layout.partitions > 0 && PipeInvariant(layout, s)
    requires NotificationsGenuine(s.db.outbox, notifications)
    requires s.dlq <= dlq && forall id :: id in s.notifications ==> id in notifications
    ensures PipeInvariant(layout, s.(notifications := notifications, dlq := dlq))
  {
    hide Base, PublishedAreSent, TopicGenuine, NotificationsGenuine, Settled, PartitionLog, RelayFine;
    var s' := s.(notifications := notifications, dlq := dlq);
    forall m | Settled(s.notifications, s.dlq, m) ensures Settled(notifications, dlq, m) {
      SettledGrows(s.notifications, notifications, s.dlq, dlq, m);
    }
    forall p: nat | p < layout.partitions ensures PartitionSettled(layout, s', p) {
      assert PartitionSettled(layout, s, p);
    }
    forall w | w in s'.workers ensures WorkerFine(layout, s', s'.workers[w]) {
      assert WorkerFine(layout, s, s.workers[w]);
    }
  }

  lemma InsertIsGenuine(outbox: seq<OutboxEvent>, notifications: Notifications, e: OutboxEvent, now: int)
    requires NotificationsGenuine(outbox, notifications) && HasRow(outbox, e)
    ensures NotificationsGenuine(outbox, InsertOnce(notifications, NotificationOf(e, now)))
  {
    var i :| 0 <= i < |outbox| && Content(outbox[i]) == Content(e);
    assert Content(outbox[i]).id == outbox[i].id && Content(e).id == e.id;
    assert NotificationOf(Content(e), 0) == Timeless(NotificationOf(e, now));
    assert ShowsRow(outbox, NotificationOf(e, now));
  }

  // ----- Relay steps -----

  lemma {:induction false} PendingHaveRows(outbox: seq<OutboxEvent>, limit: int)
    ensures AllHaveRows(outbox, ListPending(outbox, limit))
  {
    hide Content, Pending;
    PendingIsUnpublished(outbox);
    var items := ListPending(outbox, limit);
    forall k | 0 <= k < |items| ensures HasRow(outbox, items[k]) {
      assert items[k] == Pending(outbox)[k];
      assert items[k] in outbox;
    }
  }

  lemma ListKeeps(layout: Layout, s: Pipe, step: Step)
    requires layout.partitions > 0 && PipeInvariant(layout, s) && step.List? && Enabled(layout, s, step)
    ensures PipeInvariant(layout, Do(layout, s, step))
  {
    hide PipeInvariant, Base, HasRow, ListPending;
    PendingHaveRows(s.db.outbox, step.limit);
    var items := ListPending(s.db.outbox, step.limit);
    RelayMoves(layout, s, step.relay, if items == [] then Resting else Listed(items, step.batching));
  }

  lemma PublishBatchKeeps(layout: Layout, s: Pipe, step: Step)
    requires layout.partitions > 0 && PipeInvariant(layout, s) && step.PublishBatch? && Enabled(layout, s, step)
    ensures PipeInvariant(layout, Do(layout, s, step))
  {
    hide PipeInvariant, Base, HasRow, Sent, Messages;
    RelayAtFine(layout, s, step.relay);
    var items := RelayAt(s, step.relay).items;
    WrittenAreGenuine(s.db.outbox, items, step.written);
    TopicGrows(layout, s, Written(Messages(items), step.written));
    BatchIsSent(s.topic, items);
    RelayMoves(layout, WithMessages(s, Written(Messages(items), step.written)), step.relay,
               Do(layout, s, step).relays[step.relay]);
  }

  lemma MarkBatchKeeps(layout: Layout, s: Pipe, step: Step)
    requires layout.partitions > 0 && PipeInvariant(layout, s) && step.MarkBatch? && Enabled(layout, s, step)
    ensures PipeInvariant(layout, Do(layout, s, step))
  {
    hide PipeInvariant, Base, HasRow, Sent, StampIds;
    RelayAtFine(layout, s, step.relay);
    var items := RelayAt(s, step.relay).items;
    MarkKeeps(layout, s, items, step.taken);
    RelayMoves(layout, WithOutbox(s, StampIds(s.db.outbox, step.taken)), step.relay, Resting);
  }

  lemma NoteBatchKeeps(layout: Layout, s: Pipe, step: Step)
    requires layout.partitions > 0 && PipeInvariant(layout, s) && step.NoteBatch? && Enabled(layout, s, step)
    ensures PipeInvariant(layout, Do(layout, s, step))
  {
    hide PipeInvariant, Base, HasRow, Sent, Noted;
    RelayAtFine(layout, s, step.relay);
    var NotingBatch(items, next) := RelayAt(s, step.relay);
    NoteKeeps(layout, s, items[next].id, step.fault);
    RelayMoves(layout, WithOutbox(s, Noted(s.db.outbox, items[next].id, REFUSED, step.fault)), step.relay,
               Do(layout, s, step).relays[step.relay]);
  }

  lemma PublishItemKeeps(layout: Layout, s: Pipe, step: Step)
    requires layout.partitions > 0 && PipeInvariant(layout, s) && step.PublishItem? && Enabled(layout, s, step)
    ensures PipeInvariant(layout, Do(layout, s, step))
  {
    hide PipeInvariant, Base, HasRow, Sent, Messages, PublishedAreSent, NotificationsGenuine, CommittedSettled, Content;
    RelayAtFine(layout, s, step.relay);
    var items := RelayAt(s, step.relay).items;
    var next := if RelayAt(s, step.relay).Sequential? then RelayAt(s, step.relay).next else 0;
    OneMessage(items[next]);
    WrittenAreGenuine(s.db.outbox, [items[next]], step.written);
    TopicGrows(layout, s, Written([MessageOf(items[next])], step.written));
    BatchIsSent(s.topic, [items[next]]);
    assert [items[next]][0] == items[next];
    RelayMoves(layout, WithMessages(s, Written([MessageOf(items[next])], step.written)), step.relay,
               Do(layout, s, step).relays[step.relay]);
  }

  lemma MarkItemKeeps(layout: Layout, s: Pipe, step: Step)
    requires layout.partitions > 0 && PipeInvariant(layout, s) && step.MarkItem? && Enabled(layout, s, step)
    ensures PipeInvariant(layout, Do(layout, s, step))
  {
    hide PipeInvariant, Base, HasRow, Sent, StampIds;
    RelayAtFine(layout, s, step.relay);
    var ItemSent(items, next) := RelayAt(s, step.relay);
    MarkKeeps(layout, s, items, {items[next].id});
    var s1 := WithOutbox(s, Marked(s.db.outbox, {items[next].id}, step.fault));
    assert PipeInvariant(layout, s1) by {
      if step.fault.FailsClean? {
        assert s1 == s;
      }
    }
    AllHaveRowsStay(layout, s, items, {items[next].id}, step.fault);
    RelayMoves(layout, s1, step.relay, AfterItem(items, next));
  }

  lemma AllHaveRowsStay(layout: Layout, s: Pipe, items: seq<OutboxEvent>, ids: set<string>, fault: Fault)
    requires AllHaveRows(s.db.outbox, items)
    ensures AllHaveRows(Marked(s.db.outbox, ids, fault), items)
  {
    var rows := Marked(s.db.outbox, ids, fault);
    forall k | 0 <= k < |items| ensures HasRow(rows, items[k]) {
      assert HasRow(s.db.outbox, items[k]);
      var i :| 0 <= i < |s.db.outbox| && Content(s.db.outbox[i]) == Content(items[k]);
      assert Content(rows[i]) == Content(items[k]);
    }
  }

  lemma AllHaveRowsNoted(outbox: seq<OutboxEvent>, items: seq<OutboxEvent>, id: string, fault: Fault)
    requires AllHaveRows(outbox, items)
    ensures AllHaveRows(Noted(outbox, id, REFUSED, fault), items)
  {
    var rows := Noted(outbox, id, REFUSED, fault);
    forall k | 0 <= k < |items| ensures HasRow(rows, items[k]) {
      assert HasRow(outbox, items[k]);
      var i :| 0 <= i < |outbox| && Content(outbox[i]) == Content(items[k]);
      assert Content(rows[i]) == Content(items[k]);
    }
  }

  lemma NoteItemKeeps(layout: Layout, s: Pipe, step: Step)
    requires layout.partitions > 0 && PipeInvariant(layout, s) && step.NoteItem? && Enabled(layout, s, step)
    ensures PipeInvariant(layout, Do(layout, s, step))
  {
    hide PipeInvariant, Base, HasRow, Sent, Noted;
    RelayAtFine(layout, s, step.relay);
    var NotingItem(items, next) := RelayAt(s, step.relay);
    NoteKeeps(layout, s, items[next].id, step.fault);
    AllHaveRowsNoted(s.db.outbox, items, items[next].id, step.fault);
    RelayMoves(layout, WithOutbox(s, Noted(s.db.outbox, items[next].id, REFUSED, step.fault)), step.relay,
               AfterItem(items, next));
  }

  // ----- Worker steps -----

  lemma FetchKeeps(layout: Layout, s: Pipe, step: Step)
    requires layout.partitions > 0 && PipeInvariant(layout, s) && step.Fetch? && Enabled(layout, s, step)
    ensures PipeInvariant(layout, Do(layout, s, step))
  {
    hide PipeInvariant, PartitionLog, Settled;
    PositionSettled(layout, s, step.partition);
    WorkerMoves(layout, s, step.worker, Do(layout, s, step).workers[step.worker]);
  }

  lemma PositionSettled(layout: Layout, s: Pipe, p: nat)
    requires layout.partitions > 0 && PipeInvariant(layout, s) && p < layout.partitions
    ensures SettledBelow(layout, s, p, Position(s, p))
  {
    hide Base, PublishedAreSent, TopicGenuine, NotificationsGenuine, RelayFine, WorkerFine, SettledBelow;
    assert PartitionSettled(layout, s, p);
  }

  lemma FetchNextKeeps(layout: Layout, s: Pipe, step: Step)
    requires layout.partitions > 0 && PipeInvariant(layout, s) && step.FetchNext? && Enabled(layout, s, step)
    ensures PipeInvariant(layout, Do(layout, s, step))
  {
    hide PipeInvariant, PartitionLog, Settled;
    WorkerAtFine(layout, s, step.worker);
    WorkerMoves(layout, s, step.worker, Do(layout, s, step).workers[step.worker]);
  }

  lemma TryHandleKeeps(layout: Layout, s: Pipe, step: Step)
    requires layout.partitions > 0 && PipeInvariant(layout, s) && step.TryHandle? && Enabled(layout, s, step)
    ensures PipeInvariant(layout, Do(layout, s, step))
  {
    hide PipeInvariant, PartitionLog, HasRow, NotificationsGenuine;
    WorkerAtFine(layout, s, step.worker);
    NotificationsOf(layout, s);
    var phase := WorkerAt(s, step.worker);
    var e := phase.message.body.event;
    OffsetHasMessage(layout, s.topic, phase.partition);
    assert HasRow(s.db.outbox, e);
    var notifications := if step.attempt.fault.FailsClean? then s.notifications
                         else InsertOnce(s.notifications, NotificationOf(e, step.attempt.now));
    InsertIsGenuine(s.db.outbox, s.notifications, e, step.attempt.now);
    SinksGrow(layout, s, notifications, s.dlq);
    WorkerMoves(layout, s.(notifications := notifications), step.worker, AfterAttempt(phase, step.attempt));
  }

  lemma NotificationsOf(layout: Layout, s: Pipe)
    requires layout.partitions > 0 && PipeInvariant(layout, s)
    ensures NotificationsGenuine(s.db.outbox, s.notifications)
  {
    hide Base, PublishedAreSent, TopicGenuine, NotificationsGenuine, CommittedSettled, RelayFine, WorkerFine;
  }

  lemma LetterIsDeadLetter(m: Message, error: HandlerError, generated: string)
    ensures DeadLetterOf(LetterFor(m, error, generated), m)
  {
  }

  lemma DeadLetterKeeps(layout: Layout, s: Pipe, step: Step)
    requires layout.partitions > 0 && PipeInvariant(layout, s) && step.DeadLetter? && Enabled(layout, s, step)
    ensures PipeInvariant(layout, Do(layout, s, step))
  {
    hide PipeInvariant, PartitionLog, HasRow, NotificationsGenuine, LetterFor, DeadLetterOf;
    WorkerAtFine(layout, s, step.worker);
    NotificationsOf(layout, s);
    var phase := WorkerAt(s, step.worker);
    var letter := LetterFor(phase.message, phase.error, step.generated);
    var dlq := s.dlq + Written([letter], step.written);
    LetterIsDeadLetter(phase.message, phase.error, step.generated);
    SinksGrow(layout, s, s.notifications, dlq);
    if step.written.Accepts? {
      assert dlq[|s.dlq|] == letter && letter in dlq;
    }
    WorkerMoves(layout, s.(dlq := dlq), step.worker, Do(layout, s, step).workers[step.worker]);
  }

  // The committed offset may go wherever everything before is settled: forward or, under a stale
  // commit, back.
  lemma OffsetMoves(layout: Layout, s: Pipe, p: nat, n: nat)
    requires layout.partitions > 0 && PipeInvariant(layout, s) && p < layout.partitions
    requires SettledBelow(layout, s, p, n)
    ensures PipeInvariant(layout, s.(committed := s.committed[p := n]))
  {
    hide Base, PublishedAreSent, TopicGenuine, NotificationsGenuine, Settled, PartitionLog, RelayFine;
    var s' := s.(committed := s.committed[p := n]);
    forall q: nat | q < layout.partitions ensures PartitionSettled(layout, s', q) {
      assert PartitionSettled(layout, s, q);
    }
    forall w | w in s'.workers ensures WorkerFine(layout, s', s'.workers[w]) {
      assert WorkerFine(layout, s, s.workers[w]);
    }
  }

  lemma CommitOffsetKeeps(layout: Layout, s: Pipe, step: Step)
    requires layout.partitions > 0 && PipeInvariant(layout, s) && step.CommitOffset? && Enabled(layout, s, step)
    ensures PipeInvariant(layout, Do(layout, s, step))
  {
    hide PipeInvariant, PartitionLog, Settled;
    WorkerAtFine(layout, s, step.worker);
    var Done(p, g, o, m) := WorkerAt(s, step.worker);
    assert SettledBelow(layout, s, p, o + 1);
    var s1 := if step.fault.FailsClean? then s else s.(committed := s.committed[p := o + 1]);
    OffsetMoves(layout, s, p, o + 1);
    WorkerMoves(layout, s1, step.worker, if step.fault.Works? then Ready(p, g, o + 1) else Free);
  }

  lemma AssignKeeps(layout: Layout, s: Pipe, step: Step)
    requires layout.partitions > 0 && PipeInvariant(layout, s) && step.Assign? && Enabled(layout, s, step)
    ensures PipeInvariant(layout, Do(layout, s, step))
  {
    hide Base, PublishedAreSent, TopicGenuine, NotificationsGenuine, Settled, PartitionLog;
    var s' := Do(layout, s, step);
    forall q: nat | q < layout.partitions ensures PartitionSettled(layout, s', q) {
      assert PartitionSettled(layout, s, q);
    }
    forall w | w in s'.workers ensures WorkerFine(layout, s', s'.workers[w]) {
      assert WorkerFine(layout, s, s.workers[w]);
    }
  }

  // ----- Every step -----

  lemma ForeignIsGenuine(outbox: seq<OutboxEvent>, m: Message)
    requires m.body.Raw?
    ensures TopicGenuine(outbox, [m])
  {
  }

  lemma StepKeepsInvariant(layout: Layout, s: Pipe, step: Step)
    requires layout.partitions > 0 && PipeInvariant(layout, s) && Enabled(layout, s, step)
    ensures PipeInvariant(layout, Do(layout, s, step))
  {
    hide PipeInvariant, Apply, ApiWrite, WorkerFine, RelayFine, PartitionLog;
    match step
    case CommitWrite(w) => ApiWriteKeeps(layout, s, w);
    case Foreign(m) =>
      ForeignIsGenuine(s.db.outbox, m);
      TopicGrows(layout, s, [m]);
    case List(_, _, _) => ListKeeps(layout, s, step);
    case PublishBatch(_, _) => PublishBatchKeeps(layout, s, step);
    case MarkBatch(_, _) => MarkBatchKeeps(layout, s, step);
    case NoteBatch(_, _) => NoteBatchKeeps(layout, s, step);
    case PublishItem(_, _) => PublishItemKeeps(layout, s, step);
    case MarkItem(_, _) => MarkItemKeeps(layout, s, step);
    case NoteItem(_, _) => NoteItemKeeps(layout, s, step);
    case CrashRelay(r) => CrashRelayKeeps(layout, s, r);
    case Assign(_, _) => AssignKeeps(layout, s, step);
    case Fetch(_, _) => FetchKeeps(layout, s, step);
    case FetchNext(_) => FetchNextKeeps(layout, s, step);
    case TryHandle(_, _) => TryHandleKeeps(layout, s, step);
    case DeadLetter(_, _, _) => DeadLetterKeeps(layout, s, step);
    case CommitOffset(_, _) => CommitOffsetKeeps(layout, s, step);
    case CrashWorker(w) => CrashWorkerKeeps(layout, s, w);
  }

  lemma CrashRelayKeeps(layout: Layout, s: Pipe, r: nat)
    requires layout.partitions > 0 && PipeInvariant(layout, s)
    ensures PipeInvariant(layout, WithRelay(s, r, Resting))
  {
    hide PipeInvariant;
    RelayMoves(layout, s, r, Resting);
  }

  lemma CrashWorkerKeeps(layout: Layout, s: Pipe, w: nat)
    requires layout.partitions > 0 && PipeInvariant(layout, s)
    ensures PipeInvariant(layout, WithWorker(s, w, Free))
  {
    hide PipeInvariant;
    WorkerMoves(layout, s, w, Free);
  }

  lemma StartInvariant(layout: Layout)
    requires layout.partitions > 0
    ensures PipeInvariant(layout, Start())
  {
    EmptyInvariant(PairSlot);
    forall p: nat | p < layout.partitions ensures PartitionSettled(layout, Start(), p) {
    }
  }
}
