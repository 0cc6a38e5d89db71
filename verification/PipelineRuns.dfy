// Runs of the pipeline: every state keeps the invariant, and nothing that was reached is taken back.

module PipelineRuns {
  import opened Domain
  import opened Tables
  import opened Outbox
  import opened Commits
  import opened Broker
  import opened RelaySpec
  import opened Projection
  import opened Pipeline
  import opened PipelineProofs

  ghost predicate Takes(layout: Layout, a: Pipe, b: Pipe)
    requires layout.partitions > 0
  {
    exists step :: Enabled(layout, a, step) && b == Do(layout, a, step)
  }

  ghost predicate IsRun(layout: Layout, run: seq<Pipe>)
    requires layout.partitions > 0
  {
    && run != [] && run[0] == Start()
    && forall i :: 0 < i < |run| ==> Takes(layout, run[i - 1], run[i])
  }

  lemma {:induction false} RunKeepsInvariant(layout: Layout, run: seq<Pipe>, i: nat)
    requires layout.partitions > 0 && IsRun(layout, run) && i < |run|
    ensures PipeInvariant(layout, run[i])
  {
    hide PipeInvariant, Enabled, Do, Start;
    if i == 0 {
      StartInvariant(layout);
    } else {
      RunKeepsInvariant(layout, run, i - 1);
      assert Takes(layout, run[i - 1], run[i]);
      var step :| Enabled(layout, run[i - 1], step) && run[i] == Do(layout, run[i - 1], step);
      StepKeepsInvariant(layout, run[i - 1], step);
    }
  }

  // ----- What a step leaves standing -----

  // Rows stay, with their content, and a published row stays published.
  ghost predicate RowsStand(a: seq<OutboxEvent>, b: seq<OutboxEvent>) {
    && |a| <= |b|
    && (forall i :: 0 <= i < |a| ==> Content(b[i]) == Content(a[i]))
    && (forall i :: 0 <= i < |a| && a[i].published ==> b[i].published)
  }

  ghost predicate NotificationsStand(a: Notifications, b: Notifications) {
    forall id :: id in a ==> id in b && b[id] == a[id]
  }

  ghost predicate Stands(a: Pipe, b: Pipe) {
    && Grows(a.db, b.db)
    && RowsStand(a.db.outbox, b.db.outbox)
    && a.topic <= b.topic
    && NotificationsStand(a.notifications, b.notifications)
    && a.dlq <= b.dlq
  }

  lemma RelabelGrows(db: Database, rows: seq<OutboxEvent>)
    ensures Grows(db, db.(outbox := rows))
  {
  }

  lemma SamePartsStand(a: Pipe, b: Pipe)
    requires a.db == b.db && a.topic <= b.topic && a.dlq <= b.dlq
    requires NotificationsStand(a.notifications, b.notifications)
    ensures Stands(a, b)
  {
  }

  lemma StampStands(rows: seq<OutboxEvent>, ids: set<string>)
    ensures RowsStand(rows, StampIds(rows, ids))
  {
  }

  lemma NoteStands(rows: seq<OutboxEvent>, id: string, fault: Fault)
    ensures RowsStand(rows, Noted(rows, id, REFUSED, fault))
  {
  }

  lemma OutboxStands(a: Pipe, b: Pipe, rows: seq<OutboxEvent>)
    requires b.db == a.db.(outbox := rows) && RowsStand(a.db.outbox, rows)
    requires b.topic == a.topic && b.dlq == a.dlq && b.notifications == a.notifications
    ensures Stands(a, b)
  {
    RelabelGrows(a.db, rows);
  }

  lemma WriteStands(s: Pipe, w: Write)
    requires ApiWrite(s.db, w)
    ensures Stands(s, s.(db := Apply(PairSlot, s.db, w)))
  {
    WriteGrows(s.db, w);
  }

  predicate MarksOrNotes(step: Step) {
    step.MarkBatch? || step.NoteBatch? || step.MarkItem? || step.NoteItem?
  }

  lemma MarkingStands(layout: Layout, s: Pipe, step: Step)
    requires layout.partitions > 0 && Enabled(layout, s, step) && MarksOrNotes(step)
    ensures Stands(s, Do(layout, s, step))
  {
    hide Stands, RowsStand, StampIds, PartitionLog, ListPending, Written, AfterItem, RetryId;
    var s' := Do(layout, s, step);
    var phase := RelayAt(s, step.relay);
    if step.MarkBatch? {
      StampStands(s.db.outbox, step.taken);
    } else if step.MarkItem? {
      StampStands(s.db.outbox, {phase.items[phase.next].id});
      SameRowsStand(s.db.outbox);
    } else {
      NoteStands(s.db.outbox, phase.items[phase.next].id, step.fault);
    }
    OutboxStands(s, s', s'.db.outbox);
  }

  lemma HandlingStands(layout: Layout, s: Pipe, step: Step)
    requires layout.partitions > 0 && Enabled(layout, s, step)
    requires step.Fetch? || step.FetchNext? || step.TryHandle? || step.DeadLetter? || step.CommitOffset?
    ensures Stands(s, Do(layout, s, step))
  {
    hide Stands, PartitionLog, LetterFor, Written, AfterAttempt, NotificationOf;
    SamePartsStand(s, Do(layout, s, step));
  }

  lemma StepStands(layout: Layout, s: Pipe, step: Step)
    requires layout.partitions > 0 && PipeInvariant(layout, s) && Enabled(layout, s, step)
    ensures Stands(s, Do(layout, s, step))
  {
    hide PipeInvariant, Stands, RowsStand, Apply, ApiWrite, StampIds, Noted, PartitionLog, LetterFor, ListPending,
         Written, AfterItem;
    match step
    case CommitWrite(w) => WriteStands(s, w);
    case MarkBatch(_, _) => MarkingStands(layout, s, step);
    case NoteBatch(_, _) => MarkingStands(layout, s, step);
    case MarkItem(_, _) => MarkingStands(layout, s, step);
    case NoteItem(_, _) => MarkingStands(layout, s, step);
    case CommitOffset(_, _) => HandlingStands(layout, s, step);
    case FetchNext(_) => HandlingStands(layout, s, step);
    case Fetch(_, _) => HandlingStands(layout, s, step);
    case TryHandle(_, _) => HandlingStands(layout, s, step);
    case DeadLetter(_, _, _) => HandlingStands(layout, s, step);
    case _ => SamePartsStand(s, Do(layout, s, step));
  }

  lemma SameRowsStand(rows: seq<OutboxEvent>)
    ensures RowsStand(rows, rows)
  {
  }

  lemma RowsStandTransitive(a: seq<OutboxEvent>, b: seq<OutboxEvent>, c: seq<OutboxEvent>)
    requires RowsStand(a, b) && RowsStand(b, c)
    ensures RowsStand(a, c)
  {
    hide Content;
  }

  lemma StandsTransitive(a: Pipe, b: Pipe, c: Pipe)
    requires Stands(a, b) && Stands(b, c)
    ensures Stands(a, c)
  {
    hide RowsStand, Grows;
    GrowsTransitive(a.db, b.db, c.db);
    RowsStandTransitive(a.db.outbox, b.db.outbox, c.db.outbox);
  }

  // Over any run: records only grow, rows keep their content and stay published, stored
  // notifications never change, and topic and dead letters only grow.
  lemma {:induction false} NothingTakenBack(layout: Layout, run: seq<Pipe>, i: nat, j: nat)
    requires layout.partitions > 0 && IsRun(layout, run) && i <= j < |run|
    ensures Stands(run[i], run[j])
    decreases j
  {
    if i == j {
      SamePartsStand(run[i], run[i]);
    } else {
      hide PipeInvariant, Enabled, Do, Start, Stands;
      NothingTakenBack(layout, run, i, j - 1);
      RunKeepsInvariant(layout, run, j - 1);
      assert Takes(layout, run[j - 1], run[j]);
      var step :| Enabled(layout, run[j - 1], step) && run[j] == Do(layout, run[j - 1], step);
      StepStands(layout, run[j - 1], step);
      StandsTransitive(run[i], run[j - 1], run[j]);
    }
  }

  // ----- Fenced runs -----

  ghost predicate TakesFenced(layout: Layout, a: Pipe, b: Pipe)
    requires layout.partitions > 0
  {
    exists step :: Enabled(layout, a, step) && Fenced(a, step) && b == Do(layout, a, step)
  }

  // A run in which no commit of an older generation takes effect.
  ghost predicate IsFencedRun(layout: Layout, run: seq<Pipe>)
    requires layout.partitions > 0
  {
    IsRun(layout, run) && forall i :: 0 < i < |run| ==> TakesFenced(layout, run[i - 1], run[i])
  }

  ghost predicate OffsetsStand(layout: Layout, a: Pipe, b: Pipe) {
    forall p: nat :: p < layout.partitions ==> Position(a, p) <= Position(b, p)
  }

  predicate SameSessions(a: Pipe, b: Pipe) {
    a.workers == b.workers && a.owner == b.owner && a.generation == b.generation && a.committed == b.committed
  }

  lemma SameSessionsCurrent(layout: Layout, a: Pipe, b: Pipe)
    requires AllCurrent(a) && SameSessions(a, b)
    ensures AllCurrent(b) && OffsetsStand(layout, a, b)
  {
    forall w | w in b.workers ensures Current(b, w, b.workers[w]) {
      assert Current(a, w, a.workers[w]);
    }
  }

  // A worker goes on within its session, begins one, or ends it.
  lemma SessionMoves(layout: Layout, a: Pipe, b: Pipe, w: nat)
    requires AllCurrent(a) && SameSessions(a.(workers := b.workers), b)
    requires w in b.workers && b.workers == a.workers[w := b.workers[w]] && Current(a, w, b.workers[w])
    ensures AllCurrent(b) && OffsetsStand(layout, a, b)
  {
    forall v | v in b.workers ensures Current(b, v, b.workers[v]) {
      assert v != w ==> Current(a, v, a.workers[v]);
    }
  }

  lemma AssignedCurrent(layout: Layout, s: Pipe, p: nat, w: nat)
    requires AllCurrent(s)
    ensures var b := s.(owner := s.owner[p := w], generation := s.generation[p := Generation(s, p) + 1]);
            AllCurrent(b) && OffsetsStand(layout, s, b)
  {
    var b := s.(owner := s.owner[p := w], generation := s.generation[p := Generation(s, p) + 1]);
    forall v | v in b.workers ensures Current(b, v, b.workers[v]) {
      assert Current(s, v, s.workers[v]);
    }
  }

  lemma FencedCommit(layout: Layout, s: Pipe, step: Step)
    requires layout.partitions > 0 && AllCurrent(s) && Enabled(layout, s, step) && Fenced(s, step) && step.CommitOffset?
    ensures AllCurrent(Do(layout, s, step)) && OffsetsStand(layout, s, Do(layout, s, step))
  {
    hide PartitionLog;
    var s' := Do(layout, s, step);
    assert Current(s, step.worker, s.workers[step.worker]);
    forall w | w in s'.workers ensures Current(s', w, s'.workers[w]) {
      assert w in s.workers && Current(s, w, s.workers[w]);
    }
  }

  lemma FencedFetch(layout: Layout, s: Pipe, step: Step)
    requires layout.partitions > 0 && AllCurrent(s) && Enabled(layout, s, step)
    requires step.Fetch? || step.FetchNext?
    ensures AllCurrent(Do(layout, s, step)) && OffsetsStand(layout, s, Do(layout, s, step))
  {
    hide PartitionLog, AllCurrent, OffsetsStand;
    if step.FetchNext? {
      OneCurrent(s, step.worker);
    }
    SessionMoves(layout, s, Do(layout, s, step), step.worker);
  }

  lemma FencedHandling(layout: Layout, s: Pipe, step: Step)
    requires layout.partitions > 0 && AllCurrent(s) && Enabled(layout, s, step)
    requires step.TryHandle? || step.DeadLetter? || step.CrashWorker?
    ensures AllCurrent(Do(layout, s, step)) && OffsetsStand(layout, s, Do(layout, s, step))
  {
    hide PartitionLog, LetterFor, Written, AllCurrent, OffsetsStand, NotificationOf, InsertOnce;
    if !step.CrashWorker? {
      OneCurrent(s, step.worker);
    }
    SessionMoves(layout, s, Do(layout, s, step), step.worker);
  }

  lemma OneCurrent(s: Pipe, w: nat)
    requires AllCurrent(s) && w in s.workers
    ensures Current(s, w, s.workers[w])
  {
  }

  lemma FencedStep(layout: Layout, s: Pipe, step: Step)
    requires layout.partitions > 0 && AllCurrent(s) && Enabled(layout, s, step) && Fenced(s, step)
    ensures AllCurrent(Do(layout, s, step)) && OffsetsStand(layout, s, Do(layout, s, step))
  {
    hide PartitionLog, Apply, ApiWrite, StampIds, Noted, LetterFor, ListPending, Written, AfterItem, AllCurrent,
         OffsetsStand, Fenced;
    match step
    case Fetch(_, _) => FencedFetch(layout, s, step);
    case FetchNext(_) => FencedFetch(layout, s, step);
    case TryHandle(_, _) => FencedHandling(layout, s, step);
    case DeadLetter(_, _, _) => FencedHandling(layout, s, step);
    case CrashWorker(_) => FencedHandling(layout, s, step);
    case CommitOffset(_, _) => FencedCommit(layout, s, step);
    case Assign(p, w) => AssignedCurrent(layout, s, p, w);
    case _ => SameSessionsCurrent(layout, s, Do(layout, s, step));
  }

  lemma {:induction false} FencedRunIsCurrent(layout: Layout, run: seq<Pipe>, i: nat)
    requires layout.partitions > 0 && IsFencedRun(layout, run) && i < |run|
    ensures AllCurrent(run[i])
  {
    if i > 0 {
      hide Enabled, Do, AllCurrent, Fenced, IsRun;
      FencedRunIsCurrent(layout, run, i - 1);
      assert TakesFenced(layout, run[i - 1], run[i]);
      var step :| Enabled(layout, run[i - 1], step) && Fenced(run[i - 1], step) && run[i] == Do(layout, run[i - 1], step);
      FencedStep(layout, run[i - 1], step);
    }
  }

  // With stale commits fenced off, no committed offset ever moves back.
  lemma {:induction false} OffsetsNeverFall(layout: Layout, run: seq<Pipe>, i: nat, j: nat)
    requires layout.partitions > 0 && IsFencedRun(layout, run) && i <= j < |run|
    ensures OffsetsStand(layout, run[i], run[j])
    decreases j
  {
    hide Enabled, Do, AllCurrent, Fenced, IsRun, OffsetsStand;
    if i == j {
      SameOffsets(layout, run[i]);
    } else {
      OffsetsNeverFall(layout, run, i, j - 1);
      FencedRunIsCurrent(layout, run, j - 1);
      assert TakesFenced(layout, run[j - 1], run[j]);
      var step :| Enabled(layout, run[j - 1], step) && Fenced(run[j - 1], step) && run[j] == Do(layout, run[j - 1], step);
      FencedStep(layout, run[j - 1], step);
      OffsetsTransitive(layout, run[i], run[j - 1], run[j]);
    }
  }

  lemma SameOffsets(layout: Layout, s: Pipe)
    ensures OffsetsStand(layout, s, s)
  {
  }

  lemma OffsetsTransitive(layout: Layout, a: Pipe, b: Pipe, c: Pipe)
    requires OffsetsStand(layout, a, b) && OffsetsStand(layout, b, c)
    ensures OffsetsStand(layout, a, c)
  {
  }
}
