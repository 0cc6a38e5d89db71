// The whole pipeline as one state machine: committed tables, any number of relays, the topic, any
// number of workers in one consumer group, the projection and the dead-letter topic. A step is one
// call of the code to a database or broker, together with how it fails; processes may crash
// between any two steps.

module Pipeline {
  import opened Domain
  import opened Tables
  import opened Outbox
  import opened Commits
  import opened Broker
  import opened RelaySpec
  import opened Projection
  import opened Consumer

  datatype RelayPhase =
    | Resting
    | Listed(items: seq<OutboxEvent>, batching: bool)
    | BatchSent(items: seq<OutboxEvent>)
    | NotingBatch(items: seq<OutboxEvent>, next: nat)
    | Sequential(items: seq<OutboxEvent>, next: nat)
    | ItemSent(items: seq<OutboxEvent>, next: nat)
    | NotingItem(items: seq<OutboxEvent>, next: nat)

  // A worker reads one partition in a session, from the committed offset onwards, under the generation
  // in which the session began. It holds one message at a time.
  datatype WorkerPhase =
    | Free
    | Ready(partition: nat, generation: nat, offset: nat)
    | Holding(partition: nat, generation: nat, offset: nat, message: Message, calls: nat)
    | DeadLettering(partition: nat, generation: nat, offset: nat, message: Message, error: HandlerError)
    | Done(partition: nat, generation: nat, offset: nat, message: Message)

  // `committed` is the group's committed offset per partition, `owner` the worker a partition is
  // assigned to, `generation` how often it has been assigned.
  datatype Pipe = Pipe(
    db: Database,
    topic: seq<Message>,
    committed: map<nat, nat>,
    owner: map<nat, nat>,
    generation: map<nat, nat>,
    notifications: Notifications,
    dlq: seq<Message>,
    relays: map<nat, RelayPhase>,
    workers: map<nat, WorkerPhase>)

  datatype Step =
    | CommitWrite(write: Write)
    | Foreign(message: Message)
    | List(relay: nat, limit: int, batching: bool)
    | PublishBatch(relay: nat, written: WriteFault)
    | MarkBatch(relay: nat, taken: set<string>)
    | NoteBatch(relay: nat, fault: Fault)
    | PublishItem(relay: nat, written: WriteFault)
    | MarkItem(relay: nat, fault: Fault)
    | NoteItem(relay: nat, fault: Fault)
    | CrashRelay(relay: nat)
    | Assign(partition: nat, worker: nat)
    | Fetch(worker: nat, partition: nat)
    | FetchNext(worker: nat)
    | TryHandle(worker: nat, attempt: Attempt)
    | DeadLetter(worker: nat, generated: string, written: WriteFault)
    | CommitOffset(worker: nat, fault: Fault)
    | CrashWorker(worker: nat)

  const MAX_ATTEMPTS := 3
  const DLQ_TOPIC := RECORD_EVENTS_TOPIC + ".dlq"

  function Start(): Pipe {
    Pipe(Empty(), [], map[], map[], map[], map[], [], map[], map[])
  }

  function RelayAt(s: Pipe, r: nat): RelayPhase {
    if r in s.relays then s.relays[r] else Resting
  }

  function WorkerAt(s: Pipe, w: nat): WorkerPhase {
    if w in s.workers then s.workers[w] else Free
  }

  // Where a reader of the partition resumes: the committed offset, or the first message.
  function Position(s: Pipe, p: nat): nat {
    if p in s.committed then s.committed[p] else 0
  }

  function Generation(s: Pipe, p: nat): nat {
    if p in s.generation then s.generation[p] else 0
  }

  function WithRelay(s: Pipe, r: nat, phase: RelayPhase): Pipe {
    s.(relays := s.relays[r := phase])
  }

  function WithWorker(s: Pipe, w: nat, phase: WorkerPhase): Pipe {
    s.(workers := s.workers[w := phase])
  }

  function WithOutbox(s: Pipe, rows: seq<OutboxEvent>): Pipe {
    s.(db := s.db.(outbox := rows))
  }

  function WithMessages(s: Pipe, messages: seq<Message>): Pipe {
    s.(topic := s.topic + messages)
  }

  // The next item of a sequential batch, or the end of the round.
  function AfterItem(items: seq<OutboxEvent>, next: nat): RelayPhase {
    if next + 1 < |items| then Sequential(items, next + 1) else Resting
  }

  // A write of the API: it brings identifiers no event has, and never touches the bookkeeping.
  ghost predicate ApiWrite(db: Database, w: Write) {
    && Allowed(PairSlot, db, w)
    && !w.Bookkeep?
    && ((w.AddRecord? || w.Revise?) ==> forall i :: 0 <= i < |db.outbox| ==> db.outbox[i].id != w.outboxId)
  }

  function LetterFor(m: Message, error: HandlerError, generated: string): Message {
    match m.body
    case Raw(text) => MessageOf(Completed(Malformed(m, text, DLQ_TOPIC), generated))
    case Json(e) => MessageOf(Completed(Exhausted(e, error, MAX_ATTEMPTS, DLQ_TOPIC), generated))
  }

  // A message that does not decode goes straight to the dead-letter topic.
  function Fetched(p: nat, g: nat, o: nat, m: Message): WorkerPhase {
    if m.body.Json? then Holding(p, g, o, m, 0) else DeadLettering(p, g, o, m, HandlerFailed)
  }

  // After one attempt: done, another attempt, or the dead-letter topic.
  function AfterAttempt(phase: WorkerPhase, a: Attempt): WorkerPhase
    requires phase.Holding?
  {
    var Holding(p, g, o, m, calls) := phase;
    if a.fault.Works? then Done(p, g, o, m)
    else if calls + 1 >= MAX_ATTEMPTS then DeadLettering(p, g, o, m, HandlerFailed)
    else if a.cancelled then DeadLettering(p, g, o, m, Cancelled)
    else Holding(p, g, o, m, calls + 1)
  }

  ghost predicate Enabled(layout: Layout, s: Pipe, step: Step)
    requires layout.partitions > 0
  {
    match step
    case CommitWrite(w) => ApiWrite(s.db, w)
    case Foreign(m) => m.body.Raw?
    case List(r, _, _) => RelayAt(s, r).Resting?
    case PublishBatch(r, _) => RelayAt(s, r).Listed? && RelayAt(s, r).batching
    case MarkBatch(r, taken) => RelayAt(s, r).BatchSent? && taken <= IdsOf(RelayAt(s, r).items)
    case NoteBatch(r, _) => RelayAt(s, r).NotingBatch? && NextInRange(RelayAt(s, r))
    case PublishItem(r, _) =>
      || (RelayAt(s, r).Listed? && !RelayAt(s, r).batching && RelayAt(s, r).items != [])
      || (RelayAt(s, r).Sequential? && NextInRange(RelayAt(s, r)))
    case MarkItem(r, _) => RelayAt(s, r).ItemSent? && NextInRange(RelayAt(s, r))
    case NoteItem(r, _) => RelayAt(s, r).NotingItem? && NextInRange(RelayAt(s, r))
    case CrashRelay(r) => true
    case Assign(p, w) => p < layout.partitions
    case Fetch(w, p) =>
      && WorkerAt(s, w).Free? && p < layout.partitions && p in s.owner && s.owner[p] == w
      && Position(s, p) < |PartitionLog(layout, s.topic, p)|
    case FetchNext(w) =>
      WorkerAt(s, w).Ready? && WorkerAt(s, w).offset < |PartitionLog(layout, s.topic, WorkerAt(s, w).partition)|
    case TryHandle(w, _) => WorkerAt(s, w).Holding?
    case DeadLetter(w, _, _) => WorkerAt(s, w).DeadLettering?
    case CommitOffset(w, _) => WorkerAt(s, w).Done?
    case CrashWorker(w) => true
  }

  ghost function Do(layout: Layout, s: Pipe, step: Step): Pipe
    requires layout.partitions > 0 && Enabled(layout, s, step)
  {
    match step
    case CommitWrite(w) => s.(db := Apply(PairSlot, s.db, w))
    case Foreign(m) => WithMessages(s, [m])
    case List(r, limit, batching) =>
      var items := ListPending(s.db.outbox, limit);
      WithRelay(s, r, if items == [] then Resting else Listed(items, batching))
    case PublishBatch(r, fault) =>
      var items := RelayAt(s, r).items;
      WithRelay(WithMessages(s, Written(Messages(items), fault)), r,
                if fault.Accepts? then BatchSent(items) else if items == [] then Resting else NotingBatch(items, 0))
    case MarkBatch(r, taken) => WithRelay(WithOutbox(s, StampIds(s.db.outbox, taken)), r, Resting)
    case NoteBatch(r, fault) =>
      var NotingBatch(items, next) := RelayAt(s, r);
      WithRelay(WithOutbox(s, Noted(s.db.outbox, items[next].id, REFUSED, fault)), r,
                if next + 1 < |items| then NotingBatch(items, next + 1) else Resting)
    case PublishItem(r, fault) =>
      var items := RelayAt(s, r).items;
      var next := if RelayAt(s, r).Sequential? then RelayAt(s, r).next else 0;
      WithRelay(WithMessages(s, Written([MessageOf(items[next])], fault)), r,
                if fault.Accepts? then ItemSent(items, next) else NotingItem(items, next))
    case MarkItem(r, fault) =>
      var ItemSent(items, next) := RelayAt(s, r);
      WithRelay(WithOutbox(s, Marked(s.db.outbox, {items[next].id}, fault)), r, AfterItem(items, next))
    case NoteItem(r, fault) =>
      var NotingItem(items, next) := RelayAt(s, r);
      WithRelay(WithOutbox(s, Noted(s.db.outbox, items[next].id, REFUSED, fault)), r, AfterItem(items, next))
    case CrashRelay(r) => WithRelay(s, r, Resting)
    case Assign(p, w) => s.(owner := s.owner[p := w], generation := s.generation[p := Generation(s, p) + 1])
    case Fetch(w, p) =>
      var o := Position(s, p);
      WithWorker(s, w, Fetched(p, Generation(s, p), o, PartitionLog(layout, s.topic, p)[o]))
    case FetchNext(w) =>
      var Ready(p, g, o) := WorkerAt(s, w);
      WithWorker(s, w, Fetched(p, g, o, PartitionLog(layout, s.topic, p)[o]))
    case TryHandle(w, a) =>
      var phase := WorkerAt(s, w);
      WithWorker(
        if phase.message.body.Json? && !a.fault.FailsClean?
        then s.(notifications := InsertOnce(s.notifications, NotificationOf(phase.message.body.event, a.now))) else s,
        w, AfterAttempt(phase, a))
    case DeadLetter(w, generated, fault) =>
      var phase := WorkerAt(s, w);
      WithWorker(s.(dlq := s.dlq + Written([LetterFor(phase.message, phase.error, generated)], fault)), w,
                 if fault.Accepts? then Done(phase.partition, phase.generation, phase.offset, phase.message) else Free)
    case CommitOffset(w, fault) =>
      var Done(p, g, o, _) := WorkerAt(s, w);
      WithWorker(
        if fault.FailsClean? then s else s.(committed := s.committed[p := o + 1]),
        w, if fault.Works? then Ready(p, g, o + 1) else Free)
    case CrashWorker(w) => WithWorker(s, w, Free)
  }

  predicate NextInRange(phase: RelayPhase) {
    match phase
    case NotingBatch(items, next) => next < |items|
    case Sequential(items, next) => next < |items|
    case ItemSent(items, next) => next < |items|
    case NotingItem(items, next) => next < |items|
    case _ => true
  }

  // ----- Invariant -----

  // The event is a row of the outbox, bookkeeping aside.
  ghost predicate HasRow(outbox: seq<OutboxEvent>, e: OutboxEvent) {
    exists i :: 0 <= i < |outbox| && Content(outbox[i]) == Content(e)
  }

  ghost predicate AllHaveRows(outbox: seq<OutboxEvent>, items: seq<OutboxEvent>) {
    forall k :: 0 <= k < |items| ==> HasRow(outbox, items[k])
  }

  ghost predicate AllSent(log: seq<Message>, items: seq<OutboxEvent>) {
    forall k :: 0 <= k < |items| ==> Sent(log, items[k])
  }

  ghost predicate Base(db: Database) {
    Invariant(PairSlot, db) && DistinctIds(db.outbox)
  }

  ghost predicate PublishedAreSent(outbox: seq<OutboxEvent>, topic: seq<Message>) {
    forall i :: 0 <= i < |outbox| && outbox[i].published ==> Sent(topic, outbox[i])
  }

  ghost predicate TopicGenuine(outbox: seq<OutboxEvent>, topic: seq<Message>) {
    forall m :: m in topic && m.body.Json? ==> HasRow(outbox, m.body.event) && m == MessageOf(m.body.event)
  }

  ghost predicate ShowsRow(outbox: seq<OutboxEvent>, n: Notification) {
    exists i :: 0 <= i < |outbox| && outbox[i].id == n.id && Timeless(n) == NotificationOf(Content(outbox[i]), 0)
  }

  ghost predicate NotificationsGenuine(outbox: seq<OutboxEvent>, notifications: Notifications) {
    forall id :: id in notifications ==> notifications[id].id == id && ShowsRow(outbox, notifications[id])
  }

  ghost predicate CommittedSettled(layout: Layout, s: Pipe)
    requires layout.partitions > 0
  {
    forall p: nat :: p < layout.partitions ==> PartitionSettled(layout, s, p)
  }

  ghost predicate PartitionSettled(layout: Layout, s: Pipe, p: nat)
    requires layout.partitions > 0
  {
    SettledBelow(layout, s, p, Position(s, p))
  }

  // The first n messages of the partition are settled.
  ghost predicate SettledBelow(layout: Layout, s: Pipe, p: nat, n: nat)
    requires layout.partitions > 0
  {
    var log := PartitionLog(layout, s.topic, p);
    n <= |log| && forall i :: 0 <= i < n ==> Settled(s.notifications, s.dlq, log[i])
  }

  ghost predicate RelayFine(outbox: seq<OutboxEvent>, topic: seq<Message>, phase: RelayPhase) {
    NextInRange(phase) &&
    match phase
    case Resting => true
    case Listed(items, _) => AllHaveRows(outbox, items)
    case BatchSent(items) => AllHaveRows(outbox, items) && AllSent(topic, items)
    case NotingBatch(items, next) => true
    case Sequential(items, next) => AllHaveRows(outbox, items)
    case ItemSent(items, next) => AllHaveRows(outbox, items) && Sent(topic, items[next])
    case NotingItem(items, next) => AllHaveRows(outbox, items)
  }

  // What a worker holds is where it fetched it, and everything before it is settled.
  ghost predicate HoldsAt(layout: Layout, s: Pipe, p: nat, o: nat, m: Message)
    requires layout.partitions > 0
  {
    && p < layout.partitions && SettledBelow(layout, s, p, o)
    && o < |PartitionLog(layout, s.topic, p)| && PartitionLog(layout, s.topic, p)[o] == m
  }

  ghost predicate WorkerFine(layout: Layout, s: Pipe, phase: WorkerPhase)
    requires layout.partitions > 0
  {
    match phase
    case Free => true
    case Ready(p, _, o) => p < layout.partitions && SettledBelow(layout, s, p, o)
    case Holding(p, _, o, m, _) => HoldsAt(layout, s, p, o, m) && m.body.Json?
    case DeadLettering(p, _, o, m, _) => HoldsAt(layout, s, p, o, m)
    case Done(p, _, o, m) => HoldsAt(layout, s, p, o, m) && Settled(s.notifications, s.dlq, m)
  }

  ghost predicate PipeInvariant(layout: Layout, s: Pipe)
    requires layout.partitions > 0
  {
    && Base(s.db)
    && PublishedAreSent(s.db.outbox, s.topic)
    && TopicGenuine(s.db.outbox, s.topic)
    && NotificationsGenuine(s.db.outbox, s.notifications)
    && CommittedSettled(layout, s)
    && (forall r :: r in s.relays ==> RelayFine(s.db.outbox, s.topic, s.relays[r]))
    && (forall w :: w in s.workers ==> WorkerFine(layout, s, s.workers[w]))
  }

  // ----- Fencing -----

  // The group coordinator rejects a commit made under an older generation.
  predicate Fenced(s: Pipe, step: Step) {
    step.CommitOffset? && WorkerAt(s, step.worker).Done?
    && WorkerAt(s, step.worker).generation != Generation(s, WorkerAt(s, step.worker).partition) ==>
      step.fault.FailsClean?
  }

  // A session under the current generation is the owner's, and stands at the committed offset.
  ghost predicate Current(s: Pipe, w: nat, phase: WorkerPhase) {
    !phase.Free? ==>
      && phase.generation <= Generation(s, phase.partition)
      && (phase.generation == Generation(s, phase.partition) ==>
            phase.partition in s.owner && s.owner[phase.partition] == w && phase.offset == Position(s, phase.partition))
  }

  ghost predicate AllCurrent(s: Pipe) {
    forall w :: w in s.workers ==> Current(s, w, s.workers[w])
  }
}
