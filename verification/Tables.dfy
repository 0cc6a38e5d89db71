// The committed state both stores share: workflows, records, the idempotency index and the
// two logs. A record mutation writes the record, one audit event and one outbox event
// together; this module says which writes are legal, what each operation decides, and what
// every sequence of legal writes keeps.
//
// The index is keyed by slots. A slot is computed from a tenant and an idempotency key by the
// function `slotOf`: the memory store concatenates strings, MongoDB indexes the pair.

module Tables {
  import opened Domain

  datatype Tables<!K> = Tables(
    workflows: map<string, Workflow>,
    records: map<string, Record>,
    index: map<K, string>,
    audit: seq<AuditEvent>,
    outbox: seq<OutboxEvent>)

  datatype Write =
    | AddWorkflow(workflow: Workflow)
    | AddRecord(record: Record, auditId: string, outboxId: string)
    | Revise(record: Record, auditId: string, outboxId: string)
    | Bookkeep(outbox: seq<OutboxEvent>)

  type SlotOf<!K> = (string, string) -> K

  function Empty<K>(): Tables<K> {
    Tables(map[], map[], map[], [], [])
  }

  function AuditOf(r: Record, kind: Kind, id: string): AuditEvent {
    AuditEvent(id, r.tenant, r.id, kind, r.state, r.version)
  }

  function OutboxOf(r: Record, kind: Kind, id: string): OutboxEvent {
    OutboxEvent(id, r.tenant, r.id, RECORD_EVENTS_TOPIC, r.id, kind,
                Change(r.id, r.workflow, r.state, r.version), false, 0, "")
  }

  function Apply<K(==)>(slotOf: SlotOf<K>, s: Tables<K>, w: Write): Tables<K> {
    match w
    case AddWorkflow(wf) => s.(workflows := s.workflows[wf.id := wf])
    case AddRecord(r, auditId, outboxId) =>
      s.(records := s.records[r.id := r],
         index := if r.idempotency == "" then s.index else s.index[slotOf(r.tenant, r.idempotency) := r.id],
         audit := s.audit + [AuditOf(r, Created, auditId)],
         outbox := s.outbox + [OutboxOf(r, Created, outboxId)])
    case Revise(r, auditId, outboxId) =>
      s.(records := s.records[r.id := r],
         audit := s.audit + [AuditOf(r, Updated, auditId)],
         outbox := s.outbox + [OutboxOf(r, Updated, outboxId)])
    case Bookkeep(outbox) => s.(outbox := outbox)
  }

  // What the relay may change in an event, erased.
  function Content(e: OutboxEvent): OutboxEvent {
    e.(published := false, attempts := 0, lastError := "")
  }

  ghost predicate SameContent(a: seq<OutboxEvent>, b: seq<OutboxEvent>) {
    |a| == |b| && forall i :: 0 <= i < |a| ==> Content(a[i]) == Content(b[i])
  }

  predicate Usable<K>(s: Tables<K>, tenant: string, workflow: string) {
    workflow in s.workflows && s.workflows[workflow].tenant == tenant
  }

  ghost predicate Allowed<K>(slotOf: SlotOf<K>, s: Tables<K>, w: Write) {
    match w
    case AddWorkflow(wf) => wf.id !in s.workflows && wf.states != []
    case AddRecord(r, _, _) =>
      && r.id !in s.records
      && Usable(s, r.tenant, r.workflow)
      && r.version == 1
      && r.state in s.workflows[r.workflow].states
      && (r.idempotency != "" ==> slotOf(r.tenant, r.idempotency) !in s.index)
    case Revise(r, _, _) =>
      && r.id in s.records
      && Usable(s, r.tenant, r.workflow)
      && r.state in s.workflows[r.workflow].states
      && var current := s.records[r.id];
         r.tenant == current.tenant && r.workflow == current.workflow
         && r.idempotency == current.idempotency && r.version == current.version + 1
    case Bookkeep(outbox) => SameContent(s.outbox, outbox)
  }

  // ----- Decisions: what an operation answers in a given state -----

  datatype CheckOrder = WorkflowFirst | ReplayFirst

  datatype Decision = Refuse(error: StoreError) | Replay(record: Record) | Insert(record: Record)

  const NO_RECORD := Record("", "", "", "", None, 0, "")

  function Lookup<K>(slotOf: SlotOf<K>, s: Tables<K>, tenant: string, key: string): Option<Record> {
    if key != "" && slotOf(tenant, key) in s.index then
      var id := s.index[slotOf(tenant, key)];
      Some(if id in s.records then s.records[id] else NO_RECORD)
    else None
  }

  function NewRecord(wf: Workflow, tenant: string, key: string, data: Option<Data>, id: string): Record
    requires wf.states != []
  {
    Record(id, tenant, wf.id, wf.states[0], data, 1, key)
  }

  ghost predicate WorkflowsFormed(workflows: map<string, Workflow>) {
    forall id :: id in workflows ==> workflows[id].id == id && workflows[id].states != []
  }

  // `id` is the identifier the new record gets if there is one.
  function DecideCreate<K>(order: CheckOrder, slotOf: SlotOf<K>, s: Tables<K>, tenant: string, key: string,
                           workflow: string, data: Option<Data>, id: string): Decision
    requires WorkflowsFormed(s.workflows)
  {
    var seen := Lookup(slotOf, s, tenant, key);
    if order.ReplayFirst? && seen.Some? then Replay(seen.value)
    else if !Usable(s, tenant, workflow) then Refuse(InvalidWorkflow)
    else if seen.Some? then Replay(seen.value)
    else Insert(NewRecord(s.workflows[workflow], tenant, key, data, id))
  }

  function StatesOf<K>(s: Tables<K>, workflow: string): seq<string> {
    if workflow in s.workflows then s.workflows[workflow].states else []
  }

  // The revised record, or why the update is refused.
  function DecideUpdate<K>(s: Tables<K>, tenant: string, id: string, expected: int,
                           state: string, data: Option<Data>): Result<Record> {
    if id !in s.records || s.records[id].tenant != tenant then Err(NotFound)
    else
      var r := s.records[id];
      if r.version != expected then Err(Conflict)
      else if state != "" && state !in StatesOf(s, r.workflow) then Err(InvalidWorkflow)
      else Ok(r.(state := if state != "" then state else r.state,
                 data := if data.Some? then data else r.data,
                 version := r.version + 1))
  }

  // The two stores order the checks differently. They answer alike exactly when the workflow is
  // valid for the tenant or the key is new: an invalid workflow hides a replay from the memory
  // store but not from MongoDB.
  lemma OrdersAgreeIff<K>(slotOf: SlotOf<K>, s: Tables<K>, tenant: string, key: string,
                          workflow: string, data: Option<Data>, id: string)
    requires WorkflowsFormed(s.workflows)
    ensures DecideCreate(WorkflowFirst, slotOf, s, tenant, key, workflow, data, id)
         == DecideCreate(ReplayFirst, slotOf, s, tenant, key, workflow, data, id)
       <==> Usable(s, tenant, workflow) || key == "" || slotOf(tenant, key) !in s.index
  {
  }

  // ----- The outbox as the source of the record table -----

  datatype View = View(tenant: string, workflow: string, state: string, version: int)

  // A strict consumer of record events: it rejects a second creation, an update of something
  // unknown, a version gap, and an event that moves a record to another tenant or workflow.
  function Absorb(table: map<string, View>, e: OutboxEvent): Option<map<string, View>> {
    if !e.payload.Change? || e.payload.recordId != e.aggregate then None
    else
      var Change(id, workflow, state, version) := e.payload;
      match e.kind
      case Created =>
        if id !in table && version == 1
        then Some(table[id := View(e.tenant, workflow, state, 1)]) else None
      case Updated =>
        if id in table && table[id] == View(e.tenant, workflow, table[id].state, version - 1)
        then Some(table[id := View(e.tenant, workflow, state, version)]) else None
      case _ => None
  }

  function Rebuild(log: seq<OutboxEvent>): Option<map<string, View>> {
    if log == [] then Some(map[])
    else
      var before := Rebuild(Init(log));
      if before.Some? then Absorb(before.value, Last(log)) else None
  }

  function ViewOf(r: Record): View {
    View(r.tenant, r.workflow, r.state, r.version)
  }

  function Views(records: map<string, Record>): map<string, View> {
    map id | id in records :: ViewOf(records[id])
  }

  ghost predicate Twins(a: AuditEvent, e: OutboxEvent) {
    && e.payload.Change?
    && a.record == e.aggregate == e.payload.recordId == e.key
    && e.topic == "workflow.record-events"
    && a.tenant == e.tenant
    && a.kind == e.kind
    && a.state == e.payload.state
    && a.version == e.payload.version
  }

  ghost predicate AuditMatchesOutbox(audit: seq<AuditEvent>, outbox: seq<OutboxEvent>) {
    |audit| == |outbox| && forall i :: 0 <= i < |audit| ==> Twins(audit[i], outbox[i])
  }

  // The events of one record, in log order.
  function History(log: seq<OutboxEvent>, id: string): seq<OutboxEvent> {
    if log == [] then []
    else History(Init(log), id) + (if Last(log).aggregate == id then [Last(log)] else [])
  }

  ghost predicate GapFree(history: seq<OutboxEvent>) {
    forall i :: 0 <= i < |history| ==>
      && history[i].payload.Change?
      && history[i].payload.version == i + 1
      && history[i].kind == if i == 0 then Created else Updated
  }

  // ----- Invariants -----

  ghost predicate WellFormed<K>(s: Tables<K>) {
    && WorkflowsFormed(s.workflows)
    && forall id :: id in s.records ==>
         var r := s.records[id];
         r.id == id && r.version >= 1 && Usable(s, r.tenant, r.workflow)
         && r.state in s.workflows[r.workflow].states
  }

  ghost predicate Sourced<K>(s: Tables<K>) {
    && Rebuild(s.outbox) == Some(Views(s.records))
    && AuditMatchesOutbox(s.audit, s.outbox)
  }

  // Each keyed record is indexed under its own slot, and each entry leads to a live record
  // that was filed under that slot.
  ghost predicate Indexed<K>(slotOf: SlotOf<K>, s: Tables<K>) {
    && (forall id :: id in s.records && s.records[id].idempotency != "" ==>
          var r := s.records[id];
          slotOf(r.tenant, r.idempotency) in s.index && s.index[slotOf(r.tenant, r.idempotency)] == id)
    && (forall slot :: slot in s.index ==>
          && s.index[slot] in s.records
          && var r := s.records[s.index[slot]];
             r.idempotency != "" && slotOf(r.tenant, r.idempotency) == slot)
  }

  ghost predicate Invariant<K>(slotOf: SlotOf<K>, s: Tables<K>) {
    WellFormed(s) && Sourced(s) && Indexed(slotOf, s)
  }

  lemma EmptyInvariant<K>(slotOf: SlotOf<K>)
    ensures Invariant(slotOf, Empty())
  {
    assert Views(map[]) == map[];
  }

  // Publication bookkeeping is invisible to the fold.
  lemma {:induction false} RebuildIgnoresBookkeeping(a: seq<OutboxEvent>, b: seq<OutboxEvent>)
    requires SameContent(a, b)
    ensures Rebuild(a) == Rebuild(b)
  {
    if a != [] {
      RebuildIgnoresBookkeeping(Init(a), Init(b));
      assert Content(Last(a)) == Content(Last(b));
    }
  }

  lemma BookkeepKeepsSourced<K>(s: Tables<K>, outbox: seq<OutboxEvent>)
    requires Sourced(s) && SameContent(s.outbox, outbox)
    ensures Sourced(s.(outbox := outbox))
  {
    RebuildIgnoresBookkeeping(s.outbox, outbox);
    forall i | 0 <= i < |outbox| ensures Twins(s.audit[i], outbox[i]) {
      assert Twins(s.audit[i], s.outbox[i]);
      assert Content(s.outbox[i]) == Content(outbox[i]);
    }
  }

  // Appending the event of a written record extends the fold by exactly that record.
  lemma AppendKeepsSourced<K>(s: Tables<K>, r: Record, kind: Kind, auditId: string, outboxId: string)
    requires Sourced(s)
    requires kind == Created || kind == Updated
    requires kind == Created ==> r.id !in s.records && r.version == 1
    requires kind == Updated ==>
               (r.id in s.records &&
                ViewOf(s.records[r.id]) == View(r.tenant, r.workflow, s.records[r.id].state, r.version - 1))
    ensures Sourced(s.(records := s.records[r.id := r],
                       audit := s.audit + [AuditOf(r, kind, auditId)],
                       outbox := s.outbox + [OutboxOf(r, kind, outboxId)]))
  {
    InitOfSnoc(s.outbox, OutboxOf(r, kind, outboxId));
    assert Views(s.records[r.id := r]) == Views(s.records)[r.id := ViewOf(r)];
  }

  lemma WriteKeepsWellFormed<K>(slotOf: SlotOf<K>, s: Tables<K>, w: Write)
    requires WellFormed(s) && Allowed(slotOf, s, w)
    ensures WellFormed(Apply(slotOf, s, w))
  {
  }

  lemma WriteKeepsIndexed<K>(slotOf: SlotOf<K>, s: Tables<K>, w: Write)
    requires Indexed(slotOf, s) && Allowed(slotOf, s, w)
    ensures Indexed(slotOf, Apply(slotOf, s, w))
  {
  }

  // Every legal write keeps the tables well formed, the outbox an exact source of the record
  // table with a matching audit log, and the index exact.
  lemma WriteKeepsInvariant<K>(slotOf: SlotOf<K>, s: Tables<K>, w: Write)
    requires Invariant(slotOf, s) && Allowed(slotOf, s, w)
    ensures Invariant(slotOf, Apply(slotOf, s, w))
  {
    WriteKeepsWellFormed(slotOf, s, w);
    WriteKeepsIndexed(slotOf, s, w);
    match w
    case AddWorkflow(_) =>
    case AddRecord(r, auditId, outboxId) => AppendKeepsSourced(s, r, Created, auditId, outboxId);
    case Revise(r, auditId, outboxId) => AppendKeepsSourced(s, r, Updated, auditId, outboxId);
    case Bookkeep(outbox) => BookkeepKeepsSourced(s, outbox);
  }

  // A log the strict fold accepts tells, for each record, one creation at version 1 and then
  // updates at 2, 3, ... up to the rebuilt version; the last event carries the rebuilt state.
  lemma {:induction false} AcceptedHistory(log: seq<OutboxEvent>, id: string)
    requires Rebuild(log).Some?
    ensures var table := Rebuild(log).value;
            var history := History(log, id);
            && GapFree(history)
            && |history| == (if id in table then table[id].version else 0)
            && (id in table ==> history != [] && Last(history).payload.state == table[id].state)
  {
    if log != [] {
      AcceptedHistory(Init(log), id);
    }
  }

  // The versions a record has been through are exactly the events the outbox holds for it.
  lemma HistoryOfRecord<K>(s: Tables<K>, id: string)
    requires Sourced(s)
    ensures var history := History(s.outbox, id);
            && GapFree(history)
            && |history| == (if id in s.records then s.records[id].version else 0)
            && (id in s.records ==> history != [] && Last(history).payload.state == s.records[id].state)
  {
    AcceptedHistory(s.outbox, id);
  }

  // At most one record per tenant and key, even where distinct pairs may share a slot: two
  // records with the same tenant and key have one slot, hence one identifier.
  lemma OneRecordPerKey<K>(slotOf: SlotOf<K>, s: Tables<K>, a: string, b: string)
    requires Indexed(slotOf, s) && a in s.records && b in s.records
    requires s.records[a].idempotency != ""
    requires s.records[a].tenant == s.records[b].tenant
    requires s.records[a].idempotency == s.records[b].idempotency
    ensures a == b
  {
    var r := s.records[a];
    assert s.index[slotOf(r.tenant, r.idempotency)] == a;
  }

  // An accepted decision is a legal write.
  lemma InsertIsAllowed<K>(order: CheckOrder, slotOf: SlotOf<K>, s: Tables<K>, tenant: string, key: string,
                           workflow: string, data: Option<Data>, id: string, auditId: string, outboxId: string)
    requires WellFormed(s) && id !in s.records
    requires DecideCreate(order, slotOf, s, tenant, key, workflow, data, id).Insert?
    ensures Allowed(slotOf, s,
              AddRecord(DecideCreate(order, slotOf, s, tenant, key, workflow, data, id).record, auditId, outboxId))
  {
  }

  lemma UpdateIsAllowed<K>(slotOf: SlotOf<K>, s: Tables<K>, tenant: string, id: string, expected: int,
                           state: string, data: Option<Data>, auditId: string, outboxId: string)
    requires WellFormed(s) && DecideUpdate(s, tenant, id, expected, state, data).Ok?
    ensures Allowed(slotOf, s, Revise(DecideUpdate(s, tenant, id, expected, state, data).value, auditId, outboxId))
  {
  }
}
