// What every MemoryStore operation does, as functions on the store's state, and what holds in
// every state the store can reach.

module MemorySpec {
  import opened Domain
  import opened Ids
  import opened Tables
  import opened Outbox

  datatype State = State(tables: Tables<string>, counter: nat)

  // The index key of the memory store.
  function Slot(tenant: string, key: string): string {
    tenant + ":" + key
  }

  function Initial(): State {
    State(Empty(), 0)
  }

  datatype Op =
    | CreateWorkflow(tenant: string, name: string, fields: Data, states: seq<string>)
    | ListWorkflows(tenant: string)
    | CreateRecord(tenant: string, key: string, workflow: string, data: Option<Data>)
    | ListRecords(tenant: string, state: string)
    | GetRecord(tenant: string, id: string)
    | UpdateRecord(tenant: string, id: string, expected: int, state: string, data: Option<Data>)
    | ListAuditEvents(tenant: string)
    | ListPendingOutbox(limit: int)
    | MarkOutboxPublished(id: string)
    | MarkOutboxFailed(id: string, reason: string)

  // Lists built by iterating over a map have no order: they are sets here.
  datatype Response =
    | WorkflowMade(workflow: Result<Workflow>)
    | WorkflowList(workflows: set<Workflow>)
    | RecordMade(created: Result<(Record, bool)>)
    | RecordList(records: set<Record>)
    | RecordRead(record: Result<Record>)
    | AuditList(events: seq<AuditEvent>)
    | PendingList(pending: seq<OutboxEvent>)
    | Marked(found: bool)

  function ListedWorkflows(s: State, tenant: string): set<Workflow> {
    set id | id in s.tables.workflows && s.tables.workflows[id].tenant == tenant :: s.tables.workflows[id]
  }

  function ListedRecords(s: State, tenant: string, state: string): set<Record> {
    set id | id in s.tables.records && s.tables.records[id].tenant == tenant
             && (state == "" || s.tables.records[id].state == state) :: s.tables.records[id]
  }

  function AuditTrail(audit: seq<AuditEvent>, tenant: string): seq<AuditEvent> {
    if audit == [] then []
    else AuditTrail(Init(audit), tenant) + (if Last(audit).tenant == tenant then [Last(audit)] else [])
  }

  function Commit(s: State, w: Write, ids: nat): State {
    State(Apply(Slot, s.tables, w), s.counter + ids)
  }

  function MakeWorkflow(s: State, tenant: string, name: string, fields: Data, states: seq<string>)
    : (State, Result<Workflow>)
  {
    if tenant == "" || states == [] || name == "" then (s, Err(InvalidWorkflow))
    else
      var wf := Workflow(Render("wf", s.counter + 1), tenant, name, fields, states, 1);
      (Commit(s, AddWorkflow(wf), 1), Ok(wf))
  }

  function MakeRecord(s: State, tenant: string, key: string, workflow: string, data: Option<Data>)
    : (State, Result<(Record, bool)>)
    requires WorkflowsFormed(s.tables.workflows)
  {
    match DecideCreate(WorkflowFirst, Slot, s.tables, tenant, key, workflow, data, Render("rec", s.counter + 1))
    case Refuse(error) => (s, Err(error))
    case Replay(r) => (s, Ok((r, true)))
    case Insert(r) =>
      (Commit(s, AddRecord(r, Render("evt", s.counter + 2), Render("out", s.counter + 3)), 3), Ok((r, false)))
  }

  function ReviseRecord(s: State, tenant: string, id: string, expected: int, state: string, data: Option<Data>)
    : (State, Result<Record>)
  {
    match DecideUpdate(s.tables, tenant, id, expected, state, data)
    case Err(error) => (s, Err(error))
    case Ok(r) => (Commit(s, Revise(r, Render("evt", s.counter + 1), Render("out", s.counter + 2)), 2), Ok(r))
  }

  function ReadRecord(s: State, tenant: string, id: string): Result<Record> {
    if id in s.tables.records && s.tables.records[id].tenant == tenant
    then Ok(s.tables.records[id]) else Err(NotFound)
  }

  // Replace the first event with this identifier.
  function Amend(s: State, id: string, amended: OutboxEvent -> OutboxEvent): (State, bool) {
    var i := Find(s.tables.outbox, id);
    if i == |s.tables.outbox| then (s, false)
    else (s.(tables := s.tables.(outbox := s.tables.outbox[i := amended(s.tables.outbox[i])])), true)
  }

  function Step(s: State, op: Op): (State, Response)
    requires WorkflowsFormed(s.tables.workflows)
  {
    match op
    case CreateWorkflow(t, name, fields, states) =>
      var (s', r) := MakeWorkflow(s, t, name, fields, states); (s', WorkflowMade(r))
    case ListWorkflows(t) => (s, WorkflowList(ListedWorkflows(s, t)))
    case CreateRecord(t, key, workflow, data) =>
      var (s', r) := MakeRecord(s, t, key, workflow, data); (s', RecordMade(r))
    case ListRecords(t, state) => (s, RecordList(ListedRecords(s, t, state)))
    case GetRecord(t, id) => (s, RecordRead(ReadRecord(s, t, id)))
    case UpdateRecord(t, id, expected, state, data) =>
      var (s', r) := ReviseRecord(s, t, id, expected, state, data); (s', RecordRead(r))
    case ListAuditEvents(t) => (s, AuditList(AuditTrail(s.tables.audit, t)))
    case ListPendingOutbox(limit) => (s, PendingList(ListPending(s.tables.outbox, limit)))
    case MarkOutboxPublished(id) => var (s', found) := Amend(s, id, Stamp); (s', Marked(found))
    case MarkOutboxFailed(id, reason) => var (s', found) := Amend(s, id, e => Retry(e, reason)); (s', Marked(found))
  }

  // ----- Reachable states -----

  function IssuedUpTo(prefix: string, counter: nat): set<string> {
    set n | 1 <= n <= counter :: Render(prefix, n)
  }

  ghost predicate Valid(s: State) {
    && Invariant(Slot, s.tables)
    && s.tables.workflows.Keys <= IssuedUpTo("wf", s.counter)
    && s.tables.records.Keys <= IssuedUpTo("rec", s.counter)
  }

  // The parts of validity that single calls rely on.
  lemma ValidBasics(s: State)
    requires Valid(s)
    ensures forall id :: id in s.tables.workflows ==>
              s.tables.workflows[id].id == id && s.tables.workflows[id].states != []
    ensures forall id :: id in s.tables.records ==> s.tables.records[id].id == id
    ensures forall slot :: slot in s.tables.index ==> s.tables.index[slot] in s.tables.records
  {
  }

  lemma FreshId(prefix: string, counter: nat, n: nat)
    requires '_' !in prefix && n > counter
    ensures Render(prefix, n) !in IssuedUpTo(prefix, counter)
  {
    if Render(prefix, n) in IssuedUpTo(prefix, counter) {
      var m :| 1 <= m <= counter && Render(prefix, m) == Render(prefix, n);
      RenderInjective(prefix, m, prefix, n);
    }
  }

  lemma IssuedGrows(prefix: string, counter: nat, n: nat)
    requires n >= counter
    ensures IssuedUpTo(prefix, counter) <= IssuedUpTo(prefix, n)
    ensures n > 0 ==> Render(prefix, n) in IssuedUpTo(prefix, n)
  {
  }

  lemma LegalWriteKeepsValid(s: State, w: Write, ids: nat)
    requires Valid(s) && Allowed(Slot, s.tables, w)
    requires w.AddWorkflow? ==> ids > 0 && w.workflow.id == Render("wf", s.counter + 1)
    requires w.AddRecord? ==> ids > 0 && w.record.id == Render("rec", s.counter + 1)
    ensures Valid(Commit(s, w, ids))
  {
    WriteKeepsInvariant(Slot, s.tables, w);
    IssuedGrows("wf", s.counter, s.counter + ids);
    IssuedGrows("rec", s.counter, s.counter + ids);
    if ids > 0 {
      IssuedGrows("wf", s.counter + 1, s.counter + ids);
      IssuedGrows("rec", s.counter + 1, s.counter + ids);
      IssuedGrows("wf", s.counter + 1, s.counter + 1);
      IssuedGrows("rec", s.counter + 1, s.counter + 1);
    }
  }

  lemma MakeWorkflowKeepsValid(s: State, tenant: string, name: string, fields: Data, states: seq<string>)
    requires Valid(s)
    ensures Valid(MakeWorkflow(s, tenant, name, fields, states).0)
  {
    var made := MakeWorkflow(s, tenant, name, fields, states).1;
    if made.Ok? {
      FreshId("wf", s.counter, s.counter + 1);
      LegalWriteKeepsValid(s, AddWorkflow(made.value), 1);
    }
  }

  lemma MakeRecordKeepsValid(s: State, tenant: string, key: string, workflow: string, data: Option<Data>)
    requires Valid(s)
    ensures Valid(MakeRecord(s, tenant, key, workflow, data).0)
  {
    hide Sourced, Indexed;
    var id, auditId, outboxId :=
      Render("rec", s.counter + 1), Render("evt", s.counter + 2), Render("out", s.counter + 3);
    var decision := DecideCreate(WorkflowFirst, Slot, s.tables, tenant, key, workflow, data, id);
    if decision.Insert? {
      FreshId("rec", s.counter, s.counter + 1);
      InsertIsAllowed(WorkflowFirst, Slot, s.tables, tenant, key, workflow, data, id, auditId, outboxId);
      LegalWriteKeepsValid(s, AddRecord(decision.record, auditId, outboxId), 3);
    }
  }

  lemma ReviseRecordKeepsValid(
    s: State, tenant: string, id: string, expected: int, state: string, data: Option<Data>)
    requires Valid(s)
    ensures Valid(ReviseRecord(s, tenant, id, expected, state, data).0)
  {
    var decision := DecideUpdate(s.tables, tenant, id, expected, state, data);
    if decision.Ok? {
      var auditId, outboxId := Render("evt", s.counter + 1), Render("out", s.counter + 2);
      UpdateIsAllowed(Slot, s.tables, tenant, id, expected, state, data, auditId, outboxId);
      LegalWriteKeepsValid(s, Revise(decision.value, auditId, outboxId), 2);
    }
  }

  lemma AmendKeepsValid(s: State, id: string, amended: OutboxEvent -> OutboxEvent)
    requires Valid(s)
    requires forall e :: Content(amended(e)) == Content(e)
    ensures Valid(Amend(s, id, amended).0)
  {
    var s' := Amend(s, id, amended).0;
    assert SameContent(s.tables.outbox, s'.tables.outbox);
    LegalWriteKeepsValid(s, Bookkeep(s'.tables.outbox), 0);
  }

  lemma StepKeepsValid(s: State, op: Op)
    requires Valid(s)
    ensures Valid(Step(s, op).0)
  {
    match op
    case CreateWorkflow(t, name, fields, states) => MakeWorkflowKeepsValid(s, t, name, fields, states);
    case CreateRecord(t, key, workflow, data) => MakeRecordKeepsValid(s, t, key, workflow, data);
    case UpdateRecord(t, id, expected, state, data) => ReviseRecordKeepsValid(s, t, id, expected, state, data);
    case MarkOutboxPublished(id) => AmendKeepsValid(s, id, Stamp);
    case MarkOutboxFailed(id, reason) => AmendKeepsValid(s, id, e => Retry(e, reason));
    case _ =>
  }

  lemma StepKeepsWorkflowsFormed(s: State, op: Op)
    requires WorkflowsFormed(s.tables.workflows)
    ensures WorkflowsFormed(Step(s, op).0.tables.workflows)
  {
  }

  // The state after a sequence of calls on a new store.
  ghost function Run(ops: seq<Op>): (s: State)
    ensures WorkflowsFormed(s.tables.workflows)
  {
    if ops == [] then Initial()
    else
      var s := Run(Init(ops));
      StepKeepsWorkflowsFormed(s, Last(ops));
      Step(s, Last(ops)).0
  }

  lemma RunSnoc(ops: seq<Op>, op: Op)
    ensures Run(ops + [op]) == Step(Run(ops), op).0
  {
    InitOfSnoc(ops, op);
  }

  // In every reachable state the tables are well formed, the strict fold of the outbox rebuilds
  // exactly the record table, the audit log matches the outbox entry by entry, and the index is
  // exact.
  lemma {:induction false} ReachableIsValid(ops: seq<Op>)
    ensures Valid(Run(ops))
  {
    if ops == [] {
      EmptyInvariant(Slot);
    } else {
      ReachableIsValid(Init(ops));
      StepKeepsValid(Run(Init(ops)), Last(ops));
    }
  }

  // The answer to call number k of a run.
  ghost function Answer(ops: seq<Op>, k: nat): Response
    requires k < |ops|
  {
    Step(Run(ops[..k]), ops[k]).1
  }
}
