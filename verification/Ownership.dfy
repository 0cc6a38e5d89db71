// What of the store's state belongs to one tenant, and that nothing else matters to it.

module Ownership {
  import opened Domain
  import opened Ids
  import opened Tables
  import opened MemorySpec
  import opened KeyIndex

  predicate ByTenant(tenant: string, op: Op) {
    match op
    case CreateWorkflow(t, _, _, _) => t == tenant
    case ListWorkflows(t) => t == tenant
    case CreateRecord(t, _, _, _) => t == tenant
    case ListRecords(t, _) => t == tenant
    case GetRecord(t, _) => t == tenant
    case UpdateRecord(t, _, _, _, _) => t == tenant
    case ListAuditEvents(t) => t == tenant
    case _ => false
  }

  function OwnWorkflows(tenant: string, workflows: map<string, Workflow>): map<string, Workflow> {
    map id | id in workflows && workflows[id].tenant == tenant :: workflows[id]
  }

  function OwnRecords(tenant: string, records: map<string, Record>): map<string, Record> {
    map id | id in records && records[id].tenant == tenant :: records[id]
  }

  function OwnIndex(tenant: string, index: map<string, string>, records: map<string, Record>): map<string, string> {
    map slot | slot in index && index[slot] in records && records[index[slot]].tenant == tenant :: index[slot]
  }

  // The state with everything of other tenants, and the relay's log, removed.
  function Own(tenant: string, s: State): State {
    State(Tables(OwnWorkflows(tenant, s.tables.workflows),
                 OwnRecords(tenant, s.tables.records),
                 OwnIndex(tenant, s.tables.index, s.tables.records),
                 AuditTrail(s.tables.audit, tenant), []),
          s.counter)
  }

  function Bare(s: State): State {
    s.(tables := s.tables.(outbox := []))
  }

  lemma {:induction false} AuditTrailTwice(audit: seq<AuditEvent>, tenant: string)
    ensures AuditTrail(AuditTrail(audit, tenant), tenant) == AuditTrail(audit, tenant)
  {
    if audit != [] {
      AuditTrailTwice(Init(audit), tenant);
      if Last(audit).tenant == tenant {
        InitOfSnoc(AuditTrail(Init(audit), tenant), Last(audit));
      } else {
        assert AuditTrail(audit, tenant) == AuditTrail(Init(audit), tenant);
      }
    }
  }

  lemma AuditTrailSnoc(audit: seq<AuditEvent>, e: AuditEvent, tenant: string)
    ensures AuditTrail(audit + [e], tenant) == AuditTrail(audit, tenant) + (if e.tenant == tenant then [e] else [])
  {
    InitOfSnoc(audit, e);
  }

  lemma OwnAddWorkflow(tenant: string, s: State, wf: Workflow)
    requires wf.id !in s.tables.workflows
    ensures Own(tenant, Commit(s, AddWorkflow(wf), 1)) ==
            if wf.tenant == tenant then Commit(Own(tenant, s), AddWorkflow(wf), 1)
            else Own(tenant, s).(counter := s.counter + 1)
  {
  }

  lemma OwnIndexAfterAdd(tenant: string, s: State, r: Record)
    requires r.id !in s.tables.records
    requires forall slot :: slot in s.tables.index ==> s.tables.index[slot] in s.tables.records
    requires r.idempotency != "" ==> Slot(r.tenant, r.idempotency) !in s.tables.index
    ensures var index := if r.idempotency == "" then s.tables.index
                         else s.tables.index[Slot(r.tenant, r.idempotency) := r.id];
            var before := OwnIndex(tenant, s.tables.index, s.tables.records);
            OwnIndex(tenant, index, s.tables.records[r.id := r]) ==
            if r.tenant == tenant && r.idempotency != "" then before[Slot(r.tenant, r.idempotency) := r.id]
            else before
  {
  }

  lemma OwnRecordsAfterWrite(tenant: string, records: map<string, Record>, r: Record)
    requires r.id in records ==> records[r.id].tenant == r.tenant
    ensures OwnRecords(tenant, records[r.id := r]) ==
            if r.tenant == tenant then OwnRecords(tenant, records)[r.id := r] else OwnRecords(tenant, records)
  {
  }

  lemma OwnAddRecord(tenant: string, s: State, r: Record, auditId: string, outboxId: string)
    requires r.id !in s.tables.records
    requires forall slot :: slot in s.tables.index ==> s.tables.index[slot] in s.tables.records
    requires r.idempotency != "" ==> Slot(r.tenant, r.idempotency) !in s.tables.index
    ensures Own(tenant, Commit(s, AddRecord(r, auditId, outboxId), 3)) ==
            if r.tenant == tenant then Bare(Commit(Own(tenant, s), AddRecord(r, auditId, outboxId), 3))
            else Own(tenant, s).(counter := s.counter + 3)
  {
    hide OwnIndex, OwnRecords, OwnWorkflows, AuditTrail, Slot;
    OwnRecordsAfterWrite(tenant, s.tables.records, r);
    AuditTrailSnoc(s.tables.audit, AuditOf(r, Created, auditId), tenant);
    OwnIndexAfterAdd(tenant, s, r);
  }

  lemma OwnRevise(tenant: string, s: State, r: Record, auditId: string, outboxId: string)
    requires r.id in s.tables.records && s.tables.records[r.id].tenant == r.tenant
    ensures Own(tenant, Commit(s, Revise(r, auditId, outboxId), 2)) ==
            if r.tenant == tenant then Bare(Commit(Own(tenant, s), Revise(r, auditId, outboxId), 2))
            else Own(tenant, s).(counter := s.counter + 2)
  {
    hide OwnIndex, OwnRecords, OwnWorkflows, AuditTrail;
    OwnRecordsAfterWrite(tenant, s.tables.records, r);
    OwnIndexAfterRevise(tenant, s, r);
    AuditTrailSnoc(s.tables.audit, AuditOf(r, Updated, auditId), tenant);
  }

  lemma OwnIndexAfterRevise(tenant: string, s: State, r: Record)
    requires r.id in s.tables.records && s.tables.records[r.id].tenant == r.tenant
    ensures OwnIndex(tenant, s.tables.index, s.tables.records[r.id := r])
         == OwnIndex(tenant, s.tables.index, s.tables.records)
  {
  }

  // Looking a key up in one's own part finds what looking it up in the whole finds.
  lemma OwnLookup(tenants: set<string>, tenant: string, s: State, key: string)
    requires Apart(tenant, tenants) && OwnedWithin(tenants, s) && Valid(s) && tenant != ""
    ensures Lookup(Slot, Own(tenant, s).tables, tenant, key) == Lookup(Slot, s.tables, tenant, key)
  {
    hide Sourced, Apart;
    if key != "" && Slot(tenant, key) in s.tables.index {
      EntryIsOwn(tenants, s, tenant, key);
    }
  }

  lemma OwnCreateRecord(tenants: set<string>, tenant: string, s: State, key: string, workflow: string, data: Option<Data>)
    requires Apart(tenant, tenants) && OwnedWithin(tenants, s) && Valid(s)
    ensures var (whole, answer) := MakeRecord(s, tenant, key, workflow, data);
            var (part, echo) := MakeRecord(Own(tenant, s), tenant, key, workflow, data);
            Own(tenant, whole) == Bare(part) && answer == echo
  {
    hide Valid, Apart, Render, Own, Commit, OwnedWithin;
    ValidBasics(s);
    OwnUsable(tenant, s, workflow);
    var id := Render("rec", s.counter + 1);
    NextIdIsFresh(s);
    if Usable(s.tables, tenant, workflow) {
      OwnersAreNamed(tenants, s, workflow);
      OwnLookup(tenants, tenant, s, key);
      var decision := DecideCreate(WorkflowFirst, Slot, s.tables, tenant, key, workflow, data, id);
      if decision.Insert? {
        OwnAddRecord(tenant, s, decision.record, Render("evt", s.counter + 2), Render("out", s.counter + 3));
      } 
    }
    OwnIsBare(tenant, s);
  }

  lemma OwnersAreNamed(tenants: set<string>, s: State, workflow: string)
    requires OwnedWithin(tenants, s) && workflow in s.tables.workflows
    ensures s.tables.workflows[workflow].tenant != ""
  {
  }

  lemma NextIdIsFresh(s: State)
    requires Valid(s)
    ensures Render("rec", s.counter + 1) !in s.tables.records
    ensures Render("wf", s.counter + 1) !in s.tables.workflows
  {
    FreshId("rec", s.counter, s.counter + 1);
    FreshId("wf", s.counter, s.counter + 1);
  }

  lemma OwnIsBare(tenant: string, s: State)
    ensures Bare(Own(tenant, s)) == Own(tenant, s)
    ensures Own(tenant, s).counter == s.counter
  {
  }

  lemma OwnUsable(tenant: string, s: State, workflow: string)
    requires WorkflowsFormed(s.tables.workflows)
    ensures WorkflowsFormed(Own(tenant, s).tables.workflows)
    ensures Usable(Own(tenant, s).tables, tenant, workflow) == Usable(s.tables, tenant, workflow)
    ensures Usable(s.tables, tenant, workflow) ==>
              Own(tenant, s).tables.workflows[workflow] == s.tables.workflows[workflow]
  {
  }

  lemma OwnUpdateRecord(tenant: string, s: State, id: string, expected: int, state: string, data: Option<Data>)
    requires Valid(s)
    ensures var (whole, answer) := ReviseRecord(s, tenant, id, expected, state, data);
            var (part, echo) := ReviseRecord(Own(tenant, s), tenant, id, expected, state, data);
            Own(tenant, whole) == Bare(part) && answer == echo
  {
    hide Sourced, Indexed, Render, Commit, OwnIndex, AuditTrail;
    OwnIsBare(tenant, s);
    var decision := DecideUpdate(s.tables, tenant, id, expected, state, data);
    assert DecideUpdate(Own(tenant, s).tables, tenant, id, expected, state, data) == decision;
    if decision.Ok? {
      OwnRevise(tenant, s, decision.value, Render("evt", s.counter + 1), Render("out", s.counter + 2));
    }
  }

  lemma OwnListedWorkflows(tenant: string, s: State)
    ensures ListedWorkflows(Own(tenant, s), tenant) == ListedWorkflows(s, tenant)
  {
    var own := OwnWorkflows(tenant, s.tables.workflows);
    forall wf ensures wf in ListedWorkflows(Own(tenant, s), tenant) <==> wf in ListedWorkflows(s, tenant) {
      if wf in ListedWorkflows(s, tenant) {
        var id :| id in s.tables.workflows && s.tables.workflows[id].tenant == tenant && s.tables.workflows[id] == wf;
        assert id in own && own[id] == wf;
      }
    }
  }

  lemma OwnListedRecords(tenant: string, s: State, state: string)
    ensures ListedRecords(Own(tenant, s), tenant, state) == ListedRecords(s, tenant, state)
  {
    var own := OwnRecords(tenant, s.tables.records);
    forall r ensures r in ListedRecords(Own(tenant, s), tenant, state) <==> r in ListedRecords(s, tenant, state) {
      if r in ListedRecords(s, tenant, state) {
        var id :| id in s.tables.records && s.tables.records[id].tenant == tenant && s.tables.records[id] == r;
        assert id in own && own[id] == r;
      }
    }
  }

  // A tenant's call does to its own part, and answers, exactly what it would if the rest of the
  // store were empty.
  lemma OwnPartSuffices(tenants: set<string>, tenant: string, s: State, op: Op)
    requires Apart(tenant, tenants) && OwnedWithin(tenants, s) && Valid(s) && ByTenant(tenant, op)
    ensures WorkflowsFormed(Own(tenant, s).tables.workflows)
    ensures Own(tenant, Step(s, op).0) == Bare(Step(Own(tenant, s), op).0)
    ensures Step(Own(tenant, s), op).1 == Step(s, op).1
  {
    hide Valid, Apart, Own, MakeRecord, ReviseRecord, Render, Commit, AuditTrail, ListedRecords, ListedWorkflows;
    ValidBasics(s);
    OwnUsable(tenant, s, "");
    OwnIsBare(tenant, s);
    NextIdIsFresh(s);
    match op
    case CreateWorkflow(_, name, fields, states) =>
      OwnAddWorkflow(tenant, s, Workflow(Render("wf", s.counter + 1), tenant, name, fields, states, 1));
      AddWorkflowToBare(Own(tenant, s), Workflow(Render("wf", s.counter + 1), tenant, name, fields, states, 1));
    case ListWorkflows(_) => OwnListedWorkflows(tenant, s);
    case CreateRecord(_, key, workflow, data) => OwnCreateRecord(tenants, tenant, s, key, workflow, data);
    case ListRecords(_, state) => OwnListedRecords(tenant, s, state);
    case GetRecord(_, id) => OwnRead(tenant, s, id);
    case UpdateRecord(_, id, expected, state, data) => OwnUpdateRecord(tenant, s, id, expected, state, data);
    case ListAuditEvents(_) => OwnAudit(tenant, s);
    case _ =>
  }

  lemma AddWorkflowToBare(s: State, wf: Workflow)
    requires Bare(s) == s
    ensures Bare(Commit(s, AddWorkflow(wf), 1)) == Commit(s, AddWorkflow(wf), 1)
  {
  }

  lemma OwnRead(tenant: string, s: State, id: string)
    ensures ReadRecord(Own(tenant, s), tenant, id) == ReadRecord(s, tenant, id)
  {
  }

  lemma OwnAudit(tenant: string, s: State)
    ensures AuditTrail(Own(tenant, s).tables.audit, tenant) == AuditTrail(s.tables.audit, tenant)
  {
    AuditTrailTwice(s.tables.audit, tenant);
  }

  // Calls of other tenants and of the relay leave a tenant's part alone.
  lemma OthersLeavePartAlone(tenant: string, s: State, op: Op)
    requires Valid(s) && !ByTenant(tenant, op)
    ensures Own(tenant, Step(s, op).0).tables == Own(tenant, s).tables
  {
    hide Valid, Render, Commit, OwnWorkflows, OwnRecords, OwnIndex, AuditTrail;
    ValidBasics(s);
    NextIdIsFresh(s);
    match Step(s, op).1
    case WorkflowMade(Ok(wf)) => OwnAddWorkflow(tenant, s, wf);
    case RecordMade(Ok((r, false))) =>
      OwnAddRecord(tenant, s, r, Render("evt", s.counter + 2), Render("out", s.counter + 3));
    case RecordRead(Ok(r)) =>
      if op.UpdateRecord? {
        OwnRevise(tenant, s, r, Render("evt", s.counter + 1), Render("out", s.counter + 2));
      }
    case _ =>
  }
}
