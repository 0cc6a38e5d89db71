// A tenant sees the same answers whether or not other tenants use the store, up to a one-to-one
// renaming of generated identifiers, applied to its inputs as well.

module TenantIsolation {
  import opened Domain
  import opened Ids
  import opened Tables
  import opened MemorySpec
  import opened KeyIndex
  import opened Ledger
  import opened Ownership

  type Renaming = string -> string

  ghost predicate Injective(pi: Renaming) {
    forall a, b :: pi(a) == pi(b) ==> a == b
  }

  // ----- Renaming of what goes in and what comes out -----

  function RenamedWorkflow(pi: Renaming, wf: Workflow): Workflow {
    wf.(id := pi(wf.id))
  }

  function RenamedRecord(pi: Renaming, r: Record): Record {
    r.(id := pi(r.id), workflow := pi(r.workflow))
  }

  function RenamedAudit(pi: Renaming, audit: seq<AuditEvent>): seq<AuditEvent> {
    seq(|audit|, i requires 0 <= i < |audit| => audit[i].(id := pi(audit[i].id), record := pi(audit[i].record)))
  }

  function RenamedOp(pi: Renaming, op: Op): Op {
    match op
    case CreateRecord(t, key, workflow, data) => CreateRecord(t, key, pi(workflow), data)
    case GetRecord(t, id) => GetRecord(t, pi(id))
    case UpdateRecord(t, id, expected, state, data) => UpdateRecord(t, pi(id), expected, state, data)
    case _ => op
  }

  function RenamedResponse(pi: Renaming, response: Response): Response {
    match response
    case WorkflowMade(Ok(wf)) => WorkflowMade(Ok(RenamedWorkflow(pi, wf)))
    case WorkflowList(workflows) => WorkflowList(set wf | wf in workflows :: RenamedWorkflow(pi, wf))
    case RecordMade(Ok((r, replay))) => RecordMade(Ok((RenamedRecord(pi, r), replay)))
    case RecordList(records) => RecordList(set r | r in records :: RenamedRecord(pi, r))
    case RecordRead(Ok(r)) => RecordRead(Ok(RenamedRecord(pi, r)))
    case AuditList(events) => AuditList(RenamedAudit(pi, events))
    case _ => response
  }

  // ----- One store echoing another -----

  ghost predicate EchoedWorkflows(pi: Renaming, a: map<string, Workflow>, b: map<string, Workflow>) {
    && (forall id :: id in a ==> pi(id) in b && b[pi(id)] == RenamedWorkflow(pi, a[id]))
    && (forall id :: id in b ==> exists i :: i in a && pi(i) == id)
  }

  ghost predicate EchoedRecords(pi: Renaming, a: map<string, Record>, b: map<string, Record>) {
    && (forall id :: id in a ==> pi(id) in b && b[pi(id)] == RenamedRecord(pi, a[id]))
    && (forall id :: id in b ==> exists i :: i in a && pi(i) == id)
  }

  ghost predicate EchoedIndex(pi: Renaming, a: map<string, string>, b: map<string, string>) {
    a.Keys == b.Keys && forall slot :: slot in a ==> b[slot] == pi(a[slot])
  }

  ghost predicate Echo(pi: Renaming, a: Tables<string>, b: Tables<string>) {
    && EchoedWorkflows(pi, a.workflows, b.workflows)
    && EchoedRecords(pi, a.records, b.records)
    && EchoedIndex(pi, a.index, b.index)
    && b.audit == RenamedAudit(pi, a.audit)
  }

  // The identifiers a call takes in one store are renamed to those it takes in the other.
  ghost predicate NamesFollow(pi: Renaming, issued: seq<Issue>, counter: nat) {
    forall i :: 0 <= i < |issued| ==> pi(Name(issued[i])) == Render(issued[i].prefix, counter + 1 + i)
  }

  lemma EchoMembers(pi: Renaming, a: Tables<string>, b: Tables<string>, id: string)
    requires Injective(pi) && Echo(pi, a, b)
    ensures pi(id) in b.workflows <==> id in a.workflows
    ensures pi(id) in b.records <==> id in a.records
  {
  }

  lemma EchoAddWorkflow(pi: Renaming, a: map<string, Workflow>, b: map<string, Workflow>, wf: Workflow)
    requires Injective(pi) && EchoedWorkflows(pi, a, b)
    ensures EchoedWorkflows(pi, a[wf.id := wf], b[pi(wf.id) := RenamedWorkflow(pi, wf)])
  {
    var a', b' := a[wf.id := wf], b[pi(wf.id) := RenamedWorkflow(pi, wf)];
    forall id | id in b' ensures exists i :: i in a' && pi(i) == id {
      if id == pi(wf.id) {
        assert wf.id in a';
      } else {
        var i :| i in a && pi(i) == id;
        assert i in a';
      }
    }
  }

  lemma EchoPutRecord(pi: Renaming, a: map<string, Record>, b: map<string, Record>, r: Record)
    requires Injective(pi) && EchoedRecords(pi, a, b)
    ensures EchoedRecords(pi, a[r.id := r], b[pi(r.id) := RenamedRecord(pi, r)])
  {
    var a', b' := a[r.id := r], b[pi(r.id) := RenamedRecord(pi, r)];
    forall id | id in b' ensures exists i :: i in a' && pi(i) == id {
      if id == pi(r.id) {
        assert r.id in a';
      } else {
        var i :| i in a && pi(i) == id;
        assert i in a';
      }
    }
  }

  lemma EchoAppendAudit(pi: Renaming, audit: seq<AuditEvent>, r: Record, kind: Kind, id: string)
    ensures RenamedAudit(pi, audit + [AuditOf(r, kind, id)])
         == RenamedAudit(pi, audit) + [AuditOf(RenamedRecord(pi, r), kind, pi(id))]
  {
  }

  lemma EchoWriteWorkflow(pi: Renaming, x: State, y: State, wf: Workflow)
    requires Injective(pi) && Echo(pi, x.tables, y.tables)
    ensures Echo(pi, Commit(x, AddWorkflow(wf), 1).tables,
                 Commit(y, AddWorkflow(RenamedWorkflow(pi, wf)), 1).tables)
  {
    hide Injective, EchoedWorkflows;
    EchoAddWorkflow(pi, x.tables.workflows, y.tables.workflows, wf);
  }

  lemma EchoWriteRecord(pi: Renaming, x: State, y: State, r: Record, auditId: string, o: string, p: string)
    requires Injective(pi) && Echo(pi, x.tables, y.tables)
    ensures Echo(pi, Commit(x, AddRecord(r, auditId, o), 3).tables,
                 Commit(y, AddRecord(RenamedRecord(pi, r), pi(auditId), p), 3).tables)
  {
    hide Injective, EchoedWorkflows, EchoedRecords, RenamedAudit, AuditOf, OutboxOf, Slot;
    EchoPutRecord(pi, x.tables.records, y.tables.records, r);
    EchoAppendAudit(pi, x.tables.audit, r, Created, auditId);
  }

  lemma EchoWriteRevision(pi: Renaming, x: State, y: State, r: Record, auditId: string, o: string, p: string)
    requires Injective(pi) && Echo(pi, x.tables, y.tables)
    ensures Echo(pi, Commit(x, Revise(r, auditId, o), 2).tables,
                 Commit(y, Revise(RenamedRecord(pi, r), pi(auditId), p), 2).tables)
  {
    hide Injective, EchoedWorkflows, EchoedRecords, EchoedIndex, RenamedAudit, AuditOf, OutboxOf;
    EchoPutRecord(pi, x.tables.records, y.tables.records, r);
    EchoAppendAudit(pi, x.tables.audit, r, Updated, auditId);
  }

  // ----- One call in both stores -----

  ghost predicate EchoStep(pi: Renaming, x: State, y: State, op: Op)
    requires WorkflowsFormed(x.tables.workflows) && WorkflowsFormed(y.tables.workflows)
  {
    var (x', answer) := Step(x, op);
    var (y', echo) := Step(y, RenamedOp(pi, op));
    && Echo(pi, x'.tables, y'.tables)
    && echo == RenamedResponse(pi, answer)
    && y'.counter == y.counter + |Issued(x, op)|
  }

  lemma EchoCreateWorkflow(pi: Renaming, x: State, y: State, op: Op)
    requires Injective(pi) && Echo(pi, x.tables, y.tables) && op.CreateWorkflow?
    requires WorkflowsFormed(x.tables.workflows) && WorkflowsFormed(y.tables.workflows)
    requires NamesFollow(pi, Issued(x, op), y.counter)
    ensures EchoStep(pi, x, y, op)
  {
    hide Injective, Echo, Render, Commit;
    var made := Step(x, op).1;
    if made.workflow.Ok? {
      var wf := made.workflow.value;
      assert pi(Name(Issued(x, op)[0])) == Render("wf", y.counter + 1);
      EchoWriteWorkflow(pi, x, y, wf);
      CommitCounts(x, AddWorkflow(wf), 1);
      CommitCounts(y, AddWorkflow(RenamedWorkflow(pi, wf)), 1);
    }
  }

  lemma CommitCounts(s: State, w: Write, ids: nat)
    ensures Commit(s, w, ids).counter == s.counter + ids
  {
  }

  lemma EchoLookup(pi: Renaming, a: Tables<string>, b: Tables<string>, tenant: string, key: string)
    requires Injective(pi) && Echo(pi, a, b)
    requires forall slot :: slot in a.index ==> a.index[slot] in a.records
    ensures Lookup(Slot, b, tenant, key) ==
            match Lookup(Slot, a, tenant, key)
            case None => None
            case Some(r) => Some(RenamedRecord(pi, r))
  {
    hide Slot;
  }

  lemma EchoUsable(pi: Renaming, a: Tables<string>, b: Tables<string>, tenant: string, workflow: string)
    requires Injective(pi) && Echo(pi, a, b)
    ensures Usable(b, tenant, pi(workflow)) == Usable(a, tenant, workflow)
    ensures workflow in a.workflows ==> b.workflows[pi(workflow)] == RenamedWorkflow(pi, a.workflows[workflow])
    ensures StatesOf(b, pi(workflow)) == StatesOf(a, workflow)
  {
    EchoMembers(pi, a, b, workflow);
  }

  lemma EchoCreateRecord(pi: Renaming, x: State, y: State, op: Op)
    requires Injective(pi) && Echo(pi, x.tables, y.tables) && op.CreateRecord?
    requires WorkflowsFormed(x.tables.workflows) && WorkflowsFormed(y.tables.workflows)
    requires forall slot :: slot in x.tables.index ==> x.tables.index[slot] in x.tables.records
    requires NamesFollow(pi, Issued(x, op), y.counter)
    ensures EchoStep(pi, x, y, op)
  {
    hide Injective, Echo, Render, Commit, Lookup, Usable, WorkflowsFormed;
    EchoLookup(pi, x.tables, y.tables, op.tenant, op.key);
    EchoUsable(pi, x.tables, y.tables, op.tenant, op.workflow);
    UsableIsPresent(x.tables, op.tenant, op.workflow);
    var made := Step(x, op).1;
    if made.created.Ok? && !made.created.value.1 {
      var r := made.created.value.0;
      var issued := Issued(x, op);
      assert pi(Name(issued[0])) == Render("rec", y.counter + 1);
      assert pi(Name(issued[1])) == Render("evt", y.counter + 2);
      EchoWriteRecord(pi, x, y, r, Name(issued[1]), Name(issued[2]), Render("out", y.counter + 3));
      CommitCounts(x, AddRecord(r, Name(issued[1]), Name(issued[2])), 3);
      CommitCounts(y, AddRecord(RenamedRecord(pi, r), pi(Name(issued[1])), Render("out", y.counter + 3)), 3);
    }
  }

  lemma UsableIsPresent(a: Tables<string>, tenant: string, workflow: string)
    requires WorkflowsFormed(a.workflows)
    ensures Usable(a, tenant, workflow) ==> workflow in a.workflows && a.workflows[workflow].id == workflow
  {
  }

  lemma EchoRecord(pi: Renaming, a: Tables<string>, b: Tables<string>, id: string)
    requires Injective(pi) && Echo(pi, a, b) && id in a.records
    ensures pi(id) in b.records && b.records[pi(id)] == RenamedRecord(pi, a.records[id])
  {
  }

  lemma EchoDecision(pi: Renaming, a: Tables<string>, b: Tables<string>, tenant: string, id: string, expected: int,
                     state: string, data: Option<Data>)
    requires Injective(pi) && Echo(pi, a, b)
    ensures DecideUpdate(b, tenant, pi(id), expected, state, data) ==
            match DecideUpdate(a, tenant, id, expected, state, data)
            case Err(error) => Err(error)
            case Ok(r) => Ok(RenamedRecord(pi, r))
  {
    hide Injective, Echo, StatesOf;
    EchoMembers(pi, a, b, id);
    if id in a.records {
      EchoRecord(pi, a, b, id);
      EchoUsable(pi, a, b, tenant, a.records[id].workflow);
    }
  }

  lemma EchoUpdateRecord(pi: Renaming, x: State, y: State, op: Op)
    requires Injective(pi) && Echo(pi, x.tables, y.tables) && op.UpdateRecord?
    requires WorkflowsFormed(x.tables.workflows) && WorkflowsFormed(y.tables.workflows)
    requires NamesFollow(pi, Issued(x, op), y.counter)
    ensures EchoStep(pi, x, y, op)
  {
    hide Injective, Echo, Render, Commit, DecideUpdate;
    EchoDecision(pi, x.tables, y.tables, op.tenant, op.id, op.expected, op.state, op.data);
    var read := Step(x, op).1;
    if read.record.Ok? {
      var r := read.record.value;
      var issued := Issued(x, op);
      assert pi(Name(issued[0])) == Render("evt", y.counter + 1);
      EchoWriteRevision(pi, x, y, r, Name(issued[0]), Name(issued[1]), Render("out", y.counter + 2));
      CommitCounts(x, Revise(r, Name(issued[0]), Name(issued[1])), 2);
      CommitCounts(y, Revise(RenamedRecord(pi, r), pi(Name(issued[0])), Render("out", y.counter + 2)), 2);
    }
  }

  lemma EchoListedWorkflows(pi: Renaming, x: State, y: State, tenant: string)
    requires EchoedWorkflows(pi, x.tables.workflows, y.tables.workflows)
    ensures ListedWorkflows(y, tenant) == set wf | wf in ListedWorkflows(x, tenant) :: RenamedWorkflow(pi, wf)
  {
    var image := set wf | wf in ListedWorkflows(x, tenant) :: RenamedWorkflow(pi, wf);
    forall wf | wf in ListedWorkflows(y, tenant) ensures wf in image {
      var id :| id in y.tables.workflows && y.tables.workflows[id] == wf && wf.tenant == tenant;
      var i :| i in x.tables.workflows && pi(i) == id;
      assert x.tables.workflows[i] in ListedWorkflows(x, tenant);
    }
    forall wf | wf in image ensures wf in ListedWorkflows(y, tenant) {
      var w :| w in ListedWorkflows(x, tenant) && RenamedWorkflow(pi, w) == wf;
      var id :| id in x.tables.workflows && x.tables.workflows[id] == w && w.tenant == tenant;
      assert y.tables.workflows[pi(id)] == wf;
    }
  }

  lemma EchoListedRecords(pi: Renaming, x: State, y: State, tenant: string, state: string)
    requires EchoedRecords(pi, x.tables.records, y.tables.records)
    ensures ListedRecords(y, tenant, state) == set r | r in ListedRecords(x, tenant, state) :: RenamedRecord(pi, r)
  {
    var image := set r | r in ListedRecords(x, tenant, state) :: RenamedRecord(pi, r);
    forall r | r in ListedRecords(y, tenant, state) ensures r in image {
      var id :| id in y.tables.records && y.tables.records[id] == r && r.tenant == tenant
                && (state == "" || r.state == state);
      var i :| i in x.tables.records && pi(i) == id;
      assert x.tables.records[i] in ListedRecords(x, tenant, state);
    }
    forall r | r in image ensures r in ListedRecords(y, tenant, state) {
      var q :| q in ListedRecords(x, tenant, state) && RenamedRecord(pi, q) == r;
      var id :| id in x.tables.records && x.tables.records[id] == q && q.tenant == tenant
                && (state == "" || q.state == state);
      assert y.tables.records[pi(id)] == r;
    }
  }

  lemma {:induction false} EchoAuditTrail(pi: Renaming, audit: seq<AuditEvent>, tenant: string)
    ensures AuditTrail(RenamedAudit(pi, audit), tenant) == RenamedAudit(pi, AuditTrail(audit, tenant))
  {
    if audit != [] {
      EchoAuditTrail(pi, Init(audit), tenant);
      var e := Last(audit);
      var f := e.(id := pi(e.id), record := pi(e.record));
      assert RenamedAudit(pi, audit) == RenamedAudit(pi, Init(audit)) + [f];
      InitOfSnoc(RenamedAudit(pi, Init(audit)), f);
      assert RenamedAudit(pi, AuditTrail(Init(audit), tenant) + [e])
          == RenamedAudit(pi, AuditTrail(Init(audit), tenant)) + [f];
    }
  }

  lemma EchoReads(pi: Renaming, x: State, y: State, op: Op)
    requires Injective(pi) && Echo(pi, x.tables, y.tables)
    requires WorkflowsFormed(x.tables.workflows) && WorkflowsFormed(y.tables.workflows)
    requires op.ListWorkflows? || op.ListRecords? || op.GetRecord? || op.ListAuditEvents?
    ensures EchoStep(pi, x, y, op)
  {
    hide Injective, EchoedIndex, ListedRecords, ListedWorkflows, AuditTrail, RenamedAudit;
    match op
    case ListWorkflows(t) => EchoListedWorkflows(pi, x, y, t);
    case ListRecords(t, state) => EchoListedRecords(pi, x, y, t, state);
    case GetRecord(t, id) => EchoMembers(pi, x.tables, y.tables, id);
    case ListAuditEvents(t) => EchoAuditTrail(pi, x.tables.audit, t);
  }

  lemma EchoOneStep(pi: Renaming, tenant: string, x: State, y: State, op: Op)
    requires Injective(pi) && Echo(pi, x.tables, y.tables) && ByTenant(tenant, op)
    requires WorkflowsFormed(x.tables.workflows) && WorkflowsFormed(y.tables.workflows)
    requires forall slot :: slot in x.tables.index ==> x.tables.index[slot] in x.tables.records
    requires NamesFollow(pi, Issued(x, op), y.counter)
    ensures EchoStep(pi, x, y, op)
  {
    hide Injective, Echo, EchoStep, NamesFollow, Issued;
    match op
    case CreateWorkflow(_, _, _, _) => EchoCreateWorkflow(pi, x, y, op);
    case CreateRecord(_, _, _, _) => EchoCreateRecord(pi, x, y, op);
    case UpdateRecord(_, _, _, _, _) => EchoUpdateRecord(pi, x, y, op);
    case _ => EchoReads(pi, x, y, op);
  }

  // ----- Whole runs -----

  // The tenant's own calls, renamed.
  function Alone(pi: Renaming, tenant: string, ops: seq<Op>): seq<Op> {
    if ops == [] then []
    else Alone(pi, tenant, Init(ops)) + (if ByTenant(tenant, Last(ops)) then [RenamedOp(pi, Last(ops))] else [])
  }

  // The identifiers generated by the tenant's own calls.
  ghost function Mine(tenant: string, ops: seq<Op>): seq<Issue> {
    if ops == [] then []
    else Mine(tenant, Init(ops)) + (if ByTenant(tenant, Last(ops)) then Issued(Run(Init(ops)), Last(ops)) else [])
  }

  // The renaming sends the k-th identifier the tenant got to the k-th identifier of a store of its own.
  ghost predicate Follows(pi: Renaming, mine: seq<Issue>) {
    NamesFollow(pi, mine, 0)
  }

  lemma OwnIssues(tenants: set<string>, tenant: string, s: State, op: Op)
    requires Apart(tenant, tenants) && OwnedWithin(tenants, s) && Valid(s) && ByTenant(tenant, op)
    requires WorkflowsFormed(Own(tenant, s).tables.workflows)
    ensures Issued(Own(tenant, s), op) == Issued(s, op)
  {
    hide Valid, Apart, Own, Step, OwnedWithin;
    OwnPartSuffices(tenants, tenant, s, op);
    OwnIsBare(tenant, s);
  }

  lemma FollowsOn(pi: Renaming, mine: seq<Issue>, more: seq<Issue>)
    requires Follows(pi, mine + more)
    ensures Follows(pi, mine) && NamesFollow(pi, more, |mine|)
  {
    forall i | 0 <= i < |mine| ensures pi(Name(mine[i])) == Render(mine[i].prefix, 1 + i) {
      assert (mine + more)[i] == mine[i];
    }
    forall i | 0 <= i < |more| ensures pi(Name(more[i])) == Render(more[i].prefix, |mine| + 1 + i) {
      assert (mine + more)[|mine| + i] == more[i];
    }
  }

  lemma OwnIndexIsLive(tenant: string, s: State)
    ensures var own := Own(tenant, s).tables;
            forall slot :: slot in own.index ==> own.index[slot] in own.records
  {
  }

  // The tenant's part of the shared store and its store of its own stay echoes of each other.
  ghost predicate InStep(pi: Renaming, tenant: string, s: State, y: State, count: nat) {
    Echo(pi, Own(tenant, s).tables, y.tables) && y.counter == count
  }

  lemma OneMoreCall(pi: Renaming, tenants: set<string>, tenant: string, s: State, y: State, count: nat, op: Op)
    requires Injective(pi) && Apart(tenant, tenants) && OwnedWithin(tenants, s) && Valid(s)
    requires WorkflowsFormed(y.tables.workflows) && InStep(pi, tenant, s, y, count)
    requires ByTenant(tenant, op) && NamesFollow(pi, Issued(s, op), count)
    ensures InStep(pi, tenant, Step(s, op).0, Step(y, RenamedOp(pi, op)).0, count + |Issued(s, op)|)
    ensures Step(y, RenamedOp(pi, op)).1 == RenamedResponse(pi, Step(s, op).1)
  {
    hide Injective, Apart, Valid, Own, Step, Issued, OwnedWithin, NamesFollow, RenamedOp, RenamedResponse,
         EchoedWorkflows, EchoedRecords, EchoedIndex, RenamedAudit;
    var x := Own(tenant, s);
    OwnPartSuffices(tenants, tenant, s, op);
    OwnIssues(tenants, tenant, s, op);
    OwnIndexIsLive(tenant, s);
    EchoOneStep(pi, tenant, x, y, op);
  }

  lemma {:induction false} RunsInStep(pi: Renaming, tenants: set<string>, tenant: string, ops: seq<Op>)
    requires Injective(pi) && Apart(tenant, tenants) && Over(tenants, ops)
    requires Follows(pi, Mine(tenant, ops))
    ensures InStep(pi, tenant, Run(ops), Run(Alone(pi, tenant, ops)), |Mine(tenant, ops)|)
  {
    hide Injective, Apart, Own, Step, Issued, RenamedOp, Valid, OwnedWithin, NamesFollow;
    if ops == [] {
      EmptyInStep(pi, tenant);
    } else {
      var op, before := Last(ops), Init(ops);
      var s, y := Run(before), Run(Alone(pi, tenant, before));
      OverInit(tenants, ops);
      RunOwnedWithin(tenants, before);
      ReachableIsValid(before);
      if ByTenant(tenant, op) {
        FollowsOn(pi, Mine(tenant, before), Issued(s, op));
        RunsInStep(pi, tenants, tenant, before);
        OneMoreCall(pi, tenants, tenant, s, y, |Mine(tenant, before)|, op);
        RunSnoc(Alone(pi, tenant, before), RenamedOp(pi, op));
      } else {
        assert Mine(tenant, ops) == Mine(tenant, before);
        assert Alone(pi, tenant, ops) == Alone(pi, tenant, before);
        RunsInStep(pi, tenants, tenant, before);
        OthersLeavePartAlone(tenant, s, op);
      }
    }
  }

  lemma OverInit(tenants: set<string>, ops: seq<Op>)
    requires Over(tenants, ops) && ops != []
    ensures Over(tenants, Init(ops))
  {
    assert forall op :: op in Init(ops) ==> op in ops;
  }

  lemma EmptyInStep(pi: Renaming, tenant: string)
    ensures InStep(pi, tenant, Run([]), Run(Alone(pi, tenant, [])), 0)
  {
  }

  // ----- The renaming itself -----

  ghost predicate Increasing(issues: seq<Issue>, bound: nat) {
    && (forall i, j :: 0 <= i < j < |issues| ==> issues[i].counter < issues[j].counter)
    && (forall i :: 0 <= i < |issues| ==>
          issues[i].counter <= bound && issues[i].prefix in {"wf", "rec", "evt", "out"})
  }

  lemma IssuedIncreasing(s: State, op: Op)
    requires WorkflowsFormed(s.tables.workflows)
    ensures Increasing(Issued(s, op), Step(s, op).0.counter)
    ensures s.counter <= Step(s, op).0.counter
    ensures forall i :: 0 <= i < |Issued(s, op)| ==> s.counter < Issued(s, op)[i].counter
  {
    hide Apply, DecideCreate, DecideUpdate;
  }

  lemma {:induction false} MineIncreasing(tenant: string, ops: seq<Op>)
    ensures Increasing(Mine(tenant, ops), Run(ops).counter)
  {
    if ops != [] {
      hide Step, Issued;
      MineIncreasing(tenant, Init(ops));
      IssuedIncreasing(Run(Init(ops)), Last(ops));
    }
  }

  function Position(names: seq<string>, id: string): (i: nat)
    ensures i <= |names|
    ensures i < |names| ==> names[i] == id
    ensures i == |names| ==> id !in names
  {
    if names == [] then 0
    else
      var i := Position(Init(names), id);
      if i < |names| - 1 then i else if Last(names) == id then i else i + 1
  }

  function Names(issues: seq<Issue>): seq<string> {
    seq(|issues|, i requires 0 <= i < |issues| => Name(issues[i]))
  }

  // Own identifiers go to their counterparts; every other string goes to one never generated.
  function Counterpart(mine: seq<Issue>, id: string): string {
    var k := Position(Names(mine), id);
    if k < |mine| then Render(mine[k].prefix, k + 1) else "?" + id
  }

  lemma CounterpartInjective(mine: seq<Issue>, a: string, b: string)
    requires forall i :: 0 <= i < |mine| ==> mine[i].prefix in {"wf", "rec", "evt", "out"}
    requires Counterpart(mine, a) == Counterpart(mine, b)
    ensures a == b
  {
    hide Padded;
    var i, j := Position(Names(mine), a), Position(Names(mine), b);
    if i < |mine| {
      assert Counterpart(mine, a)[0] == mine[i].prefix[0] != '?';
    }
    if j < |mine| {
      assert Counterpart(mine, b)[0] == mine[j].prefix[0] != '?';
    }
    if i < |mine| && j < |mine| {
      RenderInjective(mine[i].prefix, i + 1, mine[j].prefix, j + 1);
    } else if i == |mine| && j == |mine| {
      assert a == Counterpart(mine, a)[1..] == b;
    }
  }

  lemma CounterpartFollows(mine: seq<Issue>, bound: nat)
    requires Increasing(mine, bound)
    ensures Follows(id => Counterpart(mine, id), mine)
  {
    forall i | 0 <= i < |mine| ensures Counterpart(mine, Name(mine[i])) == Render(mine[i].prefix, 1 + i) {
      var k := Position(Names(mine), Name(mine[i]));
      assert Names(mine)[i] in Names(mine);
      if k != i {
        NamesDiffer(mine[k], mine[i]);
      }
    }
  }

  // ----- Isolation -----

  // There is a one-to-one renaming under which every answer the tenant gets in the run is the
  // answer to the same call in the run of its own calls alone.
  ghost predicate Isolated(tenant: string, ops: seq<Op>) {
    exists pi: Renaming :: Injective(pi) && SameAnswers(pi, tenant, ops)
  }

  ghost predicate SameAnswers(pi: Renaming, tenant: string, ops: seq<Op>) {
    forall k :: 0 <= k < |ops| && ByTenant(tenant, ops[k]) ==> SameAnswer(pi, tenant, ops, k)
  }

  ghost predicate SameAnswer(pi: Renaming, tenant: string, ops: seq<Op>, k: nat)
    requires k < |ops|
  {
    var rank := |Alone(pi, tenant, ops[..k])|;
    rank < |Alone(pi, tenant, ops)| &&
    Answer(Alone(pi, tenant, ops), rank) == RenamedResponse(pi, Answer(ops, k))
  }

  lemma {:induction false} AlonePrefix(pi: Renaming, tenant: string, ops: seq<Op>, k: nat)
    requires k < |ops| && ByTenant(tenant, ops[k])
    ensures var alone := Alone(pi, tenant, ops);
            var rank := |Alone(pi, tenant, ops[..k])|;
            rank < |alone| && alone[..rank] == Alone(pi, tenant, ops[..k]) && alone[rank] == RenamedOp(pi, ops[k])
  {
    if k < |ops| - 1 {
      AlonePrefix(pi, tenant, Init(ops), k);
      assert Init(ops)[..k] == ops[..k];
    }
  }

  lemma {:induction false} MinePrefix(tenant: string, ops: seq<Op>, k: nat)
    requires k <= |ops|
    ensures Mine(tenant, ops[..k]) <= Mine(tenant, ops)
    ensures k < |ops| && ByTenant(tenant, ops[k]) ==>
              Mine(tenant, ops[..k]) + Issued(Run(ops[..k]), ops[k]) <= Mine(tenant, ops)
  {
    hide Issued, Run;
    if k == |ops| {
      assert ops[..k] == ops;
    } else {
      if k + 1 == |ops| {
        assert ops[..k] == Init(ops);
      } else {
        MinePrefix(tenant, Init(ops), k);
        assert Init(ops)[..k] == ops[..k];
      }
    }
  }

  lemma ApartIsIsolatedAt(pi: Renaming, tenants: set<string>, tenant: string, ops: seq<Op>, k: nat)
    requires Injective(pi) && Apart(tenant, tenants) && Over(tenants, ops) && Follows(pi, Mine(tenant, ops))
    requires k < |ops| && ByTenant(tenant, ops[k])
    ensures SameAnswer(pi, tenant, ops, k)
  {
    hide Injective, Apart, Step, Issued, RenamedOp, Valid, OwnedWithin, NamesFollow, InStep, RenamedResponse;
    var before := ops[..k];
    var s, y := Run(before), Run(Alone(pi, tenant, before));
    var issued := Issued(s, ops[k]);
    AlonePrefix(pi, tenant, ops, k);
    MinePrefix(tenant, ops, k);
    var mine, all := Mine(tenant, before) + issued, Mine(tenant, ops);
    assert all == mine + all[|mine|..];
    FollowsOn(pi, mine, all[|mine|..]);
    FollowsOn(pi, Mine(tenant, before), issued);
    OverPrefix(tenants, ops, k);
    RunsInStep(pi, tenants, tenant, before);
    RunOwnedWithin(tenants, before);
    ReachableIsValid(before);
    OneMoreCall(pi, tenants, tenant, s, y, |Mine(tenant, before)|, ops[k]);
  }

  lemma OverPrefix(tenants: set<string>, ops: seq<Op>, k: nat)
    requires Over(tenants, ops) && k <= |ops|
    ensures Over(tenants, ops[..k])
  {
    assert forall op :: op in ops[..k] ==> op in ops;
  }

  lemma ApartIsIsolated(tenants: set<string>, tenant: string, ops: seq<Op>)
    requires Apart(tenant, tenants) && Over(tenants, ops)
    ensures Isolated(tenant, ops)
  {
    var mine := Mine(tenant, ops);
    var pi: Renaming := id => Counterpart(mine, id);
    MineIncreasing(tenant, ops);
    CounterpartFollows(mine, Run(ops).counter);
    forall a, b | pi(a) == pi(b) ensures a == b {
      CounterpartInjective(mine, a, b);
    }
    assert Injective(pi);
    forall k | 0 <= k < |ops| && ByTenant(tenant, ops[k]) ensures SameAnswer(pi, tenant, ops, k) {
      ApartIsIsolatedAt(pi, tenants, tenant, ops, k);
    }
    assert SameAnswers(pi, tenant, ops);
  }

  lemma {:induction false} AloneOver(pi: Renaming, tenant: string, ops: seq<Op>)
    ensures Over({tenant}, Alone(pi, tenant, ops))
  {
    if ops != [] {
      AloneOver(pi, tenant, Init(ops));
    }
  }

  // A store used by one tenant never answers with another tenant's record.
  lemma AloneRepliesOwn(pi: Renaming, tenant: string, ops: seq<Op>, rank: nat)
    requires rank < |Alone(pi, tenant, ops)| && Alone(pi, tenant, ops)[rank].CreateRecord?
    ensures match Answer(Alone(pi, tenant, ops), rank)
            case RecordMade(Ok((r, true))) => r.tenant == tenant
            case _ => true
  {
    hide Step, Run, RenamedOp;
    var alone := Alone(pi, tenant, ops);
    AloneOver(pi, tenant, ops);
    assert alone[rank] in alone;
    assert Apart(tenant, {tenant});
    OverPrefix({tenant}, alone, rank);
    RunOwnedWithin({tenant}, alone[..rank]);
    ReachableIsValid(alone[..rank]);
    ReplayIsOwn({tenant}, Run(alone[..rank]), alone[rank]);
  }

  lemma EntangledIsNotIsolated(tenant: string, other: string, key: string, otherKey: string)
    requires tenant != other && tenant != "" && other != "" && key != "" && otherKey != ""
    requires Slot(other, otherKey) == Slot(tenant, key)
    ensures !Isolated(tenant, CollidingRun(other, otherKey, tenant, key))
  {
    hide Run, Render, Slot, Injective;
    var ops := CollidingRun(other, otherKey, tenant, key);
    CollisionMixesRecords(other, otherKey, tenant, key);
    forall pi: Renaming ensures !SameAnswers(pi, tenant, ops) {
      var rank := |Alone(pi, tenant, ops[..3])|;
      AlonePrefix(pi, tenant, ops, 3);
      AloneRepliesOwn(pi, tenant, ops, rank);
      assert !SameAnswer(pi, tenant, ops, 3);
    }
  }

  // A tenant is isolated in every run exactly when no other tenant's name collides with its own.
  lemma IsolatedIff(tenants: set<string>, tenant: string)
    requires tenant in tenants
    ensures (forall ops :: Over(tenants, ops) ==> Isolated(tenant, ops)) <==> Apart(tenant, tenants)
  {
    if Apart(tenant, tenants) {
      forall ops | Over(tenants, ops) ensures Isolated(tenant, ops) {
        ApartIsIsolated(tenants, tenant, ops);
      }
    } else {
      var u :| u in tenants && u != "" && tenant != "" && Entangled(tenant, u);
      assert tenant != u;
      CollisionIff(tenant, u);
      var k, l :| k != "" && l != "" && Slot(tenant, k) == Slot(u, l);
      EntangledIsNotIsolated(tenant, u, k, l);
      assert Over(tenants, CollidingRun(u, l, tenant, k));
    }
  }
}
