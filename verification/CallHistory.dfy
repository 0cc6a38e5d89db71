// What the calls of a run left behind, told from the calls and their answers alone: every workflow and
// record of the memory store, field by field, and what each call is answered.

module CallHistory {
  import opened Domain
  import opened Ids
  import opened Tables
  import opened MemorySpec
  import opened Outbox
  import opened KeyIndex
  import opened Ownership

  // The answer to the last call.
  ghost function Final(ops: seq<Op>): Response
    requires ops != []
  {
    Step(Run(Init(ops)), Last(ops)).1
  }

  lemma FinalIsAnswer(ops: seq<Op>, k: nat)
    requires k < |ops|
    ensures Init(ops[..k + 1]) == ops[..k] && Last(ops[..k + 1]) == ops[k]
    ensures Final(ops[..k + 1]) == Answer(ops, k)
  {
    assert Init(ops[..k + 1]) == ops[..k];
  }

  // ----- Told by the calls -----

  // The last call made this workflow.
  ghost predicate MadeWorkflow(ops: seq<Op>, id: string) {
    ops != [] && Last(ops).CreateWorkflow? &&
    match Final(ops)
    case WorkflowMade(Ok(wf)) => wf.id == id
    case _ => false
  }

  // The last call made this record, and not as a replay.
  ghost predicate MadeRecord(ops: seq<Op>, id: string) {
    ops != [] && Last(ops).CreateRecord? &&
    match Final(ops)
    case RecordMade(Ok((r, false))) => r.id == id
    case _ => false
  }

  // The last call updated this record.
  ghost predicate UpdatedRecord(ops: seq<Op>, id: string) {
    ops != [] && Last(ops).UpdateRecord? && Last(ops).id == id &&
    match Final(ops)
    case RecordRead(Ok(_)) => true
    case _ => false
  }

  ghost function WorkflowOrigin(ops: seq<Op>, id: string): Option<Op> {
    if ops == [] then None
    else if MadeWorkflow(ops, id) then Some(Last(ops))
    else WorkflowOrigin(Init(ops), id)
  }

  ghost function Origin(ops: seq<Op>, id: string): Option<Op> {
    if ops == [] then None else if MadeRecord(ops, id) then Some(Last(ops)) else Origin(Init(ops), id)
  }

  // The state named by the last successful update that named one.
  ghost function LastState(ops: seq<Op>, id: string): Option<string> {
    if ops == [] then None
    else if UpdatedRecord(ops, id) && Last(ops).state != "" then Some(Last(ops).state)
    else LastState(Init(ops), id)
  }

  // The data of the last successful update that brought some.
  ghost function LastData(ops: seq<Op>, id: string): Option<Data> {
    if ops == [] then None
    else if UpdatedRecord(ops, id) && Last(ops).data.Some? then Last(ops).data
    else LastData(Init(ops), id)
  }

  ghost function UpdateCount(ops: seq<Op>, id: string): nat {
    if ops == [] then 0 else UpdateCount(Init(ops), id) + (if UpdatedRecord(ops, id) then 1 else 0)
  }

  // ----- One call -----

  lemma WorkflowAfter(s: State, op: Op)
    requires Valid(s)
    ensures var (s', answer) := Step(s, op);
            match answer
            case WorkflowMade(Ok(wf)) =>
              op.CreateWorkflow? && wf.id !in s.tables.workflows
              && wf == Workflow(wf.id, op.tenant, op.name, op.fields, op.states, 1)
              && s'.tables.workflows == s.tables.workflows[wf.id := wf]
            case _ => s'.tables.workflows == s.tables.workflows
  {
    hide Valid, Render, MakeRecord, ReviseRecord, Amend, ListPending, ListedRecords, ListedWorkflows, AuditTrail;
    ValidBasics(s);
    NextIdIsFresh(s);
    if !op.CreateWorkflow? {
      OtherWorkflows(s, op);
    }
  }

  lemma OtherWorkflows(s: State, op: Op)
    requires WorkflowsFormed(s.tables.workflows) && !op.CreateWorkflow?
    ensures Step(s, op).0.tables.workflows == s.tables.workflows && !Step(s, op).1.WorkflowMade?
  {
    hide Render, ListPending, ListedRecords, ListedWorkflows, AuditTrail, DecideCreate, DecideUpdate, Find;
  }

  lemma RecordAfterOther(s: State, op: Op)
    requires WorkflowsFormed(s.tables.workflows) && !op.CreateRecord? && !op.UpdateRecord?
    ensures Step(s, op).0.tables.records == s.tables.records
  {
    hide Render, ListPending, ListedRecords, ListedWorkflows, AuditTrail, DecideCreate, DecideUpdate, Find;
  }

  lemma RecordAfterCreate(s: State, op: Op)
    requires Valid(s) && op.CreateRecord?
    ensures var (s', answer) := Step(s, op);
            match answer
            case RecordMade(Ok((r, false))) =>
              && r.id !in s.tables.records && op.workflow in s.tables.workflows
              && s.tables.workflows[op.workflow].states != []
              && r == Record(r.id, op.tenant, op.workflow, s.tables.workflows[op.workflow].states[0], op.data, 1, op.key)
              && s'.tables.records == s.tables.records[r.id := r]
            case _ => s'.tables.records == s.tables.records
  {
    hide Valid, Render, ReviseRecord, Amend, ListPending, ListedRecords, ListedWorkflows, AuditTrail;
    ValidBasics(s);
    NextIdIsFresh(s);
  }

  lemma RecordAfterUpdate(s: State, op: Op)
    requires Valid(s) && op.UpdateRecord?
    ensures var (s', answer) := Step(s, op);
            match answer
            case RecordRead(Ok(r)) =>
              op.id in s.tables.records &&
              var before := s.tables.records[op.id];
              && r == Record(op.id, before.tenant, before.workflow, if op.state != "" then op.state else before.state,
                             if op.data.Some? then op.data else before.data, before.version + 1, before.idempotency)
              && s'.tables.records == s.tables.records[op.id := r]
            case _ => s'.tables.records == s.tables.records
  {
    hide Valid, Render, MakeRecord, Amend, ListPending, ListedRecords, ListedWorkflows, AuditTrail;
    ValidBasics(s);
  }

  // ----- Whole runs -----

  // Every workflow is as its creating call said, at version 1, for ever.
  lemma {:induction false} WorkflowTellsCall(ops: seq<Op>, id: string)
    ensures var workflows := Run(ops).tables.workflows;
            && (id in workflows <==> WorkflowOrigin(ops, id).Some?)
            && (id in workflows ==>
                  WorkflowOrigin(ops, id).value.CreateWorkflow? &&
                  var c := WorkflowOrigin(ops, id).value;
                  workflows[id] == Workflow(id, c.tenant, c.name, c.fields, c.states, 1))
  {
    if ops != [] {
      hide Valid, Step;
      WorkflowTellsCall(Init(ops), id);
      ReachableIsValid(Init(ops));
      WorkflowAfter(Run(Init(ops)), Last(ops));
    }
  }

  // A record as the calls so far tell it.
  ghost predicate Told(ops: seq<Op>, id: string, r: Record, c: Op, states: seq<string>) {
    && c.CreateRecord? && states != []
    && r.id == id && r.tenant == c.tenant && r.workflow == c.workflow && r.idempotency == c.key
    && r.state == (if LastState(ops, id).Some? then LastState(ops, id).value else states[0])
    && r.data == (if LastData(ops, id).Some? then LastData(ops, id) else c.data)
    && r.version == 1 + UpdateCount(ops, id)
  }

  // Every record of a reachable store is what its calls say: tenant, workflow and key of the call that
  // created it; the state named by the last successful update that named one, else the first state of
  // its workflow; the data of the last successful update that brought some, else those it was created
  // with; and one version more than it had successful updates.
  lemma {:induction false} RecordTellsCalls(ops: seq<Op>, id: string)
    ensures var tables := Run(ops).tables;
            && (id in tables.records <==> Origin(ops, id).Some?)
            && (id in tables.records ==>
                  && Origin(ops, id).value.CreateRecord? && Origin(ops, id).value.workflow in tables.workflows
                  && Told(ops, id, tables.records[id], Origin(ops, id).value,
                          tables.workflows[Origin(ops, id).value.workflow].states))
            && (id !in tables.records ==>
                  LastState(ops, id) == None && LastData(ops, id) == None && UpdateCount(ops, id) == 0)
  {
    if ops != [] {
      hide Valid, Step, UpdatedRecord, MadeRecord, Told, Origin, LastState, LastData, UpdateCount;
      RecordTellsCalls(Init(ops), id);
      Unrolled(ops, id);
      ReachableIsValid(Init(ops));
      WorkflowAfter(Run(Init(ops)), Last(ops));
      if Last(ops).CreateRecord? {
        CreateTells(ops, id);
      } else if Last(ops).UpdateRecord? {
        UpdateTells(ops, id);
      } else {
        RecordAfterOther(Run(Init(ops)), Last(ops));
        ToldByOther(ops, id);
      }
    } else {
      hide Told;
    }
  }

  lemma Unrolled(ops: seq<Op>, id: string)
    requires ops != []
    ensures Origin(ops, id) == if MadeRecord(ops, id) then Some(Last(ops)) else Origin(Init(ops), id)
    ensures LastState(ops, id) ==
            if UpdatedRecord(ops, id) && Last(ops).state != "" then Some(Last(ops).state) else LastState(Init(ops), id)
    ensures LastData(ops, id) ==
            if UpdatedRecord(ops, id) && Last(ops).data.Some? then Last(ops).data else LastData(Init(ops), id)
    ensures UpdateCount(ops, id) == UpdateCount(Init(ops), id) + (if UpdatedRecord(ops, id) then 1 else 0)
  {
    hide Step, Run;
  }

  // What is told does not change with a call that is no successful update of the record.
  lemma ToldByOther(ops: seq<Op>, id: string)
    requires ops != [] && !Last(ops).CreateRecord? && !Last(ops).UpdateRecord?
    ensures !MadeRecord(ops, id) && !UpdatedRecord(ops, id)
    ensures forall r, c, states :: Told(Init(ops), id, r, c, states) ==> Told(ops, id, r, c, states)
  {
    hide Step, Run, Origin, LastState, LastData, UpdateCount;
    Unrolled(ops, id);
  }

  lemma CreateTells(ops: seq<Op>, id: string)
    requires ops != [] && Last(ops).CreateRecord?
    requires id !in Run(Init(ops)).tables.records ==>
               LastState(Init(ops), id) == None && LastData(Init(ops), id) == None && UpdateCount(Init(ops), id) == 0
    ensures var s, s' := Run(Init(ops)).tables, Run(ops).tables;
            && !UpdatedRecord(ops, id)
            && (MadeRecord(ops, id) ==>
                  && id !in s.records && id in s'.records && Last(ops).workflow in s.workflows
                  && Told(ops, id, s'.records[id], Last(ops), s.workflows[Last(ops).workflow].states))
            && (!MadeRecord(ops, id) ==>
                  && (id in s'.records <==> id in s.records)
                  && (id in s.records ==> s'.records[id] == s.records[id]))
            && forall r, c, states :: Told(Init(ops), id, r, c, states) ==> Told(ops, id, r, c, states)
  {
    hide Valid, Step, Origin, LastState, LastData, UpdateCount;
    Unrolled(ops, id);
    ReachableIsValid(Init(ops));
    AnswerKind(Run(Init(ops)), Last(ops));
    RecordAfterCreate(Run(Init(ops)), Last(ops));
  }

  lemma UpdateTells(ops: seq<Op>, id: string)
    requires ops != [] && Last(ops).UpdateRecord?
    ensures var s, s' := Run(Init(ops)).tables, Run(ops).tables;
            && !MadeRecord(ops, id)
            && (UpdatedRecord(ops, id) ==>
                  && id in s.records && id in s'.records
                  && forall c, states :: Told(Init(ops), id, s.records[id], c, states) ==>
                                           Told(ops, id, s'.records[id], c, states))
            && (!UpdatedRecord(ops, id) ==>
                  && (id in s'.records <==> id in s.records)
                  && (id in s.records ==> s'.records[id] == s.records[id])
                  && forall r, c, states :: Told(Init(ops), id, r, c, states) ==> Told(ops, id, r, c, states))
  {
    hide Valid, Step, Origin, LastState, LastData, UpdateCount;
    Unrolled(ops, id);
    ReachableIsValid(Init(ops));
    AnswerKind(Run(Init(ops)), Last(ops));
    RecordAfterUpdate(Run(Init(ops)), Last(ops));
  }

  lemma AnswerKind(s: State, op: Op)
    requires WorkflowsFormed(s.tables.workflows)
    ensures op.CreateRecord? ==> Step(s, op).1.RecordMade?
    ensures op.UpdateRecord? ==> Step(s, op).1.RecordRead?
    ensures op.CreateWorkflow? ==> Step(s, op).1.WorkflowMade?
  {
  }

  // ----- What a call is answered -----

  // The tenant has this record.
  ghost predicate Has(s: State, tenant: string, id: string) {
    id in s.tables.records && s.tables.records[id].tenant == tenant
  }

  // An update is refused exactly for a record the tenant does not have, else for another version than
  // expected, else for a state its workflow does not have, and succeeds otherwise.
  lemma UpdateAnswers(ops: seq<Op>, k: nat)
    requires k < |ops| && ops[k].UpdateRecord?
    ensures var s, op, answer := Run(ops[..k]), ops[k], Answer(ops, k);
            && answer.RecordRead?
            && (answer.record == Err(NotFound) <==> !Has(s, op.tenant, op.id))
            && (answer.record == Err(Conflict) <==>
                Has(s, op.tenant, op.id) && s.tables.records[op.id].version != op.expected)
            && (answer.record.Ok? <==>
                && Has(s, op.tenant, op.id) && s.tables.records[op.id].version == op.expected
                && s.tables.records[op.id].workflow in s.tables.workflows
                && (op.state == "" || op.state in s.tables.workflows[s.tables.records[op.id].workflow].states))
            && (answer.record.Err? ==> answer.record.error in {NotFound, Conflict, InvalidWorkflow})
  {
    hide Run, Sourced, Indexed;
    ReachableIsValid(ops[..k]);
  }

  // From s to s' the change of record r was stored, and told by one audit entry and one event.
  ghost predicate Stored(s: State, s': State, r: Record, kind: Kind)
    requires WorkflowsFormed(s'.tables.workflows)
  {
    && r.id in s'.tables.records && s'.tables.records[r.id] == r
    && Step(s', GetRecord(r.tenant, r.id)).1 == RecordRead(Ok(r))
    && |s'.tables.outbox| == |s.tables.outbox| + 1 && s.tables.outbox <= s'.tables.outbox
    && |s'.tables.audit| == |s.tables.audit| + 1 && s.tables.audit <= s'.tables.audit
    && Tells(Last(s'.tables.outbox), r, kind)
    && var a := Last(s'.tables.audit);
       a == AuditEvent(a.id, r.tenant, r.id, kind, r.state, r.version)
  }

  // The event as it is appended for the record.
  ghost predicate Tells(e: OutboxEvent, r: Record, kind: Kind) {
    e == OutboxEvent(e.id, r.tenant, r.id, "workflow.record-events", r.id, kind,
                     Change(r.id, r.workflow, r.state, r.version), false, 0, "")
  }

  // The answer of a successful update shows the state it named, the same as a read after it, the audit
  // entry and the event.
  lemma UpdateShows(ops: seq<Op>, k: nat, r: Record)
    requires k < |ops| && ops[k].UpdateRecord? && Answer(ops, k) == RecordRead(Ok(r))
    ensures r.id == ops[k].id && r.tenant == ops[k].tenant
    ensures ops[k].state != "" ==> r.state == ops[k].state
    ensures ops[k].data.Some? ==> r.data == ops[k].data
    ensures r.version == ops[k].expected + 1
    ensures WorkflowsFormed(Run(ops[..k + 1]).tables.workflows) && Stored(Run(ops[..k]), Run(ops[..k + 1]), r, Updated)
  {
    hide Render, Sourced, Indexed;
    ReachableIsValid(ops[..k]);
    FinalIsAnswer(ops, k);
  }

  // A create is refused exactly for a workflow the tenant does not have; a new record shows the
  // workflow's first state at version 1, the same as a read after it, the audit entry and the event.
  lemma CreateShows(ops: seq<Op>, k: nat)
    requires k < |ops| && ops[k].CreateRecord?
    ensures var s, s', op, answer := Run(ops[..k]), Run(ops[..k + 1]), ops[k], Answer(ops, k);
            && answer.RecordMade?
            && WorkflowsFormed(s'.tables.workflows)
            && (answer.created == Err(InvalidWorkflow) <==>
                !(op.workflow in s.tables.workflows && s.tables.workflows[op.workflow].tenant == op.tenant))
            && (answer.created.Ok? <==>
                op.workflow in s.tables.workflows && s.tables.workflows[op.workflow].tenant == op.tenant)
            && (answer.created.Ok? && !answer.created.value.1 ==>
                  var r := answer.created.value.0;
                  && s.tables.workflows[op.workflow].states != []
                  && r == Record(r.id, op.tenant, op.workflow, s.tables.workflows[op.workflow].states[0], op.data, 1, op.key)
                  && r.id !in s.tables.records
                  && Stored(s, s', r, Created))
            && (answer.created.Ok? && answer.created.value.1 ==> s' == s)
  {
    hide Render, Sourced, Indexed, Valid;
    ReachableIsValid(ops[..k]);
    ValidBasics(Run(ops[..k]));
    NextIdIsFresh(Run(ops[..k]));
    FinalIsAnswer(ops, k);
  }

  // ----- Replays -----

  // Call j created or replayed a record for this tenant and key.
  ghost predicate Answered(ops: seq<Op>, j: nat, tenant: string, key: string) {
    j < |ops| && ops[j].CreateRecord? && ops[j].tenant == tenant && ops[j].key == key &&
    match Answer(ops, j)
    case RecordMade(Ok(_)) => true
    case _ => false
  }

  lemma OverUpTo(tenants: set<string>, ops: seq<Op>, k: nat)
    requires Over(tenants, ops) && k <= |ops|
    ensures Over(tenants, ops[..k])
  {
    assert forall op :: op in ops[..k] ==> op in ops;
  }

  // A record is never lost, its tenant and key never change, and only a create adds one.
  lemma FiledAfter(s: State, op: Op, tenant: string, key: string, id: string)
    requires Valid(s)
    ensures Filed(s, tenant, key, id) ==> Filed(Step(s, op).0, tenant, key, id)
    ensures Filed(Step(s, op).0, tenant, key, id) && !Filed(s, tenant, key, id) ==>
              match Step(s, op).1
              case RecordMade(Ok((r, false))) => op.CreateRecord? && r.id == id
              case _ => false
  {
    hide Step, Valid;
    ReachableBasics(s);
    AnswerKind(s, op);
    if op.CreateRecord? {
      RecordAfterCreate(s, op);
    } else if op.UpdateRecord? {
      RecordAfterUpdate(s, op);
    } else {
      RecordAfterOther(s, op);
    }
  }

  lemma ReachableBasics(s: State)
    requires Valid(s)
    ensures WorkflowsFormed(s.tables.workflows)
  {
  }

  lemma RunNext(ops: seq<Op>, k: nat)
    requires 0 < k <= |ops|
    ensures Run(ops[..k]) == Step(Run(ops[..k - 1]), ops[k - 1]).0
  {
    hide Step;
    assert ops[..k] == ops[..k - 1] + [ops[k - 1]];
    RunSnoc(ops[..k - 1], ops[k - 1]);
  }

  lemma FiledNext(ops: seq<Op>, k: nat, tenant: string, key: string, id: string)
    requires 0 < k <= |ops| && Filed(Run(ops[..k - 1]), tenant, key, id)
    ensures Filed(Run(ops[..k]), tenant, key, id)
  {
    hide Run, Step, Valid, Filed;
    ReachableIsValid(ops[..k - 1]);
    RunNext(ops, k);
    FiledAfter(Run(ops[..k - 1]), ops[k - 1], tenant, key, id);
  }

  lemma {:induction false} StaysFiled(ops: seq<Op>, j: nat, k: nat, tenant: string, key: string, id: string)
    requires j <= k <= |ops| && Filed(Run(ops[..j]), tenant, key, id)
    ensures Filed(Run(ops[..k]), tenant, key, id)
    decreases k
  {
    hide Run, Step, Filed;
    if j < k {
      StaysFiled(ops, j, k - 1, tenant, key, id);
      FiledNext(ops, k, tenant, key, id);
    }
  }

  // A record filed under a key was filed by a call that said so.
  lemma {:induction false} FilerOf(ops: seq<Op>, k: nat, tenant: string, key: string, id: string) returns (j: nat)
    requires k <= |ops| && Filed(Run(ops[..k]), tenant, key, id)
    ensures j < k && Answered(ops, j, tenant, key)
    decreases k
  {
    j := 0;
    NothingFiled(ops, k, tenant, key, id);
    if k > 0 {
      hide Run, Step;
      FinalIsAnswer(ops, k - 1);
      if MadeRecord(ops[..k], id) {
        j := k - 1;
        TellsFiler(ops[..k], tenant, key, id);
      } else {
        NotMadeNow(ops, k, tenant, key, id);
        j := FilerOf(ops, k - 1, tenant, key, id);
      }
    }
  }

  lemma TellsFiler(ops: seq<Op>, tenant: string, key: string, id: string)
    requires ops != [] && MadeRecord(ops, id) && Filed(Run(ops), tenant, key, id)
    ensures Last(ops).CreateRecord? && Last(ops).tenant == tenant && Last(ops).key == key
  {
    hide Run, Step;
    RecordTellsCalls(ops, id);
  }

  lemma NothingFiled(ops: seq<Op>, k: nat, tenant: string, key: string, id: string)
    requires k <= |ops|
    ensures k == 0 ==> !Filed(Run(ops[..k]), tenant, key, id)
  {
  }

  lemma NotMadeNow(ops: seq<Op>, k: nat, tenant: string, key: string, id: string)
    requires 0 < k <= |ops| && !MadeRecord(ops[..k], id) && Filed(Run(ops[..k]), tenant, key, id)
    ensures Filed(Run(ops[..k - 1]), tenant, key, id)
  {
    hide Run, Step, Valid, Filed;
    FinalIsAnswer(ops, k - 1);
    ReachableIsValid(ops[..k - 1]);
    RunNext(ops, k);
    FiledAfter(Run(ops[..k - 1]), ops[k - 1], tenant, key, id);
  }

  // A create that succeeds has filed the tenant's record, now or before.
  lemma SuccessFiles(tenants: set<string>, ops: seq<Op>, j: nat) returns (id: string)
    requires j < |ops| && ops[j].CreateRecord? && Over(tenants, ops) && Apart(ops[j].tenant, tenants) && ops[j].key != ""
    requires Answered(ops, j, ops[j].tenant, ops[j].key)
    ensures Filed(Run(ops[..j + 1]), ops[j].tenant, ops[j].key, id)
    ensures Answer(ops, j).created.value.1 <==> Slot(ops[j].tenant, ops[j].key) in Run(ops[..j]).tables.index
    ensures ops[j].tenant != ""
  {
    hide Valid, Render, Filed, Apart;
    var s := Run(ops[..j]);
    ReachableIsValid(ops[..j]);
    ValidBasics(s);
    FinalIsAnswer(ops, j);
    OverUpTo(tenants, ops, j);
    OverUpTo(tenants, ops, j + 1);
    RunOwnedWithin(tenants, ops[..j]);
    NamedOwner(tenants, s, ops[j].workflow);
    CreateIndexes(ops, j);
    IndexIsPairIndex(tenants, ops[..j + 1], ops[j].tenant, ops[j].key);
    id := Run(ops[..j + 1]).tables.index[Slot(ops[j].tenant, ops[j].key)];
  }

  lemma NamedOwner(tenants: set<string>, s: State, workflow: string)
    requires OwnedWithin(tenants, s) && workflow in s.tables.workflows
    ensures s.tables.workflows[workflow].tenant != ""
  {
  }

  lemma CreateIndexes(ops: seq<Op>, j: nat)
    requires j < |ops| && ops[j].CreateRecord? && ops[j].key != ""
    requires Answered(ops, j, ops[j].tenant, ops[j].key)
    ensures ops[j].workflow in Run(ops[..j]).tables.workflows
    ensures Run(ops[..j]).tables.workflows[ops[j].workflow].tenant == ops[j].tenant
    ensures Slot(ops[j].tenant, ops[j].key) in Run(ops[..j + 1]).tables.index
    ensures Answer(ops, j).created.value.1 <==> Slot(ops[j].tenant, ops[j].key) in Run(ops[..j]).tables.index
  {
    hide Valid, Render, Slot;
    ReachableIsValid(ops[..j]);
    ValidBasics(Run(ops[..j]));
    FinalIsAnswer(ops, j);
  }

  // A successful create is a replay exactly when an earlier call of the tenant with the key succeeded.
  lemma ReplayedIff(tenants: set<string>, ops: seq<Op>, k: nat)
    requires k < |ops| && ops[k].CreateRecord? && Over(tenants, ops) && Apart(ops[k].tenant, tenants) && ops[k].key != ""
    requires Answered(ops, k, ops[k].tenant, ops[k].key)
    ensures Answer(ops, k).created.value.1 <==> exists j: nat :: j < k && Answered(ops, j, ops[k].tenant, ops[k].key)
  {
    hide Run, Apart, Answer, Filed;
    var tenant, key := ops[k].tenant, ops[k].key;
    var own := SuccessFiles(tenants, ops, k);
    OverUpTo(tenants, ops, k);
    IndexIsPairIndex(tenants, ops[..k], tenant, key);
    if Slot(tenant, key) in Run(ops[..k]).tables.index {
      var id :| Filed(Run(ops[..k]), tenant, key, id);
      var j := FilerOf(ops, k, tenant, key, id);
    }
    if j: nat :| j < k && Answered(ops, j, tenant, key) {
      var id := SuccessFiles(tenants, ops, j);
      StaysFiled(ops, j + 1, k, tenant, key, id);
    }
  }

  // ----- Lists -----

  // Listing and reading agree: a record is listed under a state exactly when reading it shows that
  // state, and under no state whenever it can be read at all.
  lemma ListsWhatIsRead(ops: seq<Op>, tenant: string, state: string, r: Record)
    ensures var s := Run(ops);
            r in Step(s, ListRecords(tenant, state)).1.records <==>
            Step(s, GetRecord(tenant, r.id)).1 == RecordRead(Ok(r)) && (state == "" || state == r.state)
  {
    ReachableIsValid(ops);
    ValidBasics(Run(ops));
  }

  // The tenant's audit list shows one more entry, the one the change left, and nobody else's does.
  lemma AuditShowsChange(s: State, s': State, r: Record, kind: Kind, tenant: string)
    requires WorkflowsFormed(s'.tables.workflows) && Stored(s, s', r, kind)
    requires WorkflowsFormed(s.tables.workflows)
    ensures var listed := Step(s, ListAuditEvents(tenant)).1.events;
            Step(s', ListAuditEvents(tenant)).1.events ==
            if tenant == r.tenant then listed + [Last(s'.tables.audit)] else listed
  {
    assert s'.tables.audit == s.tables.audit + [Last(s'.tables.audit)];
    AuditTrailSnoc(s.tables.audit, Last(s'.tables.audit), tenant);
  }

  // A workflow is made exactly for a tenant, a name and some states; no other error is answered.
  lemma WorkflowAnswers(ops: seq<Op>, k: nat)
    requires k < |ops| && ops[k].CreateWorkflow?
    ensures Answer(ops, k).WorkflowMade?
    ensures Answer(ops, k).workflow.Ok? <==> ops[k].tenant != "" && ops[k].name != "" && ops[k].states != []
    ensures Answer(ops, k).workflow.Err? ==> Answer(ops, k).workflow.error == InvalidWorkflow
  {
    hide Render, Run;
  }

  // A tenant's list shows exactly the workflows its own calls made.
  lemma ListsWhatWasMade(ops: seq<Op>, tenant: string, wf: Workflow)
    ensures wf in Step(Run(ops), ListWorkflows(tenant)).1.workflows <==>
            WorkflowOrigin(ops, wf.id).Some? && WorkflowOrigin(ops, wf.id).value.CreateWorkflow? &&
            var c := WorkflowOrigin(ops, wf.id).value;
            c.tenant == tenant && wf == Workflow(wf.id, tenant, c.name, c.fields, c.states, 1)
  {
    hide Run, WorkflowOrigin;
    WorkflowTellsCall(ops, wf.id);
    ReachableIsValid(ops);
    ValidBasics(Run(ops));
  }
}
