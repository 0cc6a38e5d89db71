// The MongoDB store as concurrent calls. Each create runs a replay check, a transaction that may
// be rerun, aborted or committed, and after a duplicate key a second replay check; each update
// reads, checks and writes conditionally. One step of one call is one event; any calls may
// interleave, any call may lose its connection, and a commit may succeed without being reported.

module MongoProtocol {
  import opened Domain
  import opened Tables
  import opened Outbox
  import opened Commits

  datatype Request =
    | Create(tenant: string, key: string, workflow: string, data: Option<Data>)
    | Update(tenant: string, id: string, expected: int, state: string, data: Option<Data>)

  // Broken is an error of the driver: it says nothing about what was committed.
  datatype Reply =
    | Made(record: Record, replay: bool)
    | Changed(record: Record)
    | Refused(error: StoreError)
    | Broken

  // Positions (missAt, readAt, at, endedAt) count commits. They only record when something was
  // observed, and `misread` that a workflow lookup failed; no step depends on them.
  datatype Phase =
    | Begun
    | KeyFound(recordId: string)
    | Callback(missAt: nat)
    | Drafted(missAt: nat, draft: Record, auditId: string, outboxId: string)
    | Duplicate
    | ReadDone(base: Record, readAt: nat)
    | Checked(base: Record, readAt: nat)
    | Written(base: Record, revised: Record, auditId: string, outboxId: string)
    | Finished(reply: Reply, at: nat, endedAt: nat, misread: bool)

  datatype Call = Call(request: Request, begunAt: nat, phase: Phase)

  // `used` remembers which call generated each object identifier.
  datatype Sys = Sys(db: Database, commits: seq<Entry>, used: map<string, nat>, calls: map<nat, Call>)

  datatype Event =
    | Invoke(call: nat, request: Request)
    | PreCheck(call: nat)
    | ReadReplay(call: nat)
    | Draft(call: nat, id: string, auditId: string, outboxId: string)
    | KeyClash(call: nat)
    | Fallback(call: nat)
    | Read(call: nat)
    | Check(call: nat)
    | CondWrite(call: nat, auditId: string, outboxId: string)
    | Commit(call: nat, reported: bool)
    | Rerun(call: nat)
    | Fail(call: nat)
    | Misread(call: nat)
    | Outsider(write: Write)

  const START := Sys(Empty(), [], map[], map[])

  function Keyed(db: Database, tenant: string, key: string): bool {
    key != "" && PairSlot(tenant, key) in db.index
  }

  function Goto(s: Sys, call: nat, phase: Phase): Sys
    requires call in s.calls
  {
    s.(calls := s.calls[call := s.calls[call].(phase := phase)])
  }

  function Answered(s: Sys, reply: Reply, at: nat): Phase {
    Finished(reply, at, |s.commits|, false)
  }

  function Lost(s: Sys): Phase {
    Finished(Broken, |s.commits|, |s.commits|, false)
  }

  // Any error of the workflow lookup is answered as an invalid workflow.
  function LookupFailed(s: Sys): Phase {
    Finished(Refused(InvalidWorkflow), |s.commits|, |s.commits|, true)
  }

  function CommitEntry(s: Sys, author: Author, w: Write): Sys {
    s.(db := Apply(PairSlot, s.db, w), commits := s.commits + [Entry(author, w)])
  }

  // ----- The steps of a create -----

  function AfterPreCheck(s: Sys, r: Request): Phase
    requires r.Create?
  {
    if Keyed(s.db, r.tenant, r.key) then KeyFound(s.db.index[PairSlot(r.tenant, r.key)])
    else Callback(|s.commits|)
  }

  // The record behind an idempotency entry; a dangling entry is an error.
  function AfterReadReplay(s: Sys, r: Request, recordId: string): Phase
    requires r.Create?
  {
    if recordId in s.db.records && s.db.records[recordId].tenant == r.tenant
    then Answered(s, Made(s.db.records[recordId], true), |s.commits|)
    else Lost(s)
  }

  function AfterDraft(s: Sys, r: Request, missAt: nat, id: string, auditId: string, outboxId: string): Phase
    requires r.Create? && WorkflowsFormed(s.db.workflows)
  {
    if !Usable(s.db, r.tenant, r.workflow) then Answered(s, Refused(InvalidWorkflow), missAt)
    else Drafted(missAt, NewRecord(s.db.workflows[r.workflow], r.tenant, r.key, r.data, id), auditId, outboxId)
  }

  function AfterFallback(s: Sys, r: Request): Phase
    requires r.Create?
  {
    if Keyed(s.db, r.tenant, r.key) then KeyFound(s.db.index[PairSlot(r.tenant, r.key)]) else Lost(s)
  }

  // ----- The steps of an update -----

  function AfterRead(s: Sys, r: Request): Phase
    requires r.Update?
  {
    if r.id !in s.db.records || s.db.records[r.id].tenant != r.tenant
    then Answered(s, Refused(NotFound), |s.commits|)
    else if s.db.records[r.id].version != r.expected then Answered(s, Refused(Conflict), |s.commits|)
    else ReadDone(s.db.records[r.id], |s.commits|)
  }

  function AfterCheck(s: Sys, r: Request, base: Record, readAt: nat): Phase
    requires r.Update?
  {
    if !Usable(s.db, r.tenant, base.workflow) then Answered(s, Refused(InvalidWorkflow), readAt)
    else if r.state != "" && r.state !in s.db.workflows[base.workflow].states
    then Answered(s, Refused(InvalidWorkflow), readAt)
    else Checked(base, readAt)
  }

  function Revised(r: Request, current: Record): Record
    requires r.Update?
  {
    current.(state := if r.state != "" then r.state else current.state,
             data := if r.data.Some? then r.data else current.data,
             version := current.version + 1)
  }

  function AfterCondWrite(s: Sys, r: Request, auditId: string, outboxId: string): Phase
    requires r.Update?
  {
    if r.id in s.db.records && s.db.records[r.id].tenant == r.tenant && s.db.records[r.id].version == r.expected
    then Written(s.db.records[r.id], Revised(r, s.db.records[r.id]), auditId, outboxId)
    else Answered(s, Refused(Conflict), |s.commits|)
  }

  // ----- Committing -----

  // The database lets a transaction commit only if the unique index and the conditional write
  // still hold: a rival that got there first forces a rerun or an abort instead.
  predicate MayCommit(s: Sys, r: Request, phase: Phase) {
    match phase
    case Drafted(_, draft, _, _) =>
      draft.idempotency == "" || PairSlot(draft.tenant, draft.idempotency) !in s.db.index
    case Written(base, _, _, _) => base.id in s.db.records && s.db.records[base.id].version == base.version
    case _ => false
  }

  function WriteOf(phase: Phase): Write
    requires phase.Drafted? || phase.Written?
  {
    match phase
    case Drafted(_, draft, auditId, outboxId) => AddRecord(draft, auditId, outboxId)
    case Written(_, revised, auditId, outboxId) => Revise(revised, auditId, outboxId)
  }

  function ReplyOf(phase: Phase): Reply
    requires phase.Drafted? || phase.Written?
  {
    match phase
    case Drafted(_, draft, _, _) => Made(draft, false)
    case Written(_, revised, _, _) => Changed(revised)
  }

  // A transient error sends a transaction back to the start of its callback.
  function AfterRerun(call: Call): Phase {
    match call.phase
    case Drafted(missAt, _, _, _) => Callback(missAt)
    case Callback(missAt) => Callback(missAt)
    case _ => Callback(call.begunAt)
  }

  // ----- Events -----

  predicate InTransaction(p: Phase) {
    p.Callback? || p.Drafted? || p.ReadDone? || p.Checked? || p.Written?
  }

  predicate LooksUpWorkflow(call: Call) {
    (call.request.Create? && call.phase.Callback?) || (call.request.Update? && call.phase.ReadDone?)
  }

  ghost predicate Enabled(s: Sys, e: Event) {
    match e
    case Invoke(c, _) => c !in s.calls
    case PreCheck(c) => c in s.calls && s.calls[c].phase.Begun? && s.calls[c].request.Create?
    case ReadReplay(c) => c in s.calls && s.calls[c].phase.KeyFound? && s.calls[c].request.Create?
    case Draft(c, id, auditId, outboxId) =>
      && c in s.calls && s.calls[c].phase.Callback? && s.calls[c].request.Create?
      && id !in s.used && auditId !in s.used && outboxId !in s.used
      && id != auditId && id != outboxId && auditId != outboxId
      && WorkflowsFormed(s.db.workflows)
    case KeyClash(c) =>
      c in s.calls && s.calls[c].phase.Drafted? && s.calls[c].request.Create?
      && Keyed(s.db, s.calls[c].request.tenant, s.calls[c].request.key)
    case Fallback(c) => c in s.calls && s.calls[c].phase.Duplicate? && s.calls[c].request.Create?
    case Read(c) => c in s.calls && s.calls[c].phase.Callback? && s.calls[c].request.Update?
    case Check(c) => c in s.calls && s.calls[c].phase.ReadDone? && s.calls[c].request.Update?
    case CondWrite(c, auditId, outboxId) =>
      && c in s.calls && s.calls[c].phase.Checked? && s.calls[c].request.Update?
      && auditId !in s.used && outboxId !in s.used && auditId != outboxId
    case Commit(c, _) => c in s.calls && MayCommit(s, s.calls[c].request, s.calls[c].phase)
    case Rerun(c) => c in s.calls && InTransaction(s.calls[c].phase)
    case Fail(c) => c in s.calls && !s.calls[c].phase.Finished?
    case Misread(c) => c in s.calls && LooksUpWorkflow(s.calls[c])
    case Outsider(w) => (w.AddWorkflow? || w.Bookkeep?) && Allowed(PairSlot, s.db, w)
  }

  ghost function Do(s: Sys, e: Event): Sys
    requires Enabled(s, e)
  {
    match e
    case Invoke(c, r) =>
      s.(calls := s.calls[c := Call(r, |s.commits|, if r.Create? then Begun else Callback(|s.commits|))])
    case PreCheck(c) => Goto(s, c, AfterPreCheck(s, s.calls[c].request))
    case ReadReplay(c) => Goto(s, c, AfterReadReplay(s, s.calls[c].request, s.calls[c].phase.recordId))
    case Draft(c, id, auditId, outboxId) =>
      Goto(s.(used := s.used[id := c][auditId := c][outboxId := c]), c,
           AfterDraft(s, s.calls[c].request, s.calls[c].phase.missAt, id, auditId, outboxId))
    case KeyClash(c) => Goto(s, c, Duplicate)
    case Fallback(c) => Goto(s, c, AfterFallback(s, s.calls[c].request))
    case Read(c) => Goto(s, c, AfterRead(s, s.calls[c].request))
    case Check(c) =>
      Goto(s, c, AfterCheck(s, s.calls[c].request, s.calls[c].phase.base, s.calls[c].phase.readAt))
    case CondWrite(c, auditId, outboxId) =>
      Goto(s.(used := s.used[auditId := c][outboxId := c]), c,
           AfterCondWrite(s, s.calls[c].request, auditId, outboxId))
    case Commit(c, reported) =>
      var phase := s.calls[c].phase;
      Goto(CommitEntry(s, ByCall(c), WriteOf(phase)), c,
           Finished(if reported then ReplyOf(phase) else Broken, |s.commits|, |s.commits| + 1, false))
    case Rerun(c) => Goto(s, c, AfterRerun(s.calls[c]))
    case Fail(c) => Goto(s, c, Lost(s))
    case Misread(c) => Goto(s, c, LookupFailed(s))
    case Outsider(w) => CommitEntry(s, Outside, w)
  }

  // The events lead from the empty store to this state, each enabled where it happens.
  ghost predicate Reaches(events: seq<Event>, s: Sys) {
    if events == [] then s == START
    else exists p :: Reaches(Init(events), p) && Enabled(p, Last(events)) && s == Do(p, Last(events))
  }

  // ----- What a reply means -----

  // The reply is what the atomic operation of the memory store's interface answers in the state
  // after the first `at` commits; a successful write is the very next commit, made by this call.
  ghost predicate Justified(commits: seq<Entry>, call: nat, r: Request, reply: Reply, at: nat)
    requires at <= |commits|
  {
    var db := After(commits[..at]);
    match r
    case Create(t, key, workflow, data) =>
      WorkflowsFormed(db.workflows) &&
      (match reply
       case Made(record, true) =>
         DecideCreate(ReplayFirst, PairSlot, db, t, key, workflow, data, "") == Replay(record)
       case Made(record, false) =>
         DecideCreate(ReplayFirst, PairSlot, db, t, key, workflow, data, record.id) == Insert(record)
         && at < |commits| && commits[at].author == ByCall(call)
         && commits[at].write.AddRecord? && commits[at].write.record == record
       case Refused(error) =>
         DecideCreate(ReplayFirst, PairSlot, db, t, key, workflow, data, "") == Refuse(error)
       case Changed(_) => false
       case Broken => true)
    case Update(t, id, expected, state, data) =>
      match reply
      case Changed(record) =>
        DecideUpdate(db, t, id, expected, state, data) == Ok(record)
        && at < |commits| && commits[at].author == ByCall(call)
        && commits[at].write.Revise? && commits[at].write.record == record
      case Refused(error) => DecideUpdate(db, t, id, expected, state, data) == Err(error)
      case Made(_, _) => false
      case Broken => true
  }

  // ----- Invariant -----

  ghost predicate KeyMissed(commits: seq<Entry>, r: Request, begunAt: nat, missAt: nat)
    requires r.Create?
  {
    begunAt <= missAt <= |commits| && !Keyed(After(commits[..missAt]), r.tenant, r.key)
  }

  // The record an update has read, seen from the present: gone on to a later version or unchanged.
  ghost predicate WasRead(s: Sys, call: Call, base: Record, readAt: nat)
    requires call.request.Update?
  {
    var r := call.request;
    && call.begunAt <= readAt <= |s.commits|
    && r.id in After(s.commits[..readAt]).records && After(s.commits[..readAt]).records[r.id] == base
    && base.id == r.id && base.tenant == r.tenant && base.version == r.expected
  }

  ghost predicate StillBase(db: Database, base: Record) {
    base.id in db.records && Follows(base, db.records[base.id])
  }

  ghost predicate StateKnown(db: Database, r: Request, base: Record)
    requires r.Update?
  {
    Usable(db, r.tenant, base.workflow) && (r.state != "" ==> r.state in db.workflows[base.workflow].states)
  }

  ghost predicate Reserved(s: Sys, call: nat, id: string) {
    id in s.used && s.used[id] == call
  }

  ghost predicate InOutbox(db: Database, id: string) {
    exists i :: 0 <= i < |db.outbox| && db.outbox[i].id == id
  }

  ghost predicate CallInvariant(s: Sys, c: nat, call: Call) {
    var r := call.request;
    call.begunAt <= |s.commits| &&
    match call.phase
    case Begun => r.Create?
    case KeyFound(id) => r.Create? && Keyed(s.db, r.tenant, r.key) && s.db.index[PairSlot(r.tenant, r.key)] == id
    case Callback(missAt) => r.Create? ==> KeyMissed(s.commits, r, call.begunAt, missAt)
    case Drafted(missAt, draft, auditId, outboxId) =>
      && r.Create? && KeyMissed(s.commits, r, call.begunAt, missAt)
      && Usable(s.db, r.tenant, r.workflow)
      && s.db.workflows[r.workflow].id == r.workflow && s.db.workflows[r.workflow].states != []
      && draft == NewRecord(s.db.workflows[r.workflow], r.tenant, r.key, r.data, draft.id)
      && Reserved(s, c, draft.id) && draft.id !in s.db.records
      && Reserved(s, c, outboxId) && !InOutbox(s.db, outboxId)
    case Duplicate => r.Create? && Keyed(s.db, r.tenant, r.key)
    case ReadDone(base, readAt) => r.Update? && WasRead(s, call, base, readAt) && StillBase(s.db, base)
    case Checked(base, readAt) =>
      r.Update? && WasRead(s, call, base, readAt) && StillBase(s.db, base) && StateKnown(s.db, r, base)
    case Written(base, revised, auditId, outboxId) =>
      && r.Update? && base.id == r.id && base.tenant == r.tenant && base.version == r.expected
      && StillBase(s.db, base) && StateKnown(s.db, r, base)
      && revised == Revised(r, base)
      && Reserved(s, c, outboxId) && !InOutbox(s.db, outboxId)
    case Finished(reply, at, endedAt, misread) =>
      && (!reply.Broken? ==> call.begunAt <= at <= endedAt <= |s.commits|)
      && (!reply.Broken? && !misread ==> Justified(s.commits, c, r, reply, at))
      && (misread ==> reply == Refused(InvalidWorkflow) && LookedUp(s, call, endedAt))
  }

  // What a failed lookup leaves known: a create had found no replay, an update had read its record.
  ghost predicate LookedUp(s: Sys, call: Call, endedAt: nat) {
    if call.request.Create? then exists missAt: nat :: KeyMissed(s.commits, call.request, call.begunAt, missAt)
    else exists base: Record, readAt: nat :: WasRead(s, call, base, readAt) && readAt <= endedAt
  }

  ghost predicate SysInvariant(s: Sys) {
    && Legal(s.commits)
    && s.db == After(s.commits)
    && (forall id :: id in s.db.records ==> id in s.used)
    && (forall i :: 0 <= i < |s.db.outbox| ==> s.db.outbox[i].id in s.used)
    && DistinctIds(s.db.outbox)
    && forall c :: c in s.calls ==> CallInvariant(s, c, s.calls[c])
  }
}
