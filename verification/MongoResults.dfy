// What callers of the MongoDB store can rely on, in every state any interleaving reaches.

module MongoResults {
  import opened Domain
  import opened Tables
  import opened Outbox
  import opened Commits
  import opened MongoProtocol
  import opened MongoProofs
  import opened MongoEffects

  ghost predicate Answers(s: Sys, c: nat, reply: Reply) {
    c in s.calls && s.calls[c].phase.Finished? && s.calls[c].phase.reply == reply && !reply.Broken?
  }

  // The answer is what the atomic operation gives at some moment of the call.
  ghost predicate Founded(s: Sys, c: nat)
    requires c in s.calls && s.calls[c].phase.Finished?
  {
    exists k: nat :: s.calls[c].begunAt <= k <= s.calls[c].phase.endedAt && FoundedAt(s, c, k)
  }

  ghost predicate FoundedAt(s: Sys, c: nat, k: nat)
    requires c in s.calls && s.calls[c].phase.Finished?
  {
    k <= |s.commits| && Justified(s.commits, c, s.calls[c].request, s.calls[c].phase.reply, k)
  }

  // What has to be so for an answer InvalidWorkflow: a create began when the tenant had no such
  // workflow; an update names a state its record's workflow does not have.
  ghost predicate WorkflowAtFault(s: Sys, call: Call)
    requires call.begunAt <= |s.commits|
  {
    match call.request
    case Create(t, _, workflow, _) => !Usable(After(s.commits[..call.begunAt]), t, workflow)
    case Update(_, id, _, state, _) =>
      id in s.db.records && state != "" && state !in StatesOf(s.db, s.db.records[id].workflow)
  }

  // Replies are linearizable: each answered call whose workflow lookup did not fail has a point in the
  // commit order, between the commits seen when it began and when it ended, where the atomic operation
  // gives exactly its answer. If an answer tells of a write, the commit at that point is the call's own
  // and its only one; every other answered call, refused or replayed, committed nothing.
  lemma RepliesLinearize(events: seq<Event>, s: Sys, c: nat, reply: Reply)
    requires Reaches(events, s) && Answers(s, c, reply)
    ensures var Finished(_, at, endedAt, misread) := s.calls[c].phase;
            && s.calls[c].begunAt <= at <= endedAt <= |s.commits|
            && (!misread ==> Justified(s.commits, c, s.calls[c].request, reply, at))
            && (misread ==> reply == Refused(InvalidWorkflow))
            && (TellsWrite(reply) ==> at < |s.commits|)
            && forall i :: 0 <= i < |s.commits| ==> (s.commits[i].author == ByCall(c) <==> TellsWrite(reply) && i == at)
    ensures Legal(s.commits) && s.db == After(s.commits)
  {
    hide Reaches, After, Legal;
    ReachableInvariant(events, s);
    assert CallInvariant(s, c, s.calls[c]);
    ReachableOwned(events, s);
    forall i | 0 <= i < |s.commits| && s.commits[i].author == ByCall(c) ensures TellsWrite(reply) && i == s.calls[c].phase.at {
      assert EntryOwned(s, i);
    }
  }

  // Exactly when an answer is founded, failed lookups included: every answer but InvalidWorkflow always
  // is, and InvalidWorkflow is if and only if the workflow is at fault.
  lemma FoundedIff(events: seq<Event>, s: Sys, c: nat, reply: Reply)
    requires Reaches(events, s) && Answers(s, c, reply)
    ensures s.calls[c].begunAt <= |s.commits|
    ensures Founded(s, c) <==> (reply == Refused(InvalidWorkflow) ==> WorkflowAtFault(s, s.calls[c]))
  {
    hide Reaches, After, Legal, Justified, WorkflowAtFault;
    RepliesLinearize(events, s, c, reply);
    var call := s.calls[c];
    if !call.phase.misread {
      assert FoundedAt(s, c, call.phase.at);
    }
    if reply == Refused(InvalidWorkflow) {
      if call.request.Create? {
        RefusedCreateIff(events, s, c);
      } else {
        RefusedUpdateIff(events, s, c);
      }
    }
  }

  // When a create may be refused at position k: a moment at which neither workflow nor key is known.
  lemma CreateRefusedAt(commits: seq<Entry>, c: nat, r: Request, k: nat)
    requires Legal(commits) && k <= |commits| && r.Create?
    ensures Justified(commits, c, r, Refused(InvalidWorkflow), k) <==>
            !Usable(After(commits[..k]), r.tenant, r.workflow) && !Keyed(After(commits[..k]), r.tenant, r.key)
  {
    hide Sourced, Indexed;
    LegalPrefix(commits, k);
    LegalInvariant(commits[..k]);
  }

  // Workflows and keys stay, so the first moment is as good as any.
  lemma UnknownEarlier(commits: seq<Entry>, b: nat, k: nat, tenant: string, key: string, workflow: string)
    requires Legal(commits) && b <= k <= |commits|
    ensures Usable(After(commits[..b]), tenant, workflow) ==> Usable(After(commits[..k]), tenant, workflow)
    ensures Keyed(After(commits[..b]), tenant, key) ==> Keyed(After(commits[..k]), tenant, key)
  {
    hide After, Legal;
    Between(commits, b, k);
  }

  // For any stretch of a commit order: a refusal is founded somewhere in it exactly when it is at its
  // beginning.
  lemma RefusedCreateWithin(commits: seq<Entry>, c: nat, r: Request, b: nat, e: nat)
    requires Legal(commits) && b <= e <= |commits| && r.Create?
    ensures (exists k: nat :: b <= k <= e && Justified(commits, c, r, Refused(InvalidWorkflow), k)) <==>
            !Usable(After(commits[..b]), r.tenant, r.workflow) && !Keyed(After(commits[..b]), r.tenant, r.key)
  {
    hide Legal, After, Justified, Usable, Keyed;
    CreateRefusedAt(commits, c, r, b);
    if k: nat :| b <= k <= e && Justified(commits, c, r, Refused(InvalidWorkflow), k) {
      CreateRefusedAt(commits, c, r, k);
      UnknownEarlier(commits, b, k, r.tenant, r.key, r.workflow);
    }
  }

  lemma RefusedCreateIff(events: seq<Event>, s: Sys, c: nat)
    requires Reaches(events, s) && Answers(s, c, Refused(InvalidWorkflow)) && s.calls[c].request.Create?
    ensures s.calls[c].begunAt <= |s.commits| && (Founded(s, c) <==> WorkflowAtFault(s, s.calls[c]))
  {
    hide Reaches, After, Legal, Justified, Usable, Keyed;
    RepliesLinearize(events, s, c, Refused(InvalidWorkflow));
    var call := s.calls[c];
    var r, b, e := call.request, call.begunAt, call.phase.endedAt;
    RefusedCreateWithin(s.commits, c, r, b, e);
    if k: nat :| b <= k <= e && Justified(s.commits, c, r, Refused(InvalidWorkflow), k) {
      assert FoundedAt(s, c, k);
    }
    if Founded(s, c) {
      var k: nat :| b <= k <= e && FoundedAt(s, c, k);
      assert Justified(s.commits, c, r, Refused(InvalidWorkflow), k);
    }
    NoKeyAtBegin(events, s, c);
  }

  // A create that was refused had met no replay.
  lemma NoKeyAtBegin(events: seq<Event>, s: Sys, c: nat)
    requires Reaches(events, s) && Answers(s, c, Refused(InvalidWorkflow)) && s.calls[c].request.Create?
    requires s.calls[c].begunAt <= |s.commits|
    ensures !Keyed(After(s.commits[..s.calls[c].begunAt]), s.calls[c].request.tenant, s.calls[c].request.key)
  {
    hide Reaches, After, Legal, Justified, Usable, Keyed;
    ReachableInvariant(events, s);
    var call := s.calls[c];
    var r := call.request;
    assert CallInvariant(s, c, call);
    if call.phase.misread {
      var missAt: nat :| KeyMissed(s.commits, r, call.begunAt, missAt);
      UnknownEarlier(s.commits, call.begunAt, missAt, r.tenant, r.key, r.workflow);
    } else {
      CreateRefusedAt(s.commits, c, r, call.phase.at);
      UnknownEarlier(s.commits, call.begunAt, call.phase.at, r.tenant, r.key, r.workflow);
    }
  }

  // A record's workflow, and the states of that workflow, are the same at every moment.
  lemma WorkflowStays(commits: seq<Entry>, k: nat, id: string)
    requires Legal(commits) && k <= |commits| && id in After(commits[..k]).records
    ensures var before, db := After(commits[..k]), After(commits);
            && id in db.records && db.records[id].workflow == before.records[id].workflow
            && StatesOf(db, db.records[id].workflow) == StatesOf(before, before.records[id].workflow)
  {
    hide Legal, After, Sourced, Indexed;
    LegalPrefix(commits, k);
    LegalInvariant(commits[..k]);
    LaterGrows(commits, k);
  }

  lemma RefusedUpdateIff(events: seq<Event>, s: Sys, c: nat)
    requires Reaches(events, s) && Answers(s, c, Refused(InvalidWorkflow)) && s.calls[c].request.Update?
    ensures s.calls[c].begunAt <= |s.commits| && (Founded(s, c) <==> WorkflowAtFault(s, s.calls[c]))
  {
    hide Reaches, After, Legal;
    RepliesLinearize(events, s, c, Refused(InvalidWorkflow));
    ReachableInvariant(events, s);
    var call := s.calls[c];
    var r := call.request;
    assert CallInvariant(s, c, call);
    if Founded(s, c) {
      var k: nat :| call.begunAt <= k <= call.phase.endedAt && FoundedAt(s, c, k);
      WorkflowStays(s.commits, k, r.id);
    } else {
      assert call.phase.misread by {
        assert !FoundedAt(s, c, call.phase.at);
      }
      var base: Record, readAt: nat :| WasRead(s, call, base, readAt) && readAt <= call.phase.endedAt;
      WorkflowStays(s.commits, readAt, r.id);
      assert !FoundedAt(s, c, readAt);
    }
  }

  // The unfounded answer occurs. Here a create is told that its workflow is invalid although it was
  // valid at every moment of the call.
  lemma MisreadIsUnfounded(wf: Workflow, data: Option<Data>) returns (events: seq<Event>, s: Sys)
    requires wf.states != []
    ensures Reaches(events, s) && Answers(s, 0, Refused(InvalidWorkflow))
    ensures s.calls[0].request == Create(wf.tenant, "", wf.id, data) && s.calls[0].begunAt == 1 == |s.commits|
    ensures !Founded(s, 0)
    ensures var db := After(s.commits[..1]);
            WorkflowsFormed(db.workflows) &&
            DecideCreate(ReplayFirst, PairSlot, db, wf.tenant, "", wf.id, data, "").Insert?
  {
    hide Reaches, Allowed, Founded;
    var w := AddWorkflow(wf);
    var request := Create(wf.tenant, "", wf.id, data);
    NoEvents();
    MayAdd(wf);
    events, s := OneMore([], START, Outsider(w));
    events, s := OneMore(events, s, Invoke(0, request));
    assert s.calls == map[0 := Call(request, 1, Begun)] && s.commits == [Entry(Outside, w)];
    events, s := OneMore(events, s, PreCheck(0));
    assert s.calls == map[0 := Call(request, 1, Callback(1))] && s.commits == [Entry(Outside, w)];
    events, s := OneMore(events, s, Misread(0));
    assert s.commits[..1] == [] + [Entry(Outside, w)];
    AfterSnoc([], Entry(Outside, w));
    FoundedIff(events, s, 0, Refused(InvalidWorkflow));
  }

  lemma MayAdd(wf: Workflow)
    requires wf.states != []
    ensures Allowed(PairSlot, Empty(), AddWorkflow(wf))
  {
  }

  lemma NoEvents()
    ensures Reaches([], START)
  {
  }

  lemma OneMore(events: seq<Event>, s: Sys, e: Event) returns (more: seq<Event>, s': Sys)
    requires Reaches(events, s) && Enabled(s, e)
    ensures Reaches(more, s') && more == events + [e] && s' == Do(s, e)
  {
    hide Enabled, Do;
    more, s' := events + [e], Do(s, e);
    InitOfSnoc(events, e);
  }

  // Two committed records carry the same tenant and the same key.
  ghost predicate SameKey(db: Database, a: string, b: string) {
    && a in db.records && b in db.records && db.records[a].idempotency != ""
    && db.records[a].tenant == db.records[b].tenant
    && db.records[a].idempotency == db.records[b].idempotency
  }

  // The committed tables keep their invariant: outbox and audit match the records, versions have
  // no gaps, and at most one record carries a tenant and key.
  lemma TablesStayConsistent(events: seq<Event>, s: Sys, a: string, b: string)
    requires Reaches(events, s)
    ensures Invariant(PairSlot, s.db)
    ensures SameKey(s.db, a, b) ==> a == b
    ensures GapFree(History(s.db.outbox, a))
    ensures |History(s.db.outbox, a)| == if a in s.db.records then s.db.records[a].version else 0
    ensures Revisions(s.commits, a) == if a in s.db.records then s.db.records[a].version - 1 else 0
    ensures DistinctIds(s.db.outbox)
  {
    hide Reaches, CallInvariant, WellFormed, GapFree, History;
    ReachableInvariant(events, s);
    LegalInvariant(s.commits);
    HistoryOfRecord(s.db, a);
    VersionCountsRevisions(s.commits, a);
    if SameKey(s.db, a, b) {
      OneRecordPerKey(PairSlot, s.db, a, b);
    }
  }

  // Every successful answer for a key, replayed or not, carries the identifier of the one record
  // filed under it.
  lemma AnswersCarryTheRecord(events: seq<Event>, s: Sys, c: nat, record: Record, replay: bool)
    requires Reaches(events, s) && Answers(s, c, Made(record, replay))
    requires s.calls[c].request.Create? && s.calls[c].request.key != ""
    ensures var r := s.calls[c].request;
            && Keyed(s.db, r.tenant, r.key)
            && s.db.index[PairSlot(r.tenant, r.key)] == record.id
            && record.id in s.db.records
            && s.db.records[record.id].tenant == r.tenant
            && s.db.records[record.id].idempotency == r.key
  {
    hide Reaches, Legal, WellFormed, Sourced;
    RepliesLinearize(events, s, c, Made(record, replay));
    var r, at := s.calls[c].request, s.calls[c].phase.at;
    if replay {
      ReplayWasIndexed(s.commits, c, r, record, at);
    } else {
      InsertIsIndexed(s.commits, c, r, record, at);
    }
    LegalInvariant(s.commits);
    KeyLeadsToRecord(s.db, r.tenant, r.key);
  }

  lemma ReplayWasIndexed(commits: seq<Entry>, c: nat, r: Request, record: Record, at: nat)
    requires Legal(commits) && at <= |commits| && r.Create? && r.key != ""
    requires Justified(commits, c, r, Made(record, true), at)
    ensures Keyed(After(commits), r.tenant, r.key)
    ensures After(commits).index[PairSlot(r.tenant, r.key)] == record.id
  {
    hide Sourced;
    LegalPrefix(commits, at);
    LegalInvariant(commits[..at]);
    LaterGrows(commits, at);
    KeyLeadsToRecord(After(commits[..at]), r.tenant, r.key);
  }

  lemma InsertIsIndexed(commits: seq<Entry>, c: nat, r: Request, record: Record, at: nat)
    requires Legal(commits) && at <= |commits| && r.Create? && r.key != ""
    requires Justified(commits, c, r, Made(record, false), at)
    ensures !Keyed(After(commits[..at]), r.tenant, r.key)
    ensures Keyed(After(commits[..at + 1]), r.tenant, r.key)
    ensures Keyed(After(commits), r.tenant, r.key)
    ensures After(commits).index[PairSlot(r.tenant, r.key)] == record.id
  {
    hide Legal, After, DecideCreate, Apply, Grows, Keyed;
    NextState(commits, at);
    LaterGrows(commits, at + 1);
    InsertFiles(After(commits[..at]), r, record, commits[at].write);
    KeyedGrows(After(commits[..at + 1]), After(commits), r.tenant, r.key);
  }

  lemma InsertFiles(db: Database, r: Request, record: Record, w: Write)
    requires r.Create? && r.key != "" && WorkflowsFormed(db.workflows)
    requires DecideCreate(ReplayFirst, PairSlot, db, r.tenant, r.key, r.workflow, r.data, record.id) == Insert(record)
    requires w.AddRecord? && w.record == record
    ensures !Keyed(db, r.tenant, r.key)
    ensures var db' := Apply(PairSlot, db, w);
            Keyed(db', r.tenant, r.key) && db'.index[PairSlot(r.tenant, r.key)] == record.id
  {
  }

  // At most one call is told that it created the record for a key.
  lemma OneOriginalPerKey(events: seq<Event>, s: Sys, c: nat, d: nat, a: Record, b: Record)
    requires Reaches(events, s) && Answers(s, c, Made(a, false)) && Answers(s, d, Made(b, false))
    requires s.calls[c].request.Create? && s.calls[d].request.Create?
    requires s.calls[c].request.key == s.calls[d].request.key != ""
    requires s.calls[c].request.tenant == s.calls[d].request.tenant
    ensures c == d
  {
    hide Reaches, Legal, Keyed;
    RepliesLinearize(events, s, c, Made(a, false));
    RepliesLinearize(events, s, d, Made(b, false));
    var p, q := s.calls[c].phase.at, s.calls[d].phase.at;
    InsertIsIndexed(s.commits, c, s.calls[c].request, a, p);
    InsertIsIndexed(s.commits, d, s.calls[d].request, b, q);
    var r := s.calls[c].request;
    if p < q {
      Between(s.commits, p + 1, q);
      KeyedGrows(After(s.commits[..p + 1]), After(s.commits[..q]), r.tenant, r.key);
    } else if q < p {
      Between(s.commits, q + 1, p);
      KeyedGrows(After(s.commits[..q + 1]), After(s.commits[..p]), r.tenant, r.key);
    }
  }

  lemma KeyedGrows(a: Database, b: Database, tenant: string, key: string)
    requires Grows(a, b) && Keyed(a, tenant, key)
    ensures Keyed(b, tenant, key) && b.index[PairSlot(tenant, key)] == a.index[PairSlot(tenant, key)]
  {
  }

  // A replay check never meets a dangling key: whenever a key is indexed, and in particular after
  // a duplicate-key abort, looking it up yields the tenant's record.
  lemma FindReplayNeverDangles(events: seq<Event>, s: Sys, c: nat)
    requires Reaches(events, s) && c in s.calls
    ensures Enabled(s, Fallback(c)) ==> AfterFallback(s, s.calls[c].request).KeyFound?
    ensures Enabled(s, ReadReplay(c)) ==>
              AfterReadReplay(s, s.calls[c].request, s.calls[c].phase.recordId).reply.Made?
    ensures forall slot :: slot in s.db.index ==>
              s.db.index[slot] in s.db.records && s.db.records[s.db.index[slot]].tenant == slot.0
  {
    hide Reaches, CallInvariant, After, WellFormed, Sourced, AfterFallback, AfterReadReplay;
    ReachableInvariant(events, s);
    LegalInvariant(s.commits);
    if Enabled(s, Fallback(c)) {
      FallbackKeeps(s, c);
    }
    if Enabled(s, ReadReplay(c)) {
      ReadReplayKeeps(s, c);
    }
    forall slot | slot in s.db.index
      ensures s.db.index[slot] in s.db.records && s.db.records[s.db.index[slot]].tenant == slot.0
    {
      var r := s.db.records[s.db.index[slot]];
      assert PairSlot(r.tenant, r.idempotency) == slot;
    }
  }

  // The commit of a successful update moves the record from the expected version to the next.
  lemma ChangeMovesVersion(commits: seq<Entry>, c: nat, r: Request, record: Record, at: nat)
    requires Legal(commits) && at <= |commits| && r.Update?
    requires Justified(commits, c, r, Changed(record), at)
    ensures var before, after := After(commits[..at]), After(commits[..at + 1]);
            && r.id in before.records && before.records[r.id].version == r.expected
            && r.id in after.records && after.records[r.id].version == r.expected + 1
  {
    hide Sourced, Indexed;
    LegalPrefix(commits, at);
    LegalInvariant(commits[..at]);
    NextState(commits, at);
  }

  // No lost update: two successful updates of a record never had the same expected version.
  lemma NoSharedVersion(events: seq<Event>, s: Sys, c: nat, d: nat, a: Record, b: Record)
    requires Reaches(events, s) && Answers(s, c, Changed(a)) && Answers(s, d, Changed(b))
    requires s.calls[c].request.Update? && s.calls[d].request.Update?
    requires s.calls[c].request.id == s.calls[d].request.id
    requires s.calls[c].request.expected == s.calls[d].request.expected
    ensures c == d
  {
    hide Reaches, Legal, After, Justified;
    RepliesLinearize(events, s, c, Changed(a));
    RepliesLinearize(events, s, d, Changed(b));
    var p, q := s.calls[c].phase.at, s.calls[d].phase.at;
    ChangeMovesVersion(s.commits, c, s.calls[c].request, a, p);
    ChangeMovesVersion(s.commits, d, s.calls[d].request, b, q);
    assert s.commits[p].author == ByCall(c) && s.commits[q].author == ByCall(d);
    if p < q {
      Between(s.commits, p + 1, q);
    } else if q < p {
      Between(s.commits, q + 1, p);
    }
  }

  // ----- What a replay returns -----

  // The replayed record at the moment it was looked up.
  lemma ReplayIsCurrent(commits: seq<Entry>, c: nat, r: Request, again: Record, at: nat)
    requires Legal(commits) && at <= |commits| && r.Create? && r.key != ""
    requires Justified(commits, c, r, Made(again, true), at)
    ensures var db := After(commits[..at]);
            Keyed(db, r.tenant, r.key) && again.id in db.records && db.records[again.id] == again
  {
    hide Sourced;
    LegalPrefix(commits, at);
    LegalInvariant(commits[..at]);
    KeyLeadsToRecord(After(commits[..at]), r.tenant, r.key);
  }

  lemma InsertIsFirst(commits: seq<Entry>, c: nat, r: Request, orig: Record, at: nat)
    requires Legal(commits) && at <= |commits| && r.Create?
    requires Justified(commits, c, r, Made(orig, false), at)
    ensures at < |commits| && orig.version == 1
    ensures var db := After(commits[..at + 1]); orig.id in db.records && db.records[orig.id] == orig
  {
    hide After, Legal;
    NextState(commits, at);
  }

  // A replay returns the original record if and only if no update of it was committed before the
  // replay looked it up: otherwise it returns the record as it then was.
  lemma ReplayIsOriginalIff(events: seq<Event>, s: Sys, c: nat, d: nat, orig: Record, again: Record)
    requires Reaches(events, s) && Answers(s, c, Made(orig, false)) && Answers(s, d, Made(again, true))
    requires s.calls[c].request.Create? && s.calls[d].request.Create?
    requires s.calls[c].request.key == s.calls[d].request.key != ""
    requires s.calls[c].request.tenant == s.calls[d].request.tenant
    ensures s.calls[d].phase.at <= |s.commits|
    ensures again == orig <==> Revisions(s.commits[..s.calls[d].phase.at], orig.id) == 0
  {
    hide Reaches, Legal, After, Justified, Keyed;
    var p, q := s.calls[c].phase.at, s.calls[d].phase.at;
    var r, t := s.calls[c].request, s.calls[d].request;
    RepliesLinearize(events, s, c, Made(orig, false));
    RepliesLinearize(events, s, d, Made(again, true));
    AnswersCarryTheRecord(events, s, c, orig, false);
    AnswersCarryTheRecord(events, s, d, again, true);
    InsertIsFirst(s.commits, c, r, orig, p);
    InsertIsIndexed(s.commits, c, r, orig, p);
    ReplayIsCurrent(s.commits, d, t, again, q);
    if q <= p {
      Between(s.commits, q, p);
      KeyedGrows(After(s.commits[..q]), After(s.commits[..p]), r.tenant, r.key);
    }
    Between(s.commits, p + 1, q);
    LegalPrefix(s.commits, q);
    VersionCountsRevisions(s.commits[..q], orig.id);
  }

  // It occurs that they differ: a create, an update of the record, and a replay of the create.
  lemma CreateUpdateReplay(wf: Workflow, key: string) returns (events: seq<Event>, s: Sys, orig: Record, again: Record)
    requires wf.states != [] && key != ""
    ensures Reaches(events, s) && Answers(s, 0, Made(orig, false)) && Answers(s, 2, Made(again, true))
    ensures s.calls[0].request == s.calls[2].request == Create(wf.tenant, key, wf.id, None)
    ensures again == orig.(version := 2)
  {
    hide Reaches;
    orig := NewRecord(wf, wf.tenant, key, None, "r");
    events, s := Created(wf, key);
    events, s := ThenUpdated(wf, key, events, s);
    again := orig.(version := 2);
    var request := Create(wf.tenant, key, wf.id, None);
    events, s := OneMore(events, s, Invoke(2, request));
    events, s := OneMore(events, s, PreCheck(2));
    events, s := OneMore(events, s, ReadReplay(2));
  }

  // The record is created by call 0.
  lemma Created(wf: Workflow, key: string) returns (events: seq<Event>, s: Sys)
    requires wf.states != [] && key != ""
    ensures Reaches(events, s)
    ensures var r := NewRecord(wf, wf.tenant, key, None, "r");
            && s.calls == map[0 := Call(Create(wf.tenant, key, wf.id, None), 1, Finished(Made(r, false), 1, 2, false))]
            && s.db.records == map["r" := r] && s.db.index == map[PairSlot(wf.tenant, key) := "r"]
            && s.db.workflows == map[wf.id := wf]
            && s.used == map["r" := 0, "a" := 0, "o" := 0]
  {
    hide Reaches;
    var request := Create(wf.tenant, key, wf.id, None);
    var r := NewRecord(wf, wf.tenant, key, None, "r");
    NoEvents();
    events, s := OneMore([], START, Outsider(AddWorkflow(wf)));
    events, s := OneMore(events, s, Invoke(0, request));
    events, s := OneMore(events, s, PreCheck(0));
    assert s.calls == map[0 := Call(request, 1, Callback(1))];
    events, s := OneMore(events, s, Draft(0, "r", "a", "o"));
    assert s.calls == map[0 := Call(request, 1, Drafted(1, r, "a", "o"))];
    events, s := OneMore(events, s, Commit(0, true));
  }

  // Then call 1 updates it.
  lemma ThenUpdated(wf: Workflow, key: string, before: seq<Event>, t: Sys) returns (events: seq<Event>, s: Sys)
    requires wf.states != [] && key != "" && Reaches(before, t)
    requires var r := NewRecord(wf, wf.tenant, key, None, "r");
             && t.calls == map[0 := Call(Create(wf.tenant, key, wf.id, None), 1, Finished(Made(r, false), 1, 2, false))]
             && t.db.records == map["r" := r] && t.db.index == map[PairSlot(wf.tenant, key) := "r"]
             && t.db.workflows == map[wf.id := wf]
             && t.used == map["r" := 0, "a" := 0, "o" := 0]
    ensures Reaches(events, s)
    ensures var r := NewRecord(wf, wf.tenant, key, None, "r");
            && 0 in s.calls && s.calls[0] == t.calls[0] && 2 !in s.calls
            && s.db.records == map["r" := r.(version := 2)] && s.db.index == t.db.index
  {
    hide Reaches;
    var request := Update(wf.tenant, "r", 1, "", None);
    var r := NewRecord(wf, wf.tenant, key, None, "r");
    events, s := ThenChecked(before, t, r, request);
    events, s := ThenWritten(events, s, r, request);
    events, s := OneMore(events, s, Commit(1, true));
  }

  lemma ThenChecked(before: seq<Event>, t: Sys, r: Record, request: Request) returns (events: seq<Event>, s: Sys)
    requires Reaches(before, t) && 1 !in t.calls
    requires request == Update(r.tenant, r.id, r.version, "", None)
    requires r.id in t.db.records && t.db.records[r.id] == r && Usable(t.db, r.tenant, r.workflow)
    ensures Reaches(events, s)
    ensures s == t.(calls := t.calls[1 := Call(request, |t.commits|, Checked(r, |t.commits|))])
  {
    hide Reaches;
    events, s := OneMore(before, t, Invoke(1, request));
    events, s := OneMore(events, s, Read(1));
    assert s.calls[1] == Call(request, |t.commits|, ReadDone(r, |t.commits|));
    events, s := OneMore(events, s, Check(1));
    assert s.calls == t.calls[1 := Call(request, |t.commits|, Checked(r, |t.commits|))];
  }

  lemma ThenWritten(before: seq<Event>, t: Sys, r: Record, request: Request) returns (events: seq<Event>, s: Sys)
    requires Reaches(before, t) && 1 in t.calls
    requires request == Update(r.tenant, r.id, r.version, "", None)
    requires t.calls[1] == Call(request, |t.commits|, Checked(r, |t.commits|))
    requires r.id in t.db.records && t.db.records[r.id] == r && "b" !in t.used && "p" !in t.used
    ensures Reaches(events, s) && s.db == t.db && s.commits == t.commits
    ensures s.calls ==
            t.calls[1 := Call(request, |t.commits|, Written(r, r.(version := r.version + 1), "b", "p"))]
  {
    hide Reaches;
    events, s := OneMore(before, t, CondWrite(1, "b", "p"));
  }
}
