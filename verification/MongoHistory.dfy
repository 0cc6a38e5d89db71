// What concurrent calls left behind in the MongoDB store, told from their requests and the order of their
// commits: every record, field by field, and what a successful update shows.

module MongoHistory {
  import opened Domain
  import opened Tables
  import opened Commits
  import opened MongoProtocol
  import opened MongoProofs
  import opened MongoEffects
  import opened MongoResults

  // Commit i was made by a call with a request.
  ghost predicate ByRequest(s: Sys, i: nat) {
    i < |s.commits| && s.commits[i].author.ByCall? && s.commits[i].author.call in s.calls
  }

  ghost function RequestOf(s: Sys, i: nat): Request
    requires ByRequest(s, i)
  {
    s.calls[s.commits[i].author.call].request
  }

  // Commit i updates the record.
  ghost predicate Updates(s: Sys, i: nat, id: string) {
    ByRequest(s, i) && RequestOf(s, i).Update? && RequestOf(s, i).id == id
  }

  // Commit i creates the record.
  ghost predicate Creates(s: Sys, i: nat, id: string) {
    ByRequest(s, i) && RequestOf(s, i).Create? && s.commits[i].write.AddRecord? && s.commits[i].write.record.id == id
  }

  ghost function Origin(s: Sys, n: nat, id: string): Option<Request> {
    if n == 0 then None else if Creates(s, n - 1, id) then Some(RequestOf(s, n - 1)) else Origin(s, n - 1, id)
  }

  // The state named by the last of the first n commits to name one.
  ghost function LastState(s: Sys, n: nat, id: string): Option<string> {
    if n == 0 then None
    else if Updates(s, n - 1, id) && RequestOf(s, n - 1).state != "" then Some(RequestOf(s, n - 1).state)
    else LastState(s, n - 1, id)
  }

  ghost function LastData(s: Sys, n: nat, id: string): Option<Data> {
    if n == 0 then None
    else if Updates(s, n - 1, id) && RequestOf(s, n - 1).data.Some? then RequestOf(s, n - 1).data
    else LastData(s, n - 1, id)
  }

  ghost function UpdateCount(s: Sys, n: nat, id: string): nat {
    if n == 0 then 0 else UpdateCount(s, n - 1, id) + (if Updates(s, n - 1, id) then 1 else 0)
  }

  ghost predicate Told(s: Sys, n: nat, id: string, r: Record, c: Request, states: seq<string>) {
    && c.Create? && states != []
    && r.id == id && r.tenant == c.tenant && r.workflow == c.workflow && r.idempotency == c.key
    && r.state == (if LastState(s, n, id).Some? then LastState(s, n, id).value else states[0])
    && r.data == (if LastData(s, n, id).Some? then LastData(s, n, id) else c.data)
    && r.version == 1 + UpdateCount(s, n, id)
  }

  ghost predicate TellsAll(s: Sys, n: nat, id: string)
    requires n <= |s.commits|
  {
    var db := After(s.commits[..n]);
    && (id in db.records <==> Origin(s, n, id).Some?)
    && (id in db.records ==>
          && Origin(s, n, id).value.Create? && Origin(s, n, id).value.workflow in db.workflows
          && Told(s, n, id, db.records[id], Origin(s, n, id).value,
                  db.workflows[Origin(s, n, id).value.workflow].states))
    && (id !in db.records ==> LastState(s, n, id) == None && LastData(s, n, id) == None && UpdateCount(s, n, id) == 0)
  }

  // One more commit.
  lemma NextTells(s: Sys, n: nat, id: string)
    requires n < |s.commits| && TellsAll(s, n, id) && EntryOwned(s, n)
    requires Allowed(PairSlot, After(s.commits[..n]), s.commits[n].write)
    requires After(s.commits[..n + 1]) == Apply(PairSlot, After(s.commits[..n]), s.commits[n].write)
    ensures TellsAll(s, n + 1, id)
  {
    hide After;
  }

  // After any number of commits of any interleaving, every record is what the committed requests say:
  // tenant, workflow and key of the create; the state named by the last committed update that named one,
  // else the first state of its workflow; the data of the last that brought some, else those of the
  // create; and one version more than updates committed.
  lemma {:induction false} RecordTellsRequests(events: seq<Event>, s: Sys, n: nat, id: string)
    requires Reaches(events, s) && n <= |s.commits|
    ensures TellsAll(s, n, id)
  {
    hide Reaches, EntryOwned, Allowed, Apply, Legal, CallInvariant, After, TellsAll;
    if n == 0 {
      NothingTold(s, id);
    } else {
      RecordTellsRequests(events, s, n - 1, id);
      ReachableOwned(events, s);
      ReachableInvariant(events, s);
      LegalPrefix(s.commits, n - 1);
      NextState(s.commits, n - 1);
      NextTells(s, n - 1, id);
    }
  }

  lemma NothingTold(s: Sys, id: string)
    ensures TellsAll(s, 0, id)
  {
  }

  // The same for the database as it is.
  lemma DatabaseTellsRequests(events: seq<Event>, s: Sys, id: string)
    requires Reaches(events, s) && id in s.db.records
    ensures var n := |s.commits|;
            && Origin(s, n, id).Some? && Origin(s, n, id).value.Create?
            && Origin(s, n, id).value.workflow in s.db.workflows
            && Told(s, n, id, s.db.records[id], Origin(s, n, id).value,
                    s.db.workflows[Origin(s, n, id).value.workflow].states)
  {
    hide Reaches, After, Legal, Told, CallInvariant;
    RecordTellsRequests(events, s, |s.commits|, id);
    ReachableInvariant(events, s);
    assert s.commits[..|s.commits|] == s.commits;
  }

  // The commit of an answered write shows in the database what was answered, and appends one event and
  // one audit entry that tell it.
  ghost predicate Stored(before: Database, after: Database, r: Record, kind: Kind) {
    && r.id in after.records && after.records[r.id] == r
    && |after.outbox| == |before.outbox| + 1 && before.outbox <= after.outbox
    && |after.audit| == |before.audit| + 1 && before.audit <= after.audit
    && var e, a := Last(after.outbox), Last(after.audit);
       && e == OutboxEvent(e.id, r.tenant, r.id, "workflow.record-events", r.id, kind,
                           Change(r.id, r.workflow, r.state, r.version), false, 0, "")
       && a == AuditEvent(a.id, r.tenant, r.id, kind, r.state, r.version)
  }

  // A successful update answers, stores and tells the state it named, and the data it brought.
  lemma ChangedShows(events: seq<Event>, s: Sys, c: nat, r: Record)
    requires Reaches(events, s) && Answers(s, c, Changed(r)) && s.calls[c].request.Update?
    ensures var Update(t, id, expected, state, data) := s.calls[c].request;
            var at := s.calls[c].phase.at;
            && at < |s.commits|
            && r.id == id && r.tenant == t && r.version == expected + 1
            && (state != "" ==> r.state == state) && (data.Some? ==> r.data == data)
            && Stored(After(s.commits[..at]), After(s.commits[..at + 1]), r, Updated)
  {
    hide Reaches, After, Legal, Justified;
    RepliesLinearize(events, s, c, Changed(r));
    ReachableOwned(events, s);
    assert EntryOwned(s, s.calls[c].phase.at);
    NextState(s.commits, s.calls[c].phase.at);
  }

  // A create that was no replay answers, stores and tells a record in the first state of the workflow.
  lemma MadeShows(events: seq<Event>, s: Sys, c: nat, r: Record)
    requires Reaches(events, s) && Answers(s, c, Made(r, false)) && s.calls[c].request.Create?
    ensures var Create(t, key, workflow, data) := s.calls[c].request;
            var at := s.calls[c].phase.at;
            && at < |s.commits|
            && var db := After(s.commits[..at]);
               && workflow in db.workflows && db.workflows[workflow].tenant == t && db.workflows[workflow].states != []
               && r == Record(r.id, t, workflow, db.workflows[workflow].states[0], data, 1, key)
               && Stored(db, After(s.commits[..at + 1]), r, Created)
  {
    hide Reaches, After, Legal, Justified;
    RepliesLinearize(events, s, c, Made(r, false));
    ReachableOwned(events, s);
    assert EntryOwned(s, s.calls[c].phase.at);
    NextState(s.commits, s.calls[c].phase.at);
  }

  // Refusals of updates: at its point in the commit order the tenant does not have the record, or has it
  // at another version.
  lemma RefusedUpdate(events: seq<Event>, s: Sys, c: nat, error: StoreError)
    requires Reaches(events, s) && Answers(s, c, Refused(error)) && s.calls[c].request.Update?
    ensures error in {NotFound, Conflict, InvalidWorkflow}
    ensures var Update(t, id, expected, state, data) := s.calls[c].request;
            var at := s.calls[c].phase.at;
            at <= |s.commits| &&
            var db := After(s.commits[..at]);
            && (error == NotFound ==> !(id in db.records && db.records[id].tenant == t))
            && (error == Conflict ==> id in db.records && db.records[id].tenant == t && db.records[id].version != expected)
  {
    hide Reaches, After, Legal;
    RepliesLinearize(events, s, c, Refused(error));
  }
}
