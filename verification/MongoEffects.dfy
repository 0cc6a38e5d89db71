// What calls do to the commit order, beside what they answer: a call commits at most once, the
// commit it makes is the one its answer tells of, and refused or replayed calls commit nothing.

module MongoEffects {
  import opened Domain
  import opened Tables
  import opened Commits
  import opened MongoProtocol
  import opened MongoProofs

  // The reply tells of a write.
  predicate TellsWrite(reply: Reply) {
    reply.Changed? || (reply.Made? && !reply.replay)
  }

  // The call is finished and commit i is its own: it wrote what the reply tells, or the commit went
  // unreported.
  ghost predicate Committed(s: Sys, c: nat, i: nat) {
    c in s.calls && s.calls[c].phase.Finished? && i < |s.commits| &&
    var Finished(reply, at, endedAt, misread) := s.calls[c].phase;
    && at == i && endedAt == i + 1 && !misread
    && WriteFits(s.calls[c].request, reply, s.commits[i].write)
  }

  ghost predicate WriteFits(r: Request, reply: Reply, w: Write) {
    match r
    case Create(_, _, _, _) => w.AddRecord? && (reply == Made(w.record, false) || reply.Broken?)
    case Update(_, id, _, _, _) => w.Revise? && w.record.id == id && (reply == Changed(w.record) || reply.Broken?)
  }

  // The write is what the request asks for in the state it was committed in: a new record in the first
  // state of its workflow, or the record with the state and the data the request brings, if it does.
  ghost predicate Carries(db: Database, r: Request, w: Write) {
    match r
    case Create(t, key, workflow, data) =>
      && w.AddRecord? && workflow in db.workflows && db.workflows[workflow].states != []
      && db.workflows[workflow].tenant == t && w.record.id !in db.records
      && w.record == Record(w.record.id, t, workflow, db.workflows[workflow].states[0], data, 1, key)
    case Update(t, id, expected, state, data) =>
      && w.Revise? && id in db.records &&
      var before := db.records[id];
      && before.tenant == t && before.version == expected
      && w.record == Record(id, t, before.workflow, if state != "" then state else before.state,
                            if data.Some? then data else before.data, expected + 1, before.idempotency)
  }

  ghost predicate EntryOwned(s: Sys, i: nat)
    requires i < |s.commits|
  {
    match s.commits[i].author
    case ByCall(c) => Committed(s, c, i) && Carries(After(s.commits[..i]), s.calls[c].request, s.commits[i].write)
    case Outside => s.commits[i].write.AddWorkflow? || s.commits[i].write.Bookkeep?
  }

  ghost predicate AllOwned(s: Sys) {
    forall i: nat :: i < |s.commits| ==> EntryOwned(s, i)
  }

  // A finished call never moves again.
  lemma FinishedStays(s: Sys, e: Event, c: nat)
    requires Enabled(s, e) && c in s.calls && s.calls[c].phase.Finished?
    ensures c in Do(s, e).calls && Do(s, e).calls[c] == s.calls[c]
  {
    hide AfterPreCheck, AfterReadReplay, AfterDraft, AfterFallback, AfterRead, AfterCheck, AfterCondWrite, AfterRerun,
         Apply, Allowed;
  }

  // Only a commit or an outsider adds to the commit order, and either adds one entry.
  lemma CommitsGrow(s: Sys, e: Event)
    requires Enabled(s, e)
    ensures Do(s, e).commits ==
            match e
            case Commit(c, _) => s.commits + [Entry(ByCall(c), WriteOf(s.calls[c].phase))]
            case Outsider(w) => s.commits + [Entry(Outside, w)]
            case _ => s.commits
  {
    hide AfterPreCheck, AfterReadReplay, AfterDraft, AfterFallback, AfterRead, AfterCheck, AfterCondWrite, AfterRerun,
         Apply, Allowed;
  }

  lemma CommitCarries(s: Sys, c: nat, reported: bool)
    requires SysInvariant(s) && Enabled(s, Commit(c, reported))
    ensures Carries(s.db, s.calls[c].request, WriteOf(s.calls[c].phase))
  {
    hide Legal, After, KeyMissed, InOutbox, WasRead, Justified, Sourced, Indexed;
    assert CallInvariant(s, c, s.calls[c]);
    Present(s);
  }

  lemma CommitIsOwned(s: Sys, c: nat, reported: bool)
    requires SysInvariant(s) && Enabled(s, Commit(c, reported))
    ensures Committed(Do(s, Commit(c, reported)), c, |s.commits|)
  {
    hide Legal, After, KeyMissed, StillBase, StateKnown, InOutbox, WasRead, Justified, Apply;
    assert CallInvariant(s, c, s.calls[c]);
  }

  lemma EventKeepsOwned(s: Sys, e: Event)
    requires SysInvariant(s) && AllOwned(s) && Enabled(s, e)
    ensures AllOwned(Do(s, e))
  {
    hide SysInvariant, Enabled, Do, WriteFits, WriteOf, Carries, After;
    var s' := Do(s, e);
    CommitsGrow(s, e);
    forall i: nat | i < |s'.commits| ensures EntryOwned(s', i) {
      assert s'.commits[..i] == if i < |s.commits| then s.commits[..i] else s.commits;
      if i < |s.commits| {
        assert EntryOwned(s, i);
        if s.commits[i].author.ByCall? {
          FinishedStays(s, e, s.commits[i].author.call);
        }
      } else if e.Commit? {
        CommitIsOwned(s, e.call, e.reported);
        CommitCarries(s, e.call, e.reported);
        SameRequest(s, e.call, e.reported);
        DatabaseIsAfter(s);
      } else {
        OutsiderOnly(s, e);
      }
    }
  }

  lemma SameRequest(s: Sys, c: nat, reported: bool)
    requires Enabled(s, Commit(c, reported))
    ensures Do(s, Commit(c, reported)).calls[c].request == s.calls[c].request
  {
  }

  lemma DatabaseIsAfter(s: Sys)
    requires SysInvariant(s)
    ensures s.db == After(s.commits)
  {
    hide CallInvariant;
  }

  lemma OutsiderOnly(s: Sys, e: Event)
    requires Enabled(s, e) && e.Outsider?
    ensures e.write.AddWorkflow? || e.write.Bookkeep?
  {
  }

  lemma {:induction false} ReachableOwned(events: seq<Event>, s: Sys)
    requires Reaches(events, s)
    ensures AllOwned(s)
  {
    if events != [] {
      hide SysInvariant, Enabled, Do, AllOwned;
      var p :| Reaches(Init(events), p) && Enabled(p, Last(events)) && s == Do(p, Last(events));
      ReachableInvariant(Init(events), p);
      ReachableOwned(Init(events), p);
      EventKeepsOwned(p, Last(events));
    }
  }

  // No call ever commits twice.
  lemma CommitsOnce(events: seq<Event>, s: Sys, i: nat, j: nat)
    requires Reaches(events, s) && i < |s.commits| && j < |s.commits|
    requires s.commits[i].author.ByCall? && s.commits[i].author == s.commits[j].author
    ensures i == j
  {
    hide Reaches, WriteFits;
    ReachableOwned(events, s);
    assert EntryOwned(s, i) && EntryOwned(s, j);
  }

  // ----- Versions count calls -----

  predicate Revises(w: Write, id: string) {
    w.Revise? && w.record.id == id
  }

  // The calls that committed a revision of a record.
  ghost function Revisers(commits: seq<Entry>, id: string): set<nat> {
    set i | 0 <= i < |commits| && Revises(commits[i].write, id) && commits[i].author.ByCall? :: commits[i].author.call
  }

  ghost predicate EachOnce(commits: seq<Entry>) {
    && (forall i :: 0 <= i < |commits| && commits[i].write.Revise? ==> commits[i].author.ByCall?)
    && (forall i, j :: 0 <= i < j < |commits| && commits[i].author.ByCall? ==> commits[i].author != commits[j].author)
  }

  lemma {:induction false} RevisersCount(commits: seq<Entry>, id: string)
    requires EachOnce(commits)
    ensures |Revisers(commits, id)| == Revisions(commits, id)
  {
    if commits == [] {
      assert Revisers(commits, id) == {};
    } else {
      RevisersCount(Init(commits), id);
      LastReviser(commits, id);
    }
  }

  lemma LastReviser(commits: seq<Entry>, id: string)
    requires EachOnce(commits) && commits != []
    ensures EachOnce(Init(commits))
    ensures Revises(Last(commits).write, id) ==>
              && Last(commits).author.ByCall?
              && Last(commits).author.call !in Revisers(Init(commits), id)
              && Revisers(commits, id) == Revisers(Init(commits), id) + {Last(commits).author.call}
    ensures !Revises(Last(commits).write, id) ==> Revisers(commits, id) == Revisers(Init(commits), id)
  {
    var n := |commits| - 1;
    forall c | c in Revisers(commits, id) && !(Revises(commits[n].write, id) && commits[n].author == ByCall(c))
      ensures c in Revisers(Init(commits), id)
    {
      var i :| 0 <= i < |commits| && Revises(commits[i].write, id) && commits[i].author == ByCall(c);
      assert Init(commits)[i] == commits[i];
    }
    forall c | c in Revisers(Init(commits), id) ensures c in Revisers(commits, id) && commits[n].author != ByCall(c) {
      var i :| 0 <= i < n && Revises(Init(commits)[i].write, id) && Init(commits)[i].author == ByCall(c);
      assert commits[i] == Init(commits)[i];
    }
  }

  // Updates of a record that were answered with success.
  ghost function Changers(s: Sys, id: string): set<nat> {
    set c | c in s.calls && s.calls[c].request.Update? && s.calls[c].request.id == id
            && s.calls[c].phase.Finished? && s.calls[c].phase.reply.Changed?
  }

  // Updates of a record whose commit succeeded unreported.
  ghost function Unreported(s: Sys, id: string): set<nat> {
    set c | c in s.calls && s.calls[c].request.Update? && s.calls[c].request.id == id
            && s.calls[c].phase.Finished? && s.calls[c].phase.reply.Broken?
            && exists i: nat :: i < |s.commits| && s.commits[i].author == ByCall(c)
  }

  // A record's version is one more than the number of updates answered with success, plus those whose
  // success went unreported.
  lemma VersionCountsSuccesses(events: seq<Event>, s: Sys, id: string)
    requires Reaches(events, s) && id in s.db.records
    ensures s.db.records[id].version == 1 + |Changers(s, id)| + |Unreported(s, id)|
  {
    hide Reaches, WriteFits, CallInvariant, Legal, After, Committed;
    ReachableInvariant(events, s);
    VersionCountsRevisions(s.commits, id);
    OwnedIsOnce(events, s);
    RevisersCount(s.commits, id);
    RevisersAreCalls(events, s, id);
    assert Changers(s, id) * Unreported(s, id) == {};
  }

  lemma OwnedIsOnce(events: seq<Event>, s: Sys)
    requires Reaches(events, s)
    ensures EachOnce(s.commits)
  {
    hide Reaches, WriteFits;
    ReachableOwned(events, s);
    forall i | 0 <= i < |s.commits| && s.commits[i].write.Revise? ensures s.commits[i].author.ByCall? {
      assert EntryOwned(s, i);
    }
    forall i, j | 0 <= i < j < |s.commits| && s.commits[i].author.ByCall? ensures s.commits[i].author != s.commits[j].author {
      assert EntryOwned(s, i) && EntryOwned(s, j);
    }
  }

  lemma RevisersAreCalls(events: seq<Event>, s: Sys, id: string)
    requires Reaches(events, s)
    ensures Revisers(s.commits, id) == Changers(s, id) + Unreported(s, id)
  {
    hide Reaches, Legal, After, Justified;
    ReachableOwned(events, s);
    forall c | c in Revisers(s.commits, id) ensures c in Changers(s, id) + Unreported(s, id) {
      var i: nat :| i < |s.commits| && Revises(s.commits[i].write, id) && s.commits[i].author == ByCall(c);
      assert EntryOwned(s, i);
    }
    forall c | c in Changers(s, id) + Unreported(s, id) ensures c in Revisers(s.commits, id) {
      if s.calls[c].phase.reply.Changed? {
        ChangedCommitted(events, s, c);
      }
      var i: nat :| i < |s.commits| && s.commits[i].author == ByCall(c);
      assert EntryOwned(s, i);
    }
  }

  lemma ChangedCommitted(events: seq<Event>, s: Sys, c: nat)
    requires Reaches(events, s) && c in s.calls && s.calls[c].request.Update?
    requires s.calls[c].phase.Finished? && s.calls[c].phase.reply.Changed?
    ensures s.calls[c].phase.at < |s.commits| && s.commits[s.calls[c].phase.at].author == ByCall(c)
  {
    hide Reaches, Legal, After;
    ReachableInvariant(events, s);
    assert CallInvariant(s, c, s.calls[c]);
  }
}
