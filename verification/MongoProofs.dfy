// Every interleaving of the MongoDB store's calls keeps the protocol invariant, hence: at most one
// record per key, answers that agree on it, no lost update, and linearizable replies.

module MongoProofs {
  import opened Domain
  import opened Tables
  import opened Outbox
  import opened Commits
  import opened MongoProtocol

  // ----- Calls that are not moving -----

  lemma JustifiedStays(commits: seq<Entry>, e: Entry, c: nat, r: Request, reply: Reply, at: nat)
    requires at <= |commits| && Justified(commits, c, r, reply, at)
    ensures Justified(commits + [e], c, r, reply, at)
  {
    assert (commits + [e])[..at] == commits[..at];
  }

  ghost predicate MoreUsed(a: map<string, nat>, b: map<string, nat>) {
    forall id :: id in a ==> id in b && b[id] == a[id]
  }

  // Generating identifiers disturbs no call.
  lemma QuietForOthers(s: Sys, s': Sys, d: nat, call: Call)
    requires CallInvariant(s, d, call)
    requires s'.db == s.db && s'.commits == s.commits && MoreUsed(s.used, s'.used)
    ensures CallInvariant(s', d, call)
  {
    hide Justified, After, KeyMissed, StillBase, StateKnown, InOutbox, LookedUp;
    if call.phase.Finished? && call.phase.misread {
      LookedUpFrame(s, s', call, call.phase.endedAt);
    }
  }

  ghost predicate Spares(w: Write, phase: Phase) {
    match phase
    case Drafted(_, draft, _, outboxId) => (w.AddRecord? ==> w.record.id != draft.id) && !NewOutboxId(w, outboxId)
    case Written(_, _, _, outboxId) => !NewOutboxId(w, outboxId)
    case _ => true
  }

  predicate NewOutboxId(w: Write, id: string) {
    (w.AddRecord? || w.Revise?) && w.outboxId == id
  }

  lemma OutboxAfterWrite(db: Database, w: Write, id: string)
    requires Allowed(PairSlot, db, w) && !InOutbox(db, id) && !NewOutboxId(w, id)
    ensures !InOutbox(Apply(PairSlot, db, w), id)
  {
    if w.Bookkeep? {
      assert forall i :: 0 <= i < |db.outbox| ==> Content(w.outbox[i]) == Content(db.outbox[i]);
    }
  }

  lemma RecordsAfterWrite(db: Database, w: Write, id: string)
    requires Allowed(PairSlot, db, w) && id !in db.records && !(w.AddRecord? && w.record.id == id)
    ensures id !in Apply(PairSlot, db, w).records
  {
  }

  lemma FollowsTransitive(a: Record, b: Record, c: Record)
    requires Follows(a, b) && Follows(b, c)
    ensures Follows(a, c)
  {
  }

  lemma StillBaseStays(db: Database, db': Database, base: Record)
    requires StillBase(db, base) && Grows(db, db')
    ensures StillBase(db', base)
  {
    FollowsTransitive(base, db.records[base.id], db'.records[base.id]);
  }

  lemma KeyMissedStays(commits: seq<Entry>, e: Entry, r: Request, begunAt: nat, missAt: nat)
    requires r.Create? && KeyMissed(commits, r, begunAt, missAt)
    ensures KeyMissed(commits + [e], r, begunAt, missAt)
  {
    assert (commits + [e])[..missAt] == commits[..missAt];
  }

  lemma WasReadStays(s: Sys, e: Entry, call: Call, base: Record, readAt: nat)
    requires call.request.Update? && WasRead(s, call, base, readAt)
    ensures WasRead(s.(commits := s.commits + [e]), call, base, readAt)
  {
    assert (s.commits + [e])[..readAt] == s.commits[..readAt];
  }

  lemma WasReadFrame(s: Sys, t: Sys, call: Call, base: Record, readAt: nat)
    requires call.request.Update? && WasRead(s, call, base, readAt) && t.commits == s.commits
    ensures WasRead(t, call, base, readAt)
  {
  }

  // A commit disturbs no other call, provided it uses none of the identifiers that call holds.
  lemma CommitForOthers(s: Sys, author: Author, w: Write, d: nat, call: Call)
    requires CallInvariant(s, d, call) && Allowed(PairSlot, s.db, w) && Spares(w, call.phase)
    ensures CallInvariant(CommitEntry(s, author, w), d, call)
  {
    hide Justified, After, KeyMissed, StillBase, Allowed, Apply, InOutbox, WasRead, Grows, LookedUp;
    var e := Entry(author, w);
    var s' := CommitEntry(s, author, w);
    WriteGrows(s.db, w);
    var r := call.request;
    match call.phase
    case Begun =>
    case KeyFound(id) => KeyedStays(s.db, s'.db, r);
    case Callback(missAt) => if r.Create? { KeyMissedStays(s.commits, e, r, call.begunAt, missAt); }
    case Drafted(missAt, draft, _, outboxId) =>
      KeyMissedStays(s.commits, e, r, call.begunAt, missAt);
      UsableStays(s.db, s'.db, r.tenant, r.workflow);
      RecordsAfterWrite(s.db, w, draft.id);
      OutboxAfterWrite(s.db, w, outboxId);
    case Duplicate => KeyedStays(s.db, s'.db, r);
    case ReadDone(base, readAt) =>
      WasReadStays(s, e, call, base, readAt);
      WasReadFrame(s.(commits := s.commits + [e]), s', call, base, readAt);
      StillBaseStays(s.db, s'.db, base);
    case Checked(base, readAt) =>
      WasReadStays(s, e, call, base, readAt);
      WasReadFrame(s.(commits := s.commits + [e]), s', call, base, readAt);
      StillBaseStays(s.db, s'.db, base);
      UsableStays(s.db, s'.db, r.tenant, base.workflow);
    case Written(base, _, _, outboxId) =>
      StillBaseStays(s.db, s'.db, base);
      UsableStays(s.db, s'.db, r.tenant, base.workflow);
      OutboxAfterWrite(s.db, w, outboxId);
    case Finished(reply, at, endedAt, misread) =>
      if !reply.Broken? && !misread { JustifiedStays(s.commits, e, d, r, reply, at); }
      if misread { LookedUpStays(s, s', e, call, endedAt); }
  }

  lemma LookedUpStays(s: Sys, s': Sys, e: Entry, call: Call, endedAt: nat)
    requires LookedUp(s, call, endedAt) && s'.commits == s.commits + [e]
    ensures LookedUp(s', call, endedAt)
  {
    hide KeyMissed, WasRead;
    if call.request.Create? {
      var missAt: nat :| KeyMissed(s.commits, call.request, call.begunAt, missAt);
      KeyMissedStays(s.commits, e, call.request, call.begunAt, missAt);
    } else {
      var base: Record, readAt: nat :| WasRead(s, call, base, readAt) && readAt <= endedAt;
      WasReadStays(s, e, call, base, readAt);
      WasReadFrame(s.(commits := s.commits + [e]), s', call, base, readAt);
    }
  }

  lemma LookedUpFrame(s: Sys, s': Sys, call: Call, endedAt: nat)
    requires LookedUp(s, call, endedAt) && s'.commits == s.commits
    ensures LookedUp(s', call, endedAt)
  {
    if call.request.Update? {
      var base: Record, readAt: nat :| WasRead(s, call, base, readAt) && readAt <= endedAt;
      WasReadFrame(s, s', call, base, readAt);
    }
  }

  lemma KeyedStays(db: Database, db': Database, r: Request)
    requires r.Create? && Grows(db, db') && Keyed(db, r.tenant, r.key)
    ensures Keyed(db', r.tenant, r.key)
    ensures db'.index[PairSlot(r.tenant, r.key)] == db.index[PairSlot(r.tenant, r.key)]
  {
  }

  lemma UsableStays(db: Database, db': Database, tenant: string, workflow: string)
    requires Grows(db, db') && Usable(db, tenant, workflow)
    ensures Usable(db', tenant, workflow) && db'.workflows[workflow] == db.workflows[workflow]
  {
  }

  // ----- The moving call -----

  lemma Present(s: Sys)
    requires SysInvariant(s)
    ensures s.commits[..|s.commits|] == s.commits
    ensures s.db == After(s.commits[..|s.commits|])
    ensures Invariant(PairSlot, s.db)
  {
    assert s.commits[..|s.commits|] == s.commits;
    LegalInvariant(s.commits);
  }

  lemma PreCheckKeeps(s: Sys, c: nat)
    requires SysInvariant(s) && Enabled(s, PreCheck(c))
    ensures CallInvariant(s, c, s.calls[c].(phase := AfterPreCheck(s, s.calls[c].request)))
  {
    hide Legal, After, Invariant, DistinctIds;
    assert CallInvariant(s, c, s.calls[c]);
    Present(s);
  }

  // An index entry leads to a live record of the same tenant.
  lemma KeyLeadsToRecord(db: Database, tenant: string, key: string)
    requires Invariant(PairSlot, db) && Keyed(db, tenant, key)
    ensures var id := db.index[PairSlot(tenant, key)];
            id in db.records && db.records[id].tenant == tenant && db.records[id].idempotency == key
  {
    var r := db.records[db.index[PairSlot(tenant, key)]];
    assert PairSlot(r.tenant, r.idempotency) == PairSlot(tenant, key);
  }

  lemma ReadReplayKeeps(s: Sys, c: nat)
    requires SysInvariant(s) && Enabled(s, ReadReplay(c))
    ensures var phase := AfterReadReplay(s, s.calls[c].request, s.calls[c].phase.recordId);
            phase.reply.Made? && phase.reply.replay && CallInvariant(s, c, s.calls[c].(phase := phase))
  {
    hide Legal, After, Sourced, Indexed, DistinctIds;
    assert CallInvariant(s, c, s.calls[c]);
    Present(s);
    KeyLeadsToRecord(s.db, s.calls[c].request.tenant, s.calls[c].request.key);
  }

  lemma MissedRefusal(s: Sys, r: Request, begunAt: nat, missAt: nat, c: nat)
    requires SysInvariant(s) && r.Create? && KeyMissed(s.commits, r, begunAt, missAt)
    requires !Usable(s.db, r.tenant, r.workflow)
    ensures Justified(s.commits, c, r, Refused(InvalidWorkflow), missAt)
  {
    hide DistinctIds, CallInvariant;
    LegalPrefix(s.commits, missAt);
    LegalInvariant(s.commits[..missAt]);
    LaterGrows(s.commits, missAt);
  }

  lemma DraftKeeps(s: Sys, c: nat, id: string, auditId: string, outboxId: string)
    requires SysInvariant(s) && Enabled(s, Draft(c, id, auditId, outboxId))
    ensures var phase := AfterDraft(s, s.calls[c].request, s.calls[c].phase.missAt, id, auditId, outboxId);
            var s' := s.(used := s.used[id := c][auditId := c][outboxId := c]);
            CallInvariant(s', c, s.calls[c].(phase := phase))
  {
    hide Legal, After, Sourced, Indexed, DistinctIds, Justified;
    var call := s.calls[c];
    assert CallInvariant(s, c, call);
    Present(s);
    if !Usable(s.db, call.request.tenant, call.request.workflow) {
      MissedRefusal(s, call.request, call.begunAt, call.phase.missAt, c);
    }
  }

  lemma KeyClashKeeps(s: Sys, c: nat)
    requires SysInvariant(s) && Enabled(s, KeyClash(c))
    ensures CallInvariant(s, c, s.calls[c].(phase := Duplicate))
  {
    assert CallInvariant(s, c, s.calls[c]);
  }

  lemma FallbackKeeps(s: Sys, c: nat)
    requires SysInvariant(s) && Enabled(s, Fallback(c))
    ensures AfterFallback(s, s.calls[c].request).KeyFound?
    ensures CallInvariant(s, c, s.calls[c].(phase := AfterFallback(s, s.calls[c].request)))
  {
    assert CallInvariant(s, c, s.calls[c]);
  }

  lemma ReadKeeps(s: Sys, c: nat)
    requires SysInvariant(s) && Enabled(s, Read(c))
    ensures CallInvariant(s, c, s.calls[c].(phase := AfterRead(s, s.calls[c].request)))
  {
    hide Legal, After, Sourced, Indexed, DistinctIds;
    assert CallInvariant(s, c, s.calls[c]);
    Present(s);
  }

  // A known state stays known and an unknown one was always unknown: workflows never change.
  lemma RefusalAtRead(s: Sys, c: nat, call: Call, base: Record, readAt: nat)
    requires SysInvariant(s) && call.request.Update? && WasRead(s, call, base, readAt)
    requires Usable(s.db, call.request.tenant, base.workflow)
    requires call.request.state != "" && call.request.state !in s.db.workflows[base.workflow].states
    ensures Justified(s.commits, c, call.request, Refused(InvalidWorkflow), readAt)
  {
    hide DistinctIds, CallInvariant, Sourced, Indexed;
    LegalPrefix(s.commits, readAt);
    LegalInvariant(s.commits[..readAt]);
    LaterGrows(s.commits, readAt);
  }

  lemma CheckKeeps(s: Sys, c: nat)
    requires SysInvariant(s) && Enabled(s, Check(c))
    ensures var phase := AfterCheck(s, s.calls[c].request, s.calls[c].phase.base, s.calls[c].phase.readAt);
            CallInvariant(s, c, s.calls[c].(phase := phase))
  {
    hide Legal, After, Sourced, Indexed, DistinctIds, Justified;
    var call := s.calls[c];
    assert CallInvariant(s, c, call);
    Present(s);
    var base, readAt := call.phase.base, call.phase.readAt;
    BaseUsable(s, call, base, readAt);
    if call.request.state != "" && call.request.state !in s.db.workflows[base.workflow].states {
      RefusalAtRead(s, c, call, base, readAt);
    }
  }

  lemma BaseUsable(s: Sys, call: Call, base: Record, readAt: nat)
    requires Invariant(PairSlot, s.db) && call.request.Update?
    requires WasRead(s, call, base, readAt) && StillBase(s.db, base)
    ensures Usable(s.db, call.request.tenant, base.workflow)
  {
  }

  lemma WasReadBounds(s: Sys, call: Call, base: Record, readAt: nat)
    requires call.request.Update? && WasRead(s, call, base, readAt)
    ensures call.begunAt <= readAt <= |s.commits|
    ensures base.id == call.request.id && base.tenant == call.request.tenant && base.version == call.request.expected
  {
  }

  lemma CondWriteKeeps(s: Sys, c: nat, auditId: string, outboxId: string)
    requires SysInvariant(s) && Enabled(s, CondWrite(c, auditId, outboxId))
    ensures var phase := AfterCondWrite(s, s.calls[c].request, auditId, outboxId);
            var s' := s.(used := s.used[auditId := c][outboxId := c]);
            CallInvariant(s', c, s.calls[c].(phase := phase))
  {
    hide Legal, After, Sourced, Indexed, DistinctIds, WasRead;
    var call := s.calls[c];
    assert CallInvariant(s, c, call);
    Present(s);
    WasReadBounds(s, call, call.phase.base, call.phase.readAt);
    assert StillBase(s.db, call.phase.base);
  }

  lemma RerunKeeps(s: Sys, c: nat)
    requires SysInvariant(s) && Enabled(s, Rerun(c))
    ensures CallInvariant(s, c, s.calls[c].(phase := AfterRerun(s.calls[c])))
  {
    hide Legal, After, DistinctIds, Justified, KeyMissed;
    assert CallInvariant(s, c, s.calls[c]);
  }

  // ----- Commits -----

  lemma CommitIsAllowed(s: Sys, c: nat, reported: bool)
    requires SysInvariant(s) && Enabled(s, Commit(c, reported))
    ensures Allowed(PairSlot, s.db, WriteOf(s.calls[c].phase))
  {
    hide Legal, After, Sourced, Indexed, DistinctIds, KeyMissed;
    assert CallInvariant(s, c, s.calls[c]);
    Present(s);
  }

  // At the moment of the commit the atomic operation would have answered the same.
  lemma CommitIsJustified(s: Sys, c: nat, reported: bool)
    requires SysInvariant(s) && Enabled(s, Commit(c, reported))
    ensures var call := s.calls[c];
            var commits := s.commits + [Entry(ByCall(c), WriteOf(call.phase))];
            Justified(commits, c, call.request, ReplyOf(call.phase), |s.commits|)
  {
    hide Legal, After, Sourced, Indexed, DistinctIds, KeyMissed;
    var call := s.calls[c];
    assert CallInvariant(s, c, call);
    Present(s);
    var commits := s.commits + [Entry(ByCall(c), WriteOf(call.phase))];
    assert commits[..|s.commits|] == s.commits;
  }

  lemma CommitSpares(s: Sys, c: nat, d: nat)
    requires c in s.calls && d in s.calls && c != d
    requires CallInvariant(s, c, s.calls[c]) && CallInvariant(s, d, s.calls[d])
    requires s.calls[c].phase.Drafted? || s.calls[c].phase.Written?
    ensures Spares(WriteOf(s.calls[c].phase), s.calls[d].phase)
  {
    hide After, KeyMissed, StillBase, StateKnown, InOutbox, WasRead, Justified;
  }

  lemma OutboxStaysDistinct(s: Sys, author: Author, w: Write)
    requires Allowed(PairSlot, s.db, w) && DistinctIds(s.db.outbox)
    requires (w.AddRecord? || w.Revise?) ==> !InOutbox(s.db, w.outboxId)
    ensures DistinctIds(CommitEntry(s, author, w).db.outbox)
  {
    if w.Bookkeep? {
      assert forall i :: 0 <= i < |w.outbox| ==> Content(w.outbox[i]) == Content(s.db.outbox[i]);
    }
  }

  // The global part of the invariant after a commit.
  lemma CommitKeepsGlobals(s: Sys, author: Author, w: Write)
    requires SysInvariant(s) && Allowed(PairSlot, s.db, w)
    requires (w.AddRecord? || w.Revise?) ==> !InOutbox(s.db, w.outboxId) && w.outboxId in s.used
    requires w.AddRecord? ==> w.record.id in s.used
    ensures var s' := CommitEntry(s, author, w);
            && Legal(s'.commits) && s'.db == After(s'.commits)
            && (forall id :: id in s'.db.records ==> id in s'.used)
            && (forall i :: 0 <= i < |s'.db.outbox| ==> s'.db.outbox[i].id in s'.used)
            && DistinctIds(s'.db.outbox)
  {
    hide CallInvariant, DistinctIds;
    LegalSnoc(s.commits, Entry(author, w));
    AfterSnoc(s.commits, Entry(author, w));
    OutboxStaysDistinct(s, author, w);
    if w.Bookkeep? {
      assert forall i :: 0 <= i < |w.outbox| ==> Content(w.outbox[i]) == Content(s.db.outbox[i]);
    }
  }

  lemma CommitFacts(s: Sys, c: nat, reported: bool)
    requires SysInvariant(s) && Enabled(s, Commit(c, reported))
    ensures var w := WriteOf(s.calls[c].phase);
            && (w.AddRecord? || w.Revise?) && !InOutbox(s.db, w.outboxId) && w.outboxId in s.used
            && (w.AddRecord? ==> w.record.id in s.used)
            && s.calls[c].begunAt <= |s.commits|
  {
    hide After, Legal, KeyMissed, StillBase, StateKnown, InOutbox, WasRead, Justified;
    assert CallInvariant(s, c, s.calls[c]);
  }

  lemma CommitKeepsInvariant(s: Sys, c: nat, reported: bool)
    requires SysInvariant(s) && Enabled(s, Commit(c, reported))
    ensures SysInvariant(Do(s, Commit(c, reported)))
  {
    hide Legal, After, Allowed, Apply, DistinctIds, InOutbox, Spares, Justified, WriteOf, ReplyOf;
    var call := s.calls[c];
    var w := WriteOf(call.phase);
    var s1 := CommitEntry(s, ByCall(c), w);
    var s' := Do(s, Commit(c, reported));
    CommitIsAllowed(s, c, reported);
    CommitIsJustified(s, c, reported);
    CommitFacts(s, c, reported);
    CommitKeepsGlobals(s, ByCall(c), w);
    OnlyDraftsCommit(s, c, reported);
    forall d | d in s'.calls ensures CallInvariant(s', d, s'.calls[d]) {
      if d != c {
        CommitSpares(s, c, d);
        CommitForOthers(s, ByCall(c), w, d, s.calls[d]);
        QuietForOthers(s1, s', d, s.calls[d]);
      }
    }
  }

  lemma OnlyDraftsCommit(s: Sys, c: nat, reported: bool)
    requires Enabled(s, Commit(c, reported))
    ensures s.calls[c].phase.Drafted? || s.calls[c].phase.Written?
  {
  }

  lemma OutsiderKeepsInvariant(s: Sys, w: Write)
    requires SysInvariant(s) && Enabled(s, Outsider(w))
    ensures SysInvariant(Do(s, Outsider(w)))
  {
    hide Legal, After, Allowed, Apply, DistinctIds, InOutbox, CallInvariant;
    var s' := Do(s, Outsider(w));
    CommitKeepsGlobals(s, Outside, w);
    forall d | d in s'.calls ensures CallInvariant(s', d, s'.calls[d]) {
      CommitForOthers(s, Outside, w, d, s.calls[d]);
    }
  }

  // ----- Every event -----

  // A call that moved without committing.
  lemma MoveKeepsInvariant(s: Sys, used: map<string, nat>, c: nat, call: Call)
    requires SysInvariant(s) && MoreUsed(s.used, used)
    requires CallInvariant(s.(used := used), c, call)
    ensures SysInvariant(s.(used := used, calls := s.calls[c := call]))
  {
    hide CallInvariant, Legal, After, DistinctIds;
    var s' := s.(used := used, calls := s.calls[c := call]);
    forall d | d in s'.calls ensures CallInvariant(s', d, s'.calls[d]) {
      if d == c {
        QuietForOthers(s.(used := used), s', c, call);
      } else {
        QuietForOthers(s, s', d, s.calls[d]);
      }
    }
  }

  lemma InvokeKeeps(s: Sys, c: nat, r: Request)
    requires SysInvariant(s) && Enabled(s, Invoke(c, r))
    ensures CallInvariant(s, c, Call(r, |s.commits|, if r.Create? then Begun else Callback(|s.commits|)))
  {
  }

  lemma LostKeeps(s: Sys, c: nat)
    requires SysInvariant(s) && c in s.calls
    ensures CallInvariant(s, c, s.calls[c].(phase := Lost(s)))
  {
    hide Justified, After, Legal;
    assert CallInvariant(s, c, s.calls[c]);
  }

  lemma MisreadKeeps(s: Sys, c: nat)
    requires SysInvariant(s) && Enabled(s, Misread(c))
    ensures CallInvariant(s, c, s.calls[c].(phase := LookupFailed(s)))
  {
    hide Justified, After, Legal, KeyMissed;
    var call := s.calls[c];
    assert CallInvariant(s, c, call);
    if call.request.Create? {
      assert KeyMissed(s.commits, call.request, call.begunAt, call.phase.missAt);
    } else {
      assert WasRead(s, call.(phase := LookupFailed(s)), call.phase.base, call.phase.readAt);
    }
  }

  lemma EventKeepsInvariant(s: Sys, e: Event)
    requires SysInvariant(s) && Enabled(s, e)
    ensures SysInvariant(Do(s, e))
  {
    hide SysInvariant, CallInvariant, AfterPreCheck, AfterReadReplay, AfterDraft, AfterFallback, AfterRead,
         AfterCheck, AfterCondWrite, AfterRerun, Apply, Allowed, MayCommit;
    match e
    case Invoke(c, r) =>
      InvokeKeeps(s, c, r);
      MoveKeepsInvariant(s, s.used, c, Call(r, |s.commits|, if r.Create? then Begun else Callback(|s.commits|)));
    case PreCheck(c) => PreCheckKeeps(s, c); MoveKeepsInvariant(s, s.used, c, Do(s, e).calls[c]);
    case ReadReplay(c) => ReadReplayKeeps(s, c); MoveKeepsInvariant(s, s.used, c, Do(s, e).calls[c]);
    case Draft(c, id, auditId, outboxId) =>
      DraftKeeps(s, c, id, auditId, outboxId);
      MoveKeepsInvariant(s, Do(s, e).used, c, Do(s, e).calls[c]);
    case KeyClash(c) => KeyClashKeeps(s, c); MoveKeepsInvariant(s, s.used, c, Do(s, e).calls[c]);
    case Fallback(c) => FallbackKeeps(s, c); MoveKeepsInvariant(s, s.used, c, Do(s, e).calls[c]);
    case Read(c) => ReadKeeps(s, c); MoveKeepsInvariant(s, s.used, c, Do(s, e).calls[c]);
    case Check(c) => CheckKeeps(s, c); MoveKeepsInvariant(s, s.used, c, Do(s, e).calls[c]);
    case CondWrite(c, auditId, outboxId) =>
      CondWriteKeeps(s, c, auditId, outboxId);
      MoveKeepsInvariant(s, Do(s, e).used, c, Do(s, e).calls[c]);
    case Commit(c, reported) => CommitKeepsInvariant(s, c, reported);
    case Rerun(c) => RerunKeeps(s, c); MoveKeepsInvariant(s, s.used, c, Do(s, e).calls[c]);
    case Fail(c) => LostKeeps(s, c); MoveKeepsInvariant(s, s.used, c, Do(s, e).calls[c]);
    case Misread(c) => MisreadKeeps(s, c); MoveKeepsInvariant(s, s.used, c, Do(s, e).calls[c]);
    case Outsider(w) => OutsiderKeepsInvariant(s, w);
  }

  lemma {:induction false} ReachableInvariant(events: seq<Event>, s: Sys)
    requires Reaches(events, s)
    ensures SysInvariant(s)
  {
    if events != [] {
      hide SysInvariant, Enabled, Do;
      var p :| Reaches(Init(events), p) && Enabled(p, Last(events)) && s == Do(p, Last(events));
      ReachableInvariant(Init(events), p);
      EventKeepsInvariant(p, Last(events));
    }
  }
}
