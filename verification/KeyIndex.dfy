// The memory store's idempotency index joins tenant and key with a colon. This module says for
// which tenants that index behaves like one keyed by pairs.

module KeyIndex {
  import opened Domain
  import opened Ids
  import opened Tables
  import opened MemorySpec

  // One name continues the other after a colon.
  predicate Entangled(t: string, u: string) {
    t != u && (t + ":" <= u || u + ":" <= t)
  }

  lemma SlotsEqual(t: string, k: string, u: string, l: string)
    requires Slot(t, k) == Slot(u, l)
    ensures |t| == |u| ==> t == u && k == l
    ensures |t| < |u| ==> t + ":" <= u && k == u[|t| + 1..] + ":" + l
  {
    var s := Slot(t, k);
    assert t == s[..|t|] && u == s[..|u|] && k == s[|t| + 1..] && l == s[|u| + 1..];
    if |t| < |u| {
      assert s[|t|] == ':' && s[|u|] == ':';
      assert u[..|t| + 1] == s[..|t| + 1] == t + ":";
      assert k == s[|t| + 1..|u|] + [s[|u|]] + l;
    }
  }

  // Two tenants have colliding keys exactly when they are entangled. Names without a colon
  // never are.
  lemma CollisionIff(t: string, u: string)
    requires t != u
    ensures Entangled(t, u) <==> exists k, l :: k != "" && l != "" && Slot(t, k) == Slot(u, l)
    ensures ':' !in t && ':' !in u ==> !Entangled(t, u)
  {
    if t + ":" <= u {
      assert u[|t|] == ':';
      assert Slot(t, u[|t| + 1..] + ":k") == Slot(u, "k");
    } else if u + ":" <= t {
      assert t[|u|] == ':';
      assert Slot(t, "k") == Slot(u, t[|u| + 1..] + ":k");
    } else if k, l :| k != "" && l != "" && Slot(t, k) == Slot(u, l) {
      SlotsEqual(t, k, u, l);
      SlotsEqual(u, l, t, k);
    }
  }

  // ----- Runs over a fixed set of tenants -----

  ghost predicate Over(tenants: set<string>, ops: seq<Op>) {
    forall op :: op in ops && (op.CreateWorkflow? || op.CreateRecord?) ==> op.tenant in tenants
  }

  ghost predicate OwnedWithin(tenants: set<string>, s: State) {
    forall id :: id in s.tables.workflows ==>
      s.tables.workflows[id].tenant in tenants && s.tables.workflows[id].tenant != ""
  }

  lemma StepOwnedWithin(tenants: set<string>, s: State, op: Op)
    requires WorkflowsFormed(s.tables.workflows) && OwnedWithin(tenants, s)
    requires op.CreateWorkflow? ==> op.tenant in tenants
    ensures OwnedWithin(tenants, Step(s, op).0)
  {
  }

  lemma {:induction false} RunOwnedWithin(tenants: set<string>, ops: seq<Op>)
    requires Over(tenants, ops)
    ensures OwnedWithin(tenants, Run(ops))
  {
    if ops != [] {
      RunOwnedWithin(tenants, Init(ops));
      assert Last(ops) in ops;
      StepOwnedWithin(tenants, Run(Init(ops)), Last(ops));
    }
  }

  // The answer to call k, if it is a replay, is the caller's own record for that key.
  ghost predicate OwnReplay(ops: seq<Op>, k: nat)
    requires k < |ops|
  {
    ops[k].CreateRecord? ==>
      match Answer(ops, k)
      case RecordMade(Ok((r, true))) => r.tenant == ops[k].tenant && r.idempotency == ops[k].key
      case _ => true
  }

  // No tenant of the set collides with this one. (The empty name owns no workflow.)
  ghost predicate Apart(tenant: string, tenants: set<string>) {
    forall u :: u in tenants && u != "" && tenant != "" ==> !Entangled(tenant, u)
  }

  ghost predicate Unentangled(tenants: set<string>) {
    forall t :: t in tenants ==> Apart(t, tenants)
  }

  // The record a tenant has filed under a key, found without any index.
  ghost predicate Filed(s: State, tenant: string, key: string, id: string) {
    id in s.tables.records && s.tables.records[id].tenant == tenant && s.tables.records[id].idempotency == key
  }

  // An index entry reached under a tenant's slot belongs to that tenant and that key.
  lemma EntryIsOwn(tenants: set<string>, s: State, tenant: string, key: string)
    requires Apart(tenant, tenants) && OwnedWithin(tenants, s)
    requires WellFormed(s.tables) && Indexed(Slot, s.tables)
    requires tenant != "" && Slot(tenant, key) in s.tables.index
    ensures Filed(s, tenant, key, s.tables.index[Slot(tenant, key)])
  {
    var id := s.tables.index[Slot(tenant, key)];
    var r := s.tables.records[id];
    assert r.tenant in tenants && r.tenant != "";
    SlotsEqual(r.tenant, r.idempotency, tenant, key);
    SlotsEqual(tenant, key, r.tenant, r.idempotency);
  }

  lemma UnentangledReplaysOwn(tenants: set<string>, ops: seq<Op>, k: nat)
    requires Unentangled(tenants) && Over(tenants, ops) && k < |ops|
    ensures OwnReplay(ops, k)
  {
    var s := Run(ops[..k]);
    RunOwnedWithin(tenants, ops[..k]);
    ReachableIsValid(ops[..k]);
    if ops[k].CreateRecord? {
      ReplayIsOwn(tenants, s, ops[k]);
    }
  }

  lemma ReplayIsIndexed(s: State, op: Op)
    requires WorkflowsFormed(s.tables.workflows) && op.CreateRecord?
    ensures match Step(s, op).1
            case RecordMade(Ok((r, true))) =>
              Usable(s.tables, op.tenant, op.workflow) && Lookup(Slot, s.tables, op.tenant, op.key) == Some(r)
            case _ => true
  {
  }

  lemma ReplayIsOwn(tenants: set<string>, s: State, op: Op)
    requires op.CreateRecord? && Apart(op.tenant, tenants) && Valid(s) && OwnedWithin(tenants, s)
    ensures match Step(s, op).1
            case RecordMade(Ok((r, true))) => r.tenant == op.tenant && r.idempotency == op.key
            case _ => true
  {
    hide Step, Apart, Sourced;
    ReplayIsIndexed(s, op);
    if Usable(s.tables, op.tenant, op.workflow) && Lookup(Slot, s.tables, op.tenant, op.key).Some? {
      EntryIsOwn(tenants, s, op.tenant, op.key);
    }
  }

  // The owner files a record under its key; the asker then asks for a key with the same slot.
  ghost function CollidingRun(owner: string, key: string, asker: string, asked: string): seq<Op> {
    [CreateWorkflow(owner, "w", "", ["S"]),
     CreateWorkflow(asker, "w", "", ["S"]),
     CreateRecord(owner, key, Render("wf", 1), None),
     CreateRecord(asker, asked, Render("wf", 2), None)]
  }

  lemma RunOfFour(a: Op, b: Op, c: Op, d: Op)
    ensures var ops := [a, b, c, d];
            ops[..3] == [a, b, c] &&
            Run([a, b, c]) == Step(Step(Step(Initial(), a).0, b).0, c).0
  {
    RunSnoc([], a);
    RunSnoc([a], b);
    RunSnoc([a, b], c);
    assert [] + [a] == [a] && [a] + [b] == [a, b] && [a, b] + [c] == [a, b, c];
  }

  // Two tenants make a workflow each.
  lemma TwoWorkflows(t: string, u: string)
    requires t != "" && u != ""
    ensures var s := Step(Step(Initial(), CreateWorkflow(u, "w", "", ["S"])).0, CreateWorkflow(t, "w", "", ["S"])).0;
            && Usable(s.tables, u, Render("wf", 1)) && Usable(s.tables, t, Render("wf", 2))
            && s.tables.index == map[] && s.tables.records == map[] && s.counter == 2
  {
    RenderInjectiveOnCounters("wf", 1, 2);
    var s1 := Step(Initial(), CreateWorkflow(u, "w", "", ["S"])).0;
    var w1 := Workflow(Render("wf", 1), u, "w", "", ["S"], 1);
    assert s1.tables.workflows == map[w1.id := w1] && s1.counter == 1;
  }

  // After the third call there is one record, filed under the owner's slot.
  lemma CollidingState(owner: string, key: string, asker: string, asked: string)
    requires owner != "" && asker != "" && key != ""
    ensures var s := Run(CollidingRun(owner, key, asker, asked)[..3]);
            && Usable(s.tables, asker, Render("wf", 2))
            && Slot(owner, key) in s.tables.index
            && s.tables.index[Slot(owner, key)] in s.tables.records
            && s.tables.records[s.tables.index[Slot(owner, key)]].tenant == owner
  {
    hide Run, Render, Slot;
    var ops := CollidingRun(owner, key, asker, asked);
    RunOfFour(ops[0], ops[1], ops[2], ops[3]);
    TwoWorkflows(asker, owner);
  }

  // The asker is answered with the owner's record.
  lemma CollisionMixesRecords(owner: string, key: string, asker: string, asked: string)
    requires owner != "" && asker != "" && key != "" && asked != ""
    requires Slot(owner, key) == Slot(asker, asked)
    ensures match Answer(CollidingRun(owner, key, asker, asked), 3)
            case RecordMade(Ok((r, true))) => r.tenant == owner
            case _ => false
  {
    hide Run, Render, Slot;
    CollidingState(owner, key, asker, asked);
  }

  lemma RenderInjectiveOnCounters(prefix: string, m: nat, n: nat)
    requires '_' !in prefix && m != n
    ensures Render(prefix, m) != Render(prefix, n)
  {
    if Render(prefix, m) == Render(prefix, n) {
      RenderInjective(prefix, m, prefix, n);
    }
  }

  // For a given set of tenants, every replay in every run returns the caller's own record if and
  // only if no two of them are entangled.
  lemma ReplaysOwnIff(tenants: set<string>)
    ensures (forall ops, k | 0 <= k < |ops| && Over(tenants, ops) :: OwnReplay(ops, k))
       <==> Unentangled(tenants)
  {
    if Unentangled(tenants) {
      forall ops, k | 0 <= k < |ops| && Over(tenants, ops) ensures OwnReplay(ops, k) {
        UnentangledReplaysOwn(tenants, ops, k);
      }
    } else {
      var t :| t in tenants && !Apart(t, tenants);
      var u :| u in tenants && t != "" && u != "" && Entangled(t, u);
      assert t != u;
      CollisionIff(t, u);
      var k, l :| k != "" && l != "" && Slot(t, k) == Slot(u, l);
      CollisionMixesRecords(t, k, u, l);
      assert Over(tenants, CollidingRun(t, k, u, l));
      assert !OwnReplay(CollidingRun(t, k, u, l), 3);
    }
  }

  // In every reachable state the string index is, for a tenant apart from the others, the pair index: an
  // entry exists exactly when the tenant has a record under the key, it leads to that record,
  // there is only one such record, and looking it up again changes nothing.
  lemma IndexIsPairIndex(tenants: set<string>, ops: seq<Op>, tenant: string, key: string)
    requires Apart(tenant, tenants) && Over(tenants, ops) && tenant != "" && key != ""
    ensures var s := Run(ops);
            var slot := Slot(tenant, key);
            && (slot in s.tables.index <==> exists id :: Filed(s, tenant, key, id))
            && (forall id :: Filed(s, tenant, key, id) ==> s.tables.index[slot] == id)
            && (slot in s.tables.index ==> Filed(s, tenant, key, s.tables.index[slot]))
            && (forall workflow, data :: slot in s.tables.index ==> MakeRecord(s, tenant, key, workflow, data).0 == s)
  {
    var s := Run(ops);
    var slot := Slot(tenant, key);
    RunOwnedWithin(tenants, ops);
    ReachableIsValid(ops);
    if slot in s.tables.index {
      EntryIsOwn(tenants, s, tenant, key);
    }
  }
}
