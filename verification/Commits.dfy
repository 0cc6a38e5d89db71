// The commit order of the MongoDB store: a sequence of atomic writes, and what later states
// remember of earlier ones.

module Commits {
  import opened Domain
  import opened Tables

  type Pair = (string, string)

  type Database = Tables<Pair>

  // The unique index on tenantId and key.
  function PairSlot(tenant: string, key: string): Pair {
    (tenant, key)
  }

  datatype Author = ByCall(call: nat) | Outside

  datatype Entry = Entry(author: Author, write: Write)

  function After(commits: seq<Entry>): Database {
    if commits == [] then Empty() else Apply(PairSlot, After(Init(commits)), Last(commits).write)
  }

  ghost predicate Legal(commits: seq<Entry>) {
    commits != [] ==> Legal(Init(commits)) && Allowed(PairSlot, After(Init(commits)), Last(commits).write)
  }

  // Nothing is ever removed; index entries and workflows never change; a record keeps its tenant
  // and workflow, its version never falls, and an unchanged version means an unchanged record.
  ghost predicate Grows(a: Database, b: Database) {
    && (forall id :: id in a.workflows ==> id in b.workflows && b.workflows[id] == a.workflows[id])
    && (forall slot :: slot in a.index ==> slot in b.index && b.index[slot] == a.index[slot])
    && (forall id :: id in a.records ==>
          id in b.records && Follows(a.records[id], b.records[id]))
  }

  ghost predicate Follows(r: Record, s: Record) {
    && s.tenant == r.tenant && s.workflow == r.workflow && s.idempotency == r.idempotency
    && s.version >= r.version
    && (s.version == r.version ==> s == r)
  }

  lemma WriteGrows(db: Database, w: Write)
    requires Allowed(PairSlot, db, w)
    ensures Grows(db, Apply(PairSlot, db, w))
  {
  }

  lemma GrowsTransitive(a: Database, b: Database, c: Database)
    requires Grows(a, b) && Grows(b, c)
    ensures Grows(a, c)
  {
  }

  lemma {:induction false} LegalPrefix(commits: seq<Entry>, n: nat)
    requires Legal(commits) && n <= |commits|
    ensures Legal(commits[..n])
    ensures n < |commits| ==> Allowed(PairSlot, After(commits[..n]), commits[n].write)
  {
    if n == |commits| {
      assert commits[..n] == commits;
    } else if n == |commits| - 1 {
      assert commits[..n] == Init(commits);
    } else {
      LegalPrefix(Init(commits), n);
      assert Init(commits)[..n] == commits[..n];
    }
  }

  lemma {:induction false} LaterGrows(commits: seq<Entry>, n: nat)
    requires Legal(commits) && n <= |commits|
    ensures Grows(After(commits[..n]), After(commits))
  {
    if n == |commits| {
      assert commits[..n] == commits;
    } else {
      hide Allowed, Apply;
      LaterGrows(Init(commits), n);
      assert Init(commits)[..n] == commits[..n];
      WriteGrows(After(Init(commits)), Last(commits).write);
      GrowsTransitive(After(commits[..n]), After(Init(commits)), After(commits));
    }
  }

  lemma Between(commits: seq<Entry>, m: nat, n: nat)
    requires Legal(commits) && m <= n <= |commits|
    ensures Grows(After(commits[..m]), After(commits[..n]))
  {
    LegalPrefix(commits, n);
    LaterGrows(commits[..n], m);
    assert commits[..n][..m] == commits[..m];
  }

  lemma AfterSnoc(commits: seq<Entry>, e: Entry)
    ensures After(commits + [e]) == Apply(PairSlot, After(commits), e.write)
  {
    InitOfSnoc(commits, e);
  }

  lemma NextState(commits: seq<Entry>, n: nat)
    requires n < |commits|
    ensures After(commits[..n + 1]) == Apply(PairSlot, After(commits[..n]), commits[n].write)
  {
    assert commits[..n + 1] == commits[..n] + [commits[n]];
    AfterSnoc(commits[..n], commits[n]);
  }

  lemma LegalSnoc(commits: seq<Entry>, e: Entry)
    requires Legal(commits) && Allowed(PairSlot, After(commits), e.write)
    ensures Legal(commits + [e])
  {
    InitOfSnoc(commits, e);
  }

  // Every state in the commit order keeps the invariant of the tables: in particular the outbox
  // is an exact source of the records, with the audit log beside it.
  lemma {:induction false} LegalInvariant(commits: seq<Entry>)
    requires Legal(commits)
    ensures Invariant(PairSlot, After(commits))
  {
    if commits == [] {
      EmptyInvariant(PairSlot);
    } else {
      LegalInvariant(Init(commits));
      WriteKeepsInvariant(PairSlot, After(Init(commits)), Last(commits).write);
    }
  }

  // Committed revisions of a record.
  function Revisions(commits: seq<Entry>, id: string): nat {
    if commits == [] then 0
    else
      var w := Last(commits).write;
      Revisions(Init(commits), id) + (if w.Revise? && w.record.id == id then 1 else 0)
  }

  // A record's version is one more than the number of committed revisions.
  lemma {:induction false} VersionCountsRevisions(commits: seq<Entry>, id: string)
    requires Legal(commits)
    ensures var db := After(commits);
            Revisions(commits, id) == if id in db.records then db.records[id].version - 1 else 0
  {
    if commits != [] {
      VersionCountsRevisions(Init(commits), id);
    }
  }
}
