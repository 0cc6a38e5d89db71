// Every identifier the memory store hands out, in order, over a whole run.

module Ledger {
  import opened Domain
  import opened Ids
  import opened Tables
  import opened Outbox
  import opened MemorySpec

  datatype Issue = Issue(prefix: string, counter: nat)

  function Name(i: Issue): string {
    Render(i.prefix, i.counter)
  }

  // The identifiers one call takes from nextID.
  function Issued(s: State, op: Op): seq<Issue>
    requires WorkflowsFormed(s.tables.workflows)
  {
    var next := s.counter + 1;
    match Step(s, op).1
    case WorkflowMade(Ok(_)) => [Issue("wf", next)]
    case RecordMade(Ok((_, false))) => [Issue("rec", next), Issue("evt", next + 1), Issue("out", next + 2)]
    case RecordRead(Ok(_)) => if op.UpdateRecord? then [Issue("evt", next), Issue("out", next + 1)] else []
    case _ => []
  }

  ghost function Issues(ops: seq<Op>): seq<Issue> {
    if ops == [] then [] else Issues(Init(ops)) + Issued(Run(Init(ops)), Last(ops))
  }

  // The identifiers with a given prefix, in order of issue.
  function Named(issues: seq<Issue>, prefix: string): seq<string> {
    if issues == [] then []
    else Named(Init(issues), prefix) + (if Last(issues).prefix == prefix then [Name(Last(issues))] else [])
  }

  function AuditIds(audit: seq<AuditEvent>): seq<string> {
    seq(|audit|, i requires 0 <= i < |audit| => audit[i].id)
  }

  function OutboxIds(outbox: seq<OutboxEvent>): seq<string> {
    seq(|outbox|, i requires 0 <= i < |outbox| => outbox[i].id)
  }

  // The identifiers present in a state.
  datatype Stock = Stock(
    counter: nat, workflows: set<string>, records: set<string>, audit: seq<string>, outbox: seq<string>)

  function StockOf(s: State): Stock {
    Stock(s.counter, s.tables.workflows.Keys, s.tables.records.Keys,
          AuditIds(s.tables.audit), OutboxIds(s.tables.outbox))
  }

  ghost predicate Consecutive(issues: seq<Issue>) {
    forall k :: 0 <= k < |issues| ==>
      issues[k].counter == k + 1 && issues[k].prefix in {"wf", "rec", "evt", "out"}
  }

  // The k-th identifier ever issued carries counter k + 1 and a prefix in use; and the four
  // families of identifiers in the state are exactly the four families issued.
  ghost predicate Balanced(stock: Stock, issues: seq<Issue>) {
    && |issues| == stock.counter
    && Consecutive(issues)
    && stock.workflows == Elements(Named(issues, "wf"))
    && stock.records == Elements(Named(issues, "rec"))
    && stock.audit == Named(issues, "evt")
    && stock.outbox == Named(issues, "out")
  }

  lemma NamedSnoc(issues: seq<Issue>, i: Issue, prefix: string)
    ensures Named(issues + [i], prefix) == Named(issues, prefix) + (if i.prefix == prefix then [Name(i)] else [])
  {
    InitOfSnoc(issues, i);
  }

  lemma PrefixesDiffer()
    ensures "wf" != "rec" && "wf" != "evt" && "wf" != "out" && "rec" != "evt" && "rec" != "out" && "evt" != "out"
  {
    assert "rec"[0] == 'r' && "evt"[0] == 'e' && "out"[0] == 'o';
  }

  // The stock after one more identifier of the given kind.
  function Stocked(stock: Stock, i: Issue): Stock {
    var name := Name(i);
    var counted := stock.(counter := stock.counter + 1);
    if i.prefix == "wf" then counted.(workflows := stock.workflows + {name})
    else if i.prefix == "rec" then counted.(records := stock.records + {name})
    else if i.prefix == "evt" then counted.(audit := stock.audit + [name])
    else counted.(outbox := stock.outbox + [name])
  }

  lemma StockedBalances(stock: Stock, issues: seq<Issue>, i: Issue)
    requires Balanced(stock, issues)
    requires i.counter == stock.counter + 1 && i.prefix in {"wf", "rec", "evt", "out"}
    ensures Balanced(Stocked(stock, i), issues + [i])
  {
    PrefixesDiffer();
    NamedSnoc(issues, i, "wf");
    NamedSnoc(issues, i, "rec");
    NamedSnoc(issues, i, "evt");
    NamedSnoc(issues, i, "out");
  }

  lemma StockCounter(s: State)
    ensures StockOf(s).counter == s.counter
  {
  }

  lemma StockAfterWorkflow(s: State, wf: Workflow)
    requires wf.id == Render("wf", s.counter + 1)
    ensures StockOf(Commit(s, AddWorkflow(wf), 1)) == Stocked(StockOf(s), Issue("wf", s.counter + 1))
  {
  }

  lemma StockAfterRecord(s: State, r: Record)
    requires r.id == Render("rec", s.counter + 1)
    ensures StockOf(Commit(s, AddRecord(r, Render("evt", s.counter + 2), Render("out", s.counter + 3)), 3))
         == Stocked(Stocked(Stocked(StockOf(s), Issue("rec", s.counter + 1)),
                            Issue("evt", s.counter + 2)), Issue("out", s.counter + 3))
  {
    PrefixesDiffer();
  }

  lemma StockAfterRevision(s: State, r: Record)
    requires r.id in s.tables.records
    ensures StockOf(Commit(s, Revise(r, Render("evt", s.counter + 1), Render("out", s.counter + 2)), 2))
         == Stocked(Stocked(StockOf(s), Issue("evt", s.counter + 1)), Issue("out", s.counter + 2))
  {
    PrefixesDiffer();
  }

  lemma RecordBalances(stock: Stock, issues: seq<Issue>, a: Issue, b: Issue, c: Issue)
    requires Balanced(stock, issues)
    requires a == Issue("rec", stock.counter + 1) && b == Issue("evt", stock.counter + 2)
             && c == Issue("out", stock.counter + 3)
    ensures Balanced(Stocked(Stocked(Stocked(stock, a), b), c), issues + [a, b, c])
  {
    StockedBalances(stock, issues, a);
    StockedBalances(Stocked(stock, a), issues + [a], b);
    StockedBalances(Stocked(Stocked(stock, a), b), issues + [a] + [b], c);
    assert issues + [a, b, c] == issues + [a] + [b] + [c];
  }

  lemma RevisionBalances(stock: Stock, issues: seq<Issue>, a: Issue, b: Issue)
    requires Balanced(stock, issues)
    requires a == Issue("evt", stock.counter + 1) && b == Issue("out", stock.counter + 2)
    ensures Balanced(Stocked(Stocked(stock, a), b), issues + [a, b])
  {
    StockedBalances(stock, issues, a);
    StockedBalances(Stocked(stock, a), issues + [a], b);
    assert issues + [a, b] == issues + [a] + [b];
  }

  lemma QuietStep(s: State, op: Op)
    requires WorkflowsFormed(s.tables.workflows) && Issued(s, op) == []
    ensures StockOf(Step(s, op).0) == StockOf(s)
  {
    assert OutboxIds(Step(s, op).0.tables.outbox) == OutboxIds(s.tables.outbox);
  }

  lemma StepBalances(s: State, issues: seq<Issue>, op: Op)
    requires WorkflowsFormed(s.tables.workflows) && Balanced(StockOf(s), issues)
    requires forall id :: id in s.tables.records ==> s.tables.records[id].id == id
    ensures Balanced(StockOf(Step(s, op).0), issues + Issued(s, op))
  {
    hide Balanced, Stocked, StockOf;
    StockCounter(s);
    var next := s.counter + 1;
    match Step(s, op).1 {
      case WorkflowMade(Ok(wf)) =>
        StockAfterWorkflow(s, wf);
        StockedBalances(StockOf(s), issues, Issue("wf", next));
      case RecordMade(Ok((r, false))) =>
        StockAfterRecord(s, r);
        RecordBalances(StockOf(s), issues, Issue("rec", next), Issue("evt", next + 1), Issue("out", next + 2));
      case RecordRead(Ok(r)) =>
        if op.UpdateRecord? {
          StockAfterRevision(s, r);
          RevisionBalances(StockOf(s), issues, Issue("evt", next), Issue("out", next + 1));
        } else {
          assert issues + [] == issues;
        }
      case _ =>
        assert issues + [] == issues;
        QuietStep(s, op);
    }
  }

  lemma {:induction false} RunBalances(ops: seq<Op>)
    ensures Balanced(StockOf(Run(ops)), Issues(ops))
  {
    if ops == [] {
      assert AuditIds(Run(ops).tables.audit) == [] && OutboxIds(Run(ops).tables.outbox) == [];
    } else {
      RunBalances(Init(ops));
      ReachableIsValid(Init(ops));
      StepBalances(Run(Init(ops)), Issues(Init(ops)), Last(ops));
    }
  }

  // Over a whole run no identifier is issued twice, whatever its kind and however far the
  // counter has gone; and the state holds exactly the identifiers issued.
  lemma IdsNeverRepeat(ops: seq<Op>)
    ensures forall i, j :: 0 <= i < j < |Issues(ops)| ==> Name(Issues(ops)[i]) != Name(Issues(ops)[j])
    ensures Balanced(StockOf(Run(ops)), Issues(ops))
  {
    RunBalances(ops);
    forall i, j | 0 <= i < j < |Issues(ops)| ensures Name(Issues(ops)[i]) != Name(Issues(ops)[j]) {
      NamesDiffer(Issues(ops)[i], Issues(ops)[j]);
    }
  }

  lemma NamesDiffer(a: Issue, b: Issue)
    requires a.counter != b.counter
    requires a.prefix in {"wf", "rec", "evt", "out"} && b.prefix in {"wf", "rec", "evt", "out"}
    ensures Name(a) != Name(b)
  {
    if Name(a) == Name(b) {
      RenderInjective(a.prefix, a.counter, b.prefix, b.counter);
    }
  }

  lemma {:induction false} NamedMembers(issues: seq<Issue>, prefix: string)
    ensures forall id :: id in Named(issues, prefix) <==>
              exists k :: 0 <= k < |issues| && issues[k].prefix == prefix && id == Name(issues[k])
  {
    if issues != [] {
      NamedMembers(Init(issues), prefix);
      assert forall k :: 0 <= k < |issues| - 1 ==> Init(issues)[k] == issues[k];
    }
  }

  lemma {:induction false} NamedDistinct(issues: seq<Issue>, prefix: string)
    requires Consecutive(issues)
    ensures Distinct(Named(issues, prefix))
  {
    if issues != [] {
      var before := Named(Init(issues), prefix);
      NamedDistinct(Init(issues), prefix);
      NamedMembers(Init(issues), prefix);
      forall k | 0 <= k < |issues| - 1 ensures Name(Init(issues)[k]) != Name(Last(issues)) {
        NamesDiffer(issues[k], Last(issues));
      }
      DistinctSnoc(before, Name(Last(issues)));
    }
  }

  // In every reachable state outbox identifiers are distinct, as the relay and the consumer need.
  lemma OutboxIdsDistinct(ops: seq<Op>)
    ensures DistinctIds(Run(ops).tables.outbox) && Distinct(AuditIds(Run(ops).tables.audit))
  {
    var outbox := Run(ops).tables.outbox;
    assert forall i :: 0 <= i < |outbox| ==> OutboxIds(outbox)[i] == outbox[i].id;
    RunBalances(ops);
    NamedDistinct(Issues(ops), "out");
    NamedDistinct(Issues(ops), "evt");
  }
}
