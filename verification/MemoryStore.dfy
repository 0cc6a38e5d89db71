// The in-memory store: the class, each method proved against its specification.

module MemoryStore {
  import opened Domain
  import opened Ids
  import opened Tables
  import opened Outbox
  import Spec = MemorySpec

  class Store {
    var workflows: map<string, Workflow>
    var records: map<string, Record>
    var idempotency: map<string, string>
    var audit: seq<AuditEvent>
    var outbox: seq<OutboxEvent>
    var counter: nat

    ghost function State(): Spec.State
      reads this
    {
      Spec.State(Tables(workflows, records, idempotency, audit, outbox), counter)
    }

    ghost predicate Valid()
      reads this
    {
      Spec.Valid(State())
    }

    constructor ()
      ensures Valid() && State() == Spec.Initial()
    {
      workflows, records, idempotency := map[], map[], map[];
      audit, outbox, counter := [], [], 0;
      new;
      EmptyInvariant(Spec.Slot);
    }

    method NextId(prefix: string) returns (id: string)
      modifies this`counter
      ensures counter == old(counter) + 1 && id == Render(prefix, counter)
    {
      counter := counter + 1;
      id := Render(prefix, counter);
    }

    method AppendAudit(r: Record, kind: Kind)
      modifies this`audit, this`counter
      ensures counter == old(counter) + 1
      ensures audit == old(audit) + [AuditOf(r, kind, Render("evt", counter))]
    {
      var id := NextId("evt");
      audit := audit + [AuditEvent(id, r.tenant, r.id, kind, r.state, r.version)];
    }

    method AppendOutbox(r: Record, kind: Kind)
      modifies this`outbox, this`counter
      ensures counter == old(counter) + 1
      ensures outbox == old(outbox) + [OutboxOf(r, kind, Render("out", counter))]
    {
      var id := NextId("out");
      outbox := outbox + [OutboxEvent(id, r.tenant, r.id, RECORD_EVENTS_TOPIC, r.id, kind,
                                      Change(r.id, r.workflow, r.state, r.version), false, 0, "")];
    }

    method CreateWorkflow(tenant: string, name: string, fields: Data, states: seq<string>)
      returns (result: Result<Workflow>)
      requires Valid()
      modifies this
      ensures Valid()
      ensures (State(), result) == Spec.MakeWorkflow(old(State()), tenant, name, fields, states)
    {
      hide Spec.Valid, Render, Invariant;
      ghost var before := State();
      Spec.MakeWorkflowKeepsValid(before, tenant, name, fields, states);
      if tenant == "" || |states| == 0 || name == "" {
        return Err(InvalidWorkflow);
      }
      var id := NextId("wf");
      var wf := Workflow(id, tenant, name, fields, states, 1);
      workflows := workflows[wf.id := wf];
      return Ok(wf);
    }

    // Lists every workflow of the tenant once, in no particular order.
    method ListWorkflows(tenant: string) returns (out: seq<Workflow>)
      requires Valid()
      ensures Distinct(out) && Elements(out) == Spec.ListedWorkflows(State(), tenant)
    {
      hide Spec.Valid;
      Spec.ValidBasics(State());
      out := [];
      var left := workflows.Keys;
      while left != {}
        invariant left <= workflows.Keys
        invariant Distinct(out)
        invariant forall wf :: wf in out <==>
                    wf.id in workflows && wf.id !in left && workflows[wf.id] == wf && wf.tenant == tenant
        decreases left
      {
        var id :| id in left;
        left := left - {id};
        assert workflows[id].id == id;
        if workflows[id].tenant == tenant {
          DistinctSnoc(out, workflows[id]);
          out := out + [workflows[id]];
        }
      }
    }

    method CreateRecord(tenant: string, key: string, workflow: string, data: Option<Data>)
      returns (result: Result<(Record, bool)>)
      requires Valid()
      modifies this
      ensures Valid()
      ensures (State(), result) == Spec.MakeRecord(old(State()), tenant, key, workflow, data)
    {
      hide Spec.Valid, Render, AuditOf, OutboxOf;
      Spec.ValidBasics(State());
      Spec.MakeRecordKeepsValid(State(), tenant, key, workflow, data);
      if workflow !in workflows || workflows[workflow].tenant != tenant {
        return Err(InvalidWorkflow);
      }
      var wf := workflows[workflow];
      if key != "" {
        var slot := tenant + ":" + key;
        if slot in idempotency {
          return Ok((records[idempotency[slot]], true));
        }
      }
      var id := NextId("rec");
      var r := Record(id, tenant, workflow, wf.states[0], data, 1, key);
      records := records[r.id := r];
      if key != "" {
        idempotency := idempotency[tenant + ":" + key := r.id];
      }
      AppendAudit(r, Created);
      AppendOutbox(r, Created);
      return Ok((r, false));
    }

    // Lists every matching record once, in no particular order.
    method ListRecords(tenant: string, state: string) returns (out: seq<Record>)
      requires Valid()
      ensures Distinct(out) && Elements(out) == Spec.ListedRecords(State(), tenant, state)
    {
      hide Spec.Valid;
      Spec.ValidBasics(State());
      out := [];
      var left := records.Keys;
      while left != {}
        invariant left <= records.Keys
        invariant Distinct(out)
        invariant forall r :: r in out <==>
                    r.id in records && r.id !in left && records[r.id] == r
                    && r.tenant == tenant && (state == "" || r.state == state)
        decreases left
      {
        var id :| id in left;
        left := left - {id};
        var r := records[id];
        assert r.id == id;
        if r.tenant != tenant {
          continue;
        }
        if state != "" && r.state != state {
          continue;
        }
        DistinctSnoc(out, r);
        out := out + [r];
      }
    }

    method GetRecord(tenant: string, id: string) returns (result: Result<Record>)
      ensures result == Spec.ReadRecord(State(), tenant, id)
    {
      if id !in records || records[id].tenant != tenant {
        return Err(NotFound);
      }
      return Ok(records[id]);
    }

    method UpdateRecord(tenant: string, id: string, expected: int, state: string, data: Option<Data>)
      returns (result: Result<Record>)
      requires Valid()
      modifies this
      ensures Valid()
      ensures (State(), result) == Spec.ReviseRecord(old(State()), tenant, id, expected, state, data)
    {
      hide Spec.Valid, Render, AuditOf, OutboxOf;
      Spec.ValidBasics(State());
      Spec.ReviseRecordKeepsValid(State(), tenant, id, expected, state, data);
      if id !in records || records[id].tenant != tenant {
        return Err(NotFound);
      }
      var r := records[id];
      if r.version != expected {
        return Err(Conflict);
      }
      var states := if r.workflow in workflows then workflows[r.workflow].states else [];
      var known := Contains(states, state);
      if state != "" && !known {
        return Err(InvalidWorkflow);
      }
      if state != "" {
        r := r.(state := state);
      }
      if data.Some? {
        r := r.(data := data);
      }
      r := r.(version := r.version + 1);
      records := records[id := r];
      AppendAudit(r, Updated);
      AppendOutbox(r, Updated);
      return Ok(r);
    }

    method ListAuditEvents(tenant: string) returns (out: seq<AuditEvent>)
      ensures out == Spec.AuditTrail(audit, tenant)
    {
      out := [];
      for i := 0 to |audit|
        invariant out == Spec.AuditTrail(audit[..i], tenant)
      {
        InitOfSnoc(audit[..i], audit[i]);
        assert audit[..i + 1] == audit[..i] + [audit[i]];
        if audit[i].tenant == tenant {
          out := out + [audit[i]];
        }
      }
      assert audit[..|audit|] == audit;
    }

    method ListPendingOutbox(limit: int) returns (out: seq<OutboxEvent>)
      ensures out == ListPending(outbox, limit)
    {
      var most := if limit <= 0 then 100 else limit;
      out := [];
      for i := 0 to |outbox|
        invariant out == Pending(outbox[..i]) && |out| < most
      {
        InitOfSnoc(outbox[..i], outbox[i]);
        assert outbox[..i + 1] == outbox[..i] + [outbox[i]];
        if !outbox[i].published {
          out := out + [outbox[i]];
          if |out| == most {
            PendingOfPrefix(outbox, i + 1);
            break;
          }
        }
      }
      if |out| < most {
        assert outbox[..|outbox|] == outbox;
      }
    }

    method MarkOutboxPublished(id: string) returns (found: bool)
      requires Valid()
      modifies this
      ensures Valid()
      ensures (State(), found) == Spec.Amend(old(State()), id, Stamp)
    {
      hide Spec.Valid;
      ghost var before := State();
      Spec.AmendKeepsValid(before, id, Stamp);
      for i := 0 to |outbox|
        invariant State() == before
        invariant forall j :: 0 <= j < i ==> outbox[j].id != id
      {
        if outbox[i].id == id {
          outbox := outbox[i := outbox[i].(published := true, lastError := "")];
          return true;
        }
      }
      return false;
    }

    method MarkOutboxFailed(id: string, reason: string) returns (found: bool)
      requires Valid()
      modifies this
      ensures Valid()
      ensures (State(), found) == Spec.Amend(old(State()), id, e => Retry(e, reason))
    {
      hide Spec.Valid;
      ghost var before := State();
      Spec.AmendKeepsValid(before, id, e => Retry(e, reason));
      for i := 0 to |outbox|
        invariant State() == before
        invariant forall j :: 0 <= j < i ==> outbox[j].id != id
      {
        if outbox[i].id == id {
          outbox := outbox[i := outbox[i].(attempts := outbox[i].attempts + 1, lastError := reason)];
          return true;
        }
      }
      return false;
    }
  }

  method Contains(items: seq<string>, wanted: string) returns (found: bool)
    ensures found <==> wanted in items
  {
    for i := 0 to |items|
      invariant wanted !in items[..i]
    {
      if items[i] == wanted {
        return true;
      }
    }
    return false;
  }
}
