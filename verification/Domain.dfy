// Entities shared by every component of the workflow platform.

module Domain {
  datatype Option<+T> = None | Some(value: T)

  datatype StoreError = NotFound | Conflict | InvalidWorkflow

  datatype Result<+T> = Ok(value: T) | Err(error: StoreError)

  // The dynamic content of a record: the store only ever copies it.
  type Data = string

  datatype Workflow = Workflow(
    id: string, tenant: string, name: string, fields: Data, states: seq<string>, version: int)

  datatype Record = Record(
    id: string, tenant: string, workflow: string, state: string,
    data: Option<Data>, version: int, idempotency: string)

  // Event types. Failed(k) is the type of k with ".failed" appended.
  datatype Kind = Created | Updated | Failed(of: Kind) | DecodeFailed

  // Event payloads. Annotated adds the two keys the consumer writes before dead-lettering.
  datatype Payload =
    | Change(recordId: string, workflowId: string, state: string, version: int)
    | Annotated(original: Payload, consumerError: string, consumerAttempts: int)
    | Undecodable(raw: string, error: string)

  datatype AuditEvent = AuditEvent(
    id: string, tenant: string, record: string, kind: Kind, state: string, version: int)

  datatype OutboxEvent = OutboxEvent(
    id: string, tenant: string, aggregate: string, topic: string, key: string, kind: Kind,
    payload: Payload, published: bool, attempts: int, lastError: string)

  datatype Notification = Notification(
    id: string, tenant: string, record: string, kind: Kind, state: string, createdAt: int)

  // A store call works, or reports an error without or with having taken effect.
  datatype Fault = Works | FailsClean | FailsDirty

  const RECORD_EVENTS_TOPIC := "workflow.record-events"

  // Last element split off: the shape of every fold over a log in this project.
  function Init<T>(s: seq<T>): seq<T>
    requires s != []
  {
    s[..|s| - 1]
  }

  function Last<T>(s: seq<T>): T
    requires s != []
  {
    s[|s| - 1]
  }

  lemma SplitLast<T>(s: seq<T>)
    requires s != []
    ensures s == Init(s) + [Last(s)]
  {
  }

  lemma InitOfSnoc<T>(s: seq<T>, x: T)
    ensures Init(s + [x]) == s && Last(s + [x]) == x
  {
  }

  ghost predicate Distinct<T>(s: seq<T>) {
    forall i, j :: 0 <= i < j < |s| ==> s[i] != s[j]
  }

  lemma DistinctSnoc<T>(s: seq<T>, x: T)
    requires Distinct(s) && x !in s
    ensures Distinct(s + [x])
  {
  }

  function Elements<T>(s: seq<T>): set<T> {
    set x | x in s
  }
}
