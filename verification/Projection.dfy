// The notification projection: insert-if-absent keyed by the source event's identifier.

module Projection {
  import opened Domain

  type Notifications = map<string, Notification>

  // The state an event's payload names, "" if it names none.
  function StateIn(payload: Payload): string {
    match payload
    case Change(_, _, state, _) => state
    case Annotated(original, _, _) => StateIn(original)
    case Undecodable(_, _) => ""
  }

  function NotificationOf(e: OutboxEvent, now: int): Notification {
    Notification(e.id, e.tenant, e.aggregate, e.kind, StateIn(e.payload), now)
  }

  // The notification shows this record event, field by field.
  ghost predicate Shows(n: Notification, e: OutboxEvent) {
    e.payload.Change? && n == Notification(e.id, e.tenant, e.aggregate, e.kind, e.payload.state, n.createdAt)
  }

  function InsertOnce(notifications: Notifications, n: Notification): Notifications {
    if n.id in notifications then notifications else notifications[n.id := n]
  }

  class Sink {
    var notifications: Notifications

    constructor ()
      ensures notifications == map[]
    {
      notifications := map[];
    }

    // Reports whether the notification was new; None is an error of the database.
    method StoreNotification(n: Notification, fault: Fault) returns (inserted: Option<bool>)
      modifies this
      ensures notifications == if fault.FailsClean? then old(notifications) else InsertOnce(old(notifications), n)
      ensures inserted == if fault.Works? then Some(n.id !in old(notifications)) else None
    {
      var duplicate := n.id in notifications;
      if !fault.FailsClean? && !duplicate {
        notifications := notifications[n.id := n];
      }
      if !fault.Works? {
        return None;
      }
      return Some(!duplicate);
    }

    method Handle(e: OutboxEvent, now: int, fault: Fault) returns (ok: bool)
      modifies this
      ensures notifications ==
              if fault.FailsClean? then old(notifications) else InsertOnce(old(notifications), NotificationOf(e, now))
      ensures ok == fault.Works?
      ensures !fault.FailsClean? && e.id !in old(notifications) && e.payload.Change? ==>
                notifications == old(notifications)[e.id :=
                  Notification(e.id, e.tenant, e.aggregate, e.kind, e.payload.state, now)]
    {
      var inserted := StoreNotification(
        Notification(e.id, e.tenant, e.aggregate, e.kind, StateIn(e.payload), now), fault);
      ok := inserted.Some?;
    }
  }

  // ----- Delivery sequences -----

  datatype Delivery = Delivery(event: OutboxEvent, now: int)

  function Project(deliveries: seq<Delivery>): Notifications {
    if deliveries == [] then map[]
    else InsertOnce(Project(Init(deliveries)), NotificationOf(Last(deliveries).event, Last(deliveries).now))
  }

  // Creation time aside.
  function Timeless(n: Notification): Notification {
    n.(createdAt := 0)
  }

  function Shown(notifications: Notifications): Notifications {
    map id | id in notifications :: Timeless(notifications[id])
  }

  // The first delivery of an identifier is the one that shows.
  function FirstOf(deliveries: seq<Delivery>, id: string): (i: nat)
    ensures i <= |deliveries|
    ensures forall j :: 0 <= j < i ==> deliveries[j].event.id != id
    ensures i < |deliveries| ==> deliveries[i].event.id == id
  {
    if deliveries == [] then 0
    else
      var i := FirstOf(Init(deliveries), id);
      if i < |deliveries| - 1 then i else if Last(deliveries).event.id == id then i else i + 1
  }

  lemma {:induction false} ProjectShowsFirst(deliveries: seq<Delivery>, id: string)
    ensures var i := FirstOf(deliveries, id);
            var result := Project(deliveries);
            && (id in result <==> i < |deliveries|)
            && (id in result ==> result[id] == NotificationOf(deliveries[i].event, deliveries[i].now))
  {
    if deliveries != [] {
      ProjectShowsFirst(Init(deliveries), id);
    }
  }

  // A stored notification never changes, whatever is delivered afterwards.
  lemma {:induction false} StoredNeverChanges(earlier: seq<Delivery>, later: seq<Delivery>, id: string)
    requires id in Project(earlier)
    ensures id in Project(earlier + later) && Project(earlier + later)[id] == Project(earlier)[id]
  {
    if later == [] {
      assert earlier + later == earlier;
    } else {
      StoredNeverChanges(earlier, Init(later), id);
      assert earlier + later == (earlier + Init(later)) + [Last(later)];
      InitOfSnoc(earlier + Init(later), Last(later));
    }
  }

  ghost predicate SameEvents(a: seq<Delivery>, b: seq<Delivery>) {
    && (forall i :: 0 <= i < |a| ==> Delivers(b, a[i].event))
    && (forall i :: 0 <= i < |b| ==> Delivers(a, b[i].event))
  }

  ghost predicate Delivers(deliveries: seq<Delivery>, e: OutboxEvent) {
    exists i :: 0 <= i < |deliveries| && deliveries[i].event == e
  }

  // Events with one identifier show the same notification, as events of one outbox do.
  ghost predicate Consistent(deliveries: seq<Delivery>) {
    forall i, j :: 0 <= i < |deliveries| && 0 <= j < |deliveries| && deliveries[i].event.id == deliveries[j].event.id ==>
      NotificationOf(deliveries[i].event, 0) == NotificationOf(deliveries[j].event, 0)
  }

  lemma ShownEntry(a: seq<Delivery>, b: seq<Delivery>, id: string)
    requires SameEvents(a, b) && Consistent(a)
    ensures id in Project(a) ==> id in Project(b) && Timeless(Project(b)[id]) == Timeless(Project(a)[id])
    ensures id in Project(b) ==> id in Project(a)
  {
    hide Project;
    ProjectShowsFirst(a, id);
    ProjectShowsFirst(b, id);
    var i, j := FirstOf(a, id), FirstOf(b, id);
    if i < |a| {
      assert Delivers(b, a[i].event);
    }
    if j < |b| {
      assert Delivers(a, b[j].event);
      var k :| 0 <= k < |a| && a[k].event == b[j].event;
      assert a[k].event.id == id;
    }
  }

  // Redelivery and order do not matter: two delivery sequences of the same events, with any
  // duplicates, reorderings and clocks, leave the same projection, creation time aside.
  lemma OrderIrrelevant(a: seq<Delivery>, b: seq<Delivery>)
    requires SameEvents(a, b) && Consistent(a)
    ensures Shown(Project(a)) == Shown(Project(b))
  {
    forall id ensures id in Shown(Project(a)) <==> id in Shown(Project(b)) {
      ShownEntry(a, b, id);
    }
    forall id | id in Shown(Project(a)) ensures Shown(Project(a))[id] == Shown(Project(b))[id] {
      ShownEntry(a, b, id);
    }
  }

  lemma FrontShows(x: Delivery, rest: seq<Delivery>)
    ensures x.event.id in Project([x] + rest)
    ensures Project([x] + rest)[x.event.id] == NotificationOf(x.event, x.now)
  {
    ProjectShowsFirst([x] + rest, x.event.id);
    assert ([x] + rest)[0] == x;
  }

  lemma FrontDecides(x: Delivery, y: Delivery, rest: seq<Delivery>)
    requires x.event.id == y.event.id && NotificationOf(x.event, 0) != NotificationOf(y.event, 0)
    ensures Shown(Project([x] + rest)) != Shown(Project([y] + rest))
  {
    hide Project;
    FrontShows(x, rest);
    FrontShows(y, rest);
    assert Shown(Project([x] + rest))[x.event.id] != Shown(Project([y] + rest))[x.event.id];
  }

  // And this is exactly what it takes: the outcome is the same for every order and repetition of
  // some deliveries if and only if events that share an identifier show the same notification.
  lemma OrderIrrelevantIff(deliveries: seq<Delivery>)
    ensures Consistent(deliveries) <==>
            forall a, b :: SameEvents(a, deliveries) && SameEvents(b, deliveries) ==>
              Shown(Project(a)) == Shown(Project(b))
  {
    hide Project, Shown, SameEvents, NotificationOf;
    if Consistent(deliveries) {
      forall a, b | SameEvents(a, deliveries) && SameEvents(b, deliveries)
        ensures Shown(Project(a)) == Shown(Project(b))
      {
        SameEventsSymmetric(a, deliveries);
        SameEventsSymmetric(b, deliveries);
        OrderIrrelevant(deliveries, a);
        OrderIrrelevant(deliveries, b);
      }
    } else {
      var i, j :| 0 <= i < |deliveries| && 0 <= j < |deliveries|
                  && deliveries[i].event.id == deliveries[j].event.id
                  && NotificationOf(deliveries[i].event, 0) != NotificationOf(deliveries[j].event, 0);
      FrontSameEvents(deliveries, i);
      FrontSameEvents(deliveries, j);
      FrontDecides(deliveries[i], deliveries[j], deliveries);
    }
  }

  lemma SameEventsSymmetric(a: seq<Delivery>, b: seq<Delivery>)
    requires SameEvents(a, b)
    ensures SameEvents(b, a)
  {
  }

  lemma FrontSameEvents(deliveries: seq<Delivery>, i: nat)
    requires i < |deliveries|
    ensures SameEvents([deliveries[i]] + deliveries, deliveries)
  {
    var a := [deliveries[i]] + deliveries;
    forall k | 0 <= k < |a| ensures Delivers(deliveries, a[k].event) {
      if k > 0 {
        assert a[k] == deliveries[k - 1];
      }
    }
    forall k | 0 <= k < |deliveries| ensures Delivers(a, deliveries[k].event) {
      assert a[k + 1] == deliveries[k];
    }
  }
}
