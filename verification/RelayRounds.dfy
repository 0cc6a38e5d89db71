// One round of the drain loop in either mode, and how far a drain has come after whole rounds.

module RelayRounds {
  import opened Domain
  import opened Outbox
  import opened Broker
  import opened RelaySpec

  const DEFAULT_BATCH := 250

  // What goes wrong in one round: the listing, the batch calls, or the calls of each item.
  datatype RoundFault = RoundFault(
    list: bool, publish: WriteFault, mark: Fault, notes: nat -> Fault, items: nat -> ItemFault)

  function NoteAll(rows: seq<OutboxEvent>, items: seq<OutboxEvent>, notes: nat -> Fault): seq<OutboxEvent> {
    if items == [] then rows
    else Noted(NoteAll(rows, Init(items), notes), Last(items).id, REFUSED, notes(|items| - 1))
  }

  function BatchRound(w: World, items: seq<OutboxEvent>, f: RoundFault): World {
    World(if f.publish.Rejects? then NoteAll(w.rows, items, f.notes) else Marked(w.rows, IdsOf(items), f.mark),
          w.log + Written(Messages(items), f.publish))
  }

  function Round(w: World, items: seq<OutboxEvent>, batching: bool, f: RoundFault): World {
    if batching then BatchRound(w, items, f) else AllItems(w, items, f.items)
  }

  function RoundErrors(items: seq<OutboxEvent>, batching: bool, f: RoundFault): seq<RelayError> {
    if !batching then ItemErrors(items, f.items)
    else if f.publish.Rejects? then [BatchRefused]
    else if !f.mark.Works? then [BatchUnmarked]
    else []
  }

  function RoundCount(items: seq<OutboxEvent>, batching: bool, f: RoundFault): nat {
    if !batching then CountOf(f.items, |items|, Published)
    else if f.publish.Accepts? && f.mark.Works? then |items| else 0
  }

  // The state after the first k rounds, each of what is then pending.
  function AfterRounds(w: World, size: nat, batching: bool, plan: nat -> RoundFault, k: nat): World {
    if k == 0 then w
    else
      var v := AfterRounds(w, size, batching, plan, k - 1);
      Round(v, Take(Pending(v.rows), size), batching, plan(k - 1))
  }

  // The batch of a round if it was published and marked, also if the mark was not reported.
  function RoundAcked(w: World, size: nat, f: RoundFault): seq<OutboxEvent> {
    if f.publish.Accepts? && !f.mark.FailsClean? then Take(Pending(w.rows), size) else []
  }

  // The batches published and marked in the first k rounds, one after the other.
  function Acked(w: World, size: nat, plan: nat -> RoundFault, k: nat): seq<OutboxEvent> {
    if k == 0 then []
    else Acked(w, size, plan, k - 1) + RoundAcked(AfterRounds(w, size, true, plan, k - 1), size, plan(k - 1))
  }

  // The state after whole rounds that published and marked the first n pending events.
  function Progress(w: World, n: nat): World
    requires n <= |Pending(w.rows)|
  {
    World(StampIds(w.rows, IdsOf(Pending(w.rows)[..n])), w.log + Messages(Pending(w.rows)[..n]))
  }

  // ----- Pending events under stamping -----

  function DropIds(s: seq<OutboxEvent>, ids: set<string>): seq<OutboxEvent> {
    if s == [] then [] else DropIds(Init(s), ids) + (if Last(s).id in ids then [] else [Last(s)])
  }

  lemma StampInit(rows: seq<OutboxEvent>, ids: set<string>)
    requires rows != []
    ensures StampIds(rows, ids) ==
            StampIds(Init(rows), ids) + [if Last(rows).id in ids then Stamp(Last(rows)) else Last(rows)]
  {
  }

  lemma DropSnoc(s: seq<OutboxEvent>, e: OutboxEvent, ids: set<string>)
    ensures DropIds(s + [e], ids) == DropIds(s, ids) + (if e.id in ids then [] else [e])
  {
    InitOfSnoc(s, e);
  }

  lemma PendingSnoc(rows: seq<OutboxEvent>, e: OutboxEvent)
    ensures Pending(rows + [e]) == Pending(rows) + (if e.published then [] else [e])
  {
    InitOfSnoc(rows, e);
  }

  lemma {:induction false} PendingAfterStamp(rows: seq<OutboxEvent>, ids: set<string>)
    ensures Pending(StampIds(rows, ids)) == DropIds(Pending(rows), ids)
  {
    if rows != [] {
      hide StampIds;
      PendingAfterStamp(Init(rows), ids);
      StampInit(rows, ids);
      var e := Last(rows);
      PendingSnoc(StampIds(Init(rows), ids), if e.id in ids then Stamp(e) else e);
      if e.published {
        assert Pending(rows) == Pending(Init(rows));
        assert Pending(StampIds(rows, ids)) == Pending(StampIds(Init(rows), ids));
      } else {
        DropSnoc(Pending(Init(rows)), e, ids);
      }
    } else {
      assert StampIds(rows, ids) == [];
    }
  }

  lemma {:induction false} DropNone(s: seq<OutboxEvent>, ids: set<string>)
    requires forall i :: 0 <= i < |s| ==> s[i].id !in ids
    ensures DropIds(s, ids) == s
  {
    if s != [] {
      hide Init, Last;
      SplitLast(s);
      DropNone(Init(s), ids);
    }
  }

  lemma {:induction false} DropAll(s: seq<OutboxEvent>, ids: set<string>)
    requires forall i :: 0 <= i < |s| ==> s[i].id in ids
    ensures DropIds(s, ids) == []
  {
    if s != [] {
      DropAll(Init(s), ids);
    }
  }

  lemma {:induction false} DropConcat(a: seq<OutboxEvent>, b: seq<OutboxEvent>, ids: set<string>)
    ensures DropIds(a + b, ids) == DropIds(a, ids) + DropIds(b, ids)
  {
    if b == [] {
      assert a + b == a;
    } else {
      DropConcat(a, Init(b), ids);
      assert a + b == (a + Init(b)) + [Last(b)];
      DropSnoc(a + Init(b), Last(b), ids);
    }
  }

  lemma IdsOfParts(s: seq<OutboxEvent>, n: nat)
    requires DistinctIds(s) && n <= |s|
    ensures forall i :: 0 <= i < n ==> s[..n][i].id in IdsOf(s[..n])
    ensures forall i :: 0 <= i < |s| - n ==> s[n..][i].id !in IdsOf(s[..n])
  {
  }

  lemma DropPrefix(s: seq<OutboxEvent>, n: nat)
    requires DistinctIds(s) && n <= |s|
    ensures DropIds(s, IdsOf(s[..n])) == s[n..]
  {
    hide DropIds, Init, Last, DistinctIds, IdsOf;
    var a, b := s[..n], s[n..];
    assert s == a + b;
    IdsOfParts(s, n);
    DropConcat(a, b, IdsOf(a));
    DropAll(a, IdsOf(a));
    DropNone(b, IdsOf(a));
    assert [] + b == b;
  }

  lemma {:induction false} PendingDistinct(rows: seq<OutboxEvent>)
    requires DistinctIds(rows)
    ensures DistinctIds(Pending(rows))
  {
    if rows != [] {
      PendingDistinct(Init(rows));
      PendingIsUnpublished(Init(rows));
      var p := Pending(Init(rows));
      forall i | 0 <= i < |p| ensures p[i].id != Last(rows).id {
        assert p[i] in Init(rows);
      }
    }
  }

  // After n events of progress exactly the later pending events are pending.
  lemma PendingAfterProgress(w: World, n: nat)
    requires DistinctIds(w.rows) && n <= |Pending(w.rows)|
    ensures Pending(Progress(w, n).rows) == Pending(w.rows)[n..]
  {
    PendingDistinct(w.rows);
    PendingAfterStamp(w.rows, IdsOf(Pending(w.rows)[..n]));
    DropPrefix(Pending(w.rows), n);
  }

  lemma ProgressKeepsIds(w: World, n: nat)
    requires n <= |Pending(w.rows)|
    ensures |Progress(w, n).rows| == |w.rows|
    ensures forall i :: 0 <= i < |w.rows| ==> Progress(w, n).rows[i].id == w.rows[i].id
  {
  }

  lemma IdsOfConcat(a: seq<OutboxEvent>, b: seq<OutboxEvent>)
    ensures IdsOf(a + b) == IdsOf(a) + IdsOf(b)
  {
    forall id | id in IdsOf(a) + IdsOf(b) ensures id in IdsOf(a + b) {
      if id in IdsOf(a) {
        var i :| 0 <= i < |a| && a[i].id == id;
        assert (a + b)[i].id == id;
      } else {
        var i :| 0 <= i < |b| && b[i].id == id;
        assert (a + b)[|a| + i].id == id;
      }
    }
  }

  lemma StampTwice(rows: seq<OutboxEvent>, a: set<string>, b: set<string>)
    ensures StampIds(StampIds(rows, a), b) == StampIds(rows, a + b)
  {
  }

  lemma MessagesConcat(a: seq<OutboxEvent>, b: seq<OutboxEvent>)
    ensures Messages(a + b) == Messages(a) + Messages(b)
  {
  }

  // ----- An error-free round, in either mode -----

  lemma {:induction false} CleanItems(w: World, items: seq<OutboxEvent>, faults: nat -> ItemFault)
    requires ItemErrors(items, faults) == []
    ensures AllItems(w, items, faults) == World(StampIds(w.rows, IdsOf(items)), w.log + Messages(items))
    ensures CountOf(faults, |items|, Published) == |items|
  {
    if items == [] {
      assert StampIds(w.rows, IdsOf(items)) == w.rows;
      assert Messages(items) == [];
    } else {
      hide StampIds, IdsOf, Messages;
      var e := Last(items);
      CleanItems(w, Init(items), faults);
      assert items == Init(items) + [e];
      SingleItem(e);
      StampTwice(w.rows, IdsOf(Init(items)), {e.id});
      IdsOfConcat(Init(items), [e]);
      MessagesConcat(Init(items), [e]);
    }
  }

  lemma SingleItem(e: OutboxEvent)
    ensures IdsOf([e]) == {e.id} && Messages([e]) == [MessageOf(e)]
  {
    assert [e][0] == e;
  }

  // A round without errors has the same effect whether it ran in batch or item by item.
  lemma CleanRound(w: World, items: seq<OutboxEvent>, batching: bool, f: RoundFault)
    requires RoundErrors(items, batching, f) == []
    ensures Round(w, items, batching, f) == World(StampIds(w.rows, IdsOf(items)), w.log + Messages(items))
    ensures RoundCount(items, batching, f) == |items|
  {
    if !batching {
      CleanItems(w, items, f.items);
    }
  }

  // One more error-free round is more progress.
  lemma RoundExtendsProgress(w: World, n: nat, size: nat, batching: bool, f: RoundFault)
    requires n <= |Pending(w.rows)|
    requires RoundErrors(Take(Pending(w.rows)[n..], size), batching, f) == []
    ensures var items := Take(Pending(w.rows)[n..], size);
            && n + |items| <= |Pending(w.rows)|
            && Round(Progress(w, n), items, batching, f) == Progress(w, n + |items|)
  {
    hide StampIds, IdsOf, Messages, Round, RoundErrors;
    var pending := Pending(w.rows);
    var items := Take(pending[n..], size);
    CleanRound(Progress(w, n), items, batching, f);
    assert pending[..n + |items|] == pending[..n] + items;
    StampTwice(w.rows, IdsOf(pending[..n]), IdsOf(items));
    IdsOfConcat(pending[..n], items);
    MessagesConcat(pending[..n], items);
  }
}
