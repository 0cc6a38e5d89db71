// The outbox relay: the collection it reads and marks, and the drain loop.

module Relay {
  import opened Domain
  import opened Outbox
  import opened Broker
  import opened RelaySpec
  import opened RelayRounds
  import opened RelayAccounting

  // The outbox collection. Each call takes the way it fails, if it does.
  class OutboxStore {
    var rows: seq<OutboxEvent>

    constructor (rows: seq<OutboxEvent>)
      ensures this.rows == rows
    {
      this.rows := rows;
    }

    method ListPendingOutbox(limit: int, works: bool) returns (items: Option<seq<OutboxEvent>>)
      ensures items == if works then Some(ListPending(rows, limit)) else None
    {
      items := if works then Some(ListPending(rows, limit)) else None;
    }

    method MarkOutboxPublished(id: string, fault: Fault) returns (ok: bool)
      modifies this
      ensures rows == Marked(old(rows), {id}, fault) && ok == fault.Works?
    {
      rows := Marked(rows, {id}, fault);
      ok := fault.Works?;
    }

    method MarkOutboxPublishedBatch(ids: seq<string>, fault: Fault) returns (ok: bool)
      modifies this
      ensures ids != [] ==> rows == Marked(old(rows), Elements(ids), fault) && ok == fault.Works?
      ensures ids == [] ==> rows == old(rows) && ok
    {
      if |ids| == 0 {
        return true;
      }
      rows := Marked(rows, Elements(ids), fault);
      ok := fault.Works?;
    }

    method MarkOutboxFailed(id: string, reason: string, fault: Fault)
      modifies this
      ensures rows == Noted(old(rows), id, reason, fault)
    {
      rows := Noted(rows, id, reason, fault);
    }
  }

  ghost function WorldOf(outbox: OutboxStore, topic: Topic): World
    reads outbox, topic
  {
    World(outbox.rows, topic.log)
  }

  // Publishes and marks one event after the other, carrying on after a failure.
  method PublishSequential(outbox: OutboxStore, topic: Topic, items: seq<OutboxEvent>, faults: nat -> ItemFault)
    returns (published: nat, errors: seq<RelayError>)
    modifies outbox, topic
    ensures WorldOf(outbox, topic) == AllItems(old(WorldOf(outbox, topic)), items, faults)
    ensures published == CountOf(faults, |items|, Published)
    ensures errors == ItemErrors(items, faults)
  {
    hide AllItems, ItemErrors, CountOf, OneItem;
    published, errors := 0, [];
    NoItems(WorldOf(outbox, topic), faults);
    ghost var before := WorldOf(outbox, topic);
    for i := 0 to |items|
      invariant WorldOf(outbox, topic) == AllItems(before, items[..i], faults)
      invariant published == CountOf(faults, i, Published)
      invariant errors == ItemErrors(items[..i], faults)
    {
      var e := items[i];
      ghost var w := WorldOf(outbox, topic);
      NextItem(before, items, faults, i);
      OneItemIs(w, e, faults(i));
      var sent := topic.Publish(e, faults(i).publish);
      if !sent {
        outbox.MarkOutboxFailed(e.id, REFUSED, faults(i).note);
        errors := errors + [ItemRefused(e.id)];
        continue;
      }
      var marked := outbox.MarkOutboxPublished(e.id, faults(i).mark);
      if !marked {
        errors := errors + [ItemUnmarked(e.id)];
        continue;
      }
      published := published + 1;
    }
    assert items[..|items|] == items;
  }

  lemma NoItems(w: World, faults: nat -> ItemFault)
    ensures AllItems(w, [], faults) == w && ItemErrors([], faults) == [] && CountOf(faults, 0, Published) == 0
  {
  }

  lemma NextItem(w: World, items: seq<OutboxEvent>, faults: nat -> ItemFault, i: nat)
    requires i < |items|
    ensures AllItems(w, items[..i + 1], faults) == OneItem(AllItems(w, items[..i], faults), items[i], faults(i))
    ensures CountOf(faults, i + 1, Published) ==
            CountOf(faults, i, Published) + (if OutcomeOf(faults(i)) == Published then 1 else 0)
    ensures ItemErrors(items[..i + 1], faults) ==
            ItemErrors(items[..i], faults) + (match OutcomeOf(faults(i))
                                              case Published => []
                                              case Refused => [ItemRefused(items[i].id)]
                                              case Unmarked => [ItemUnmarked(items[i].id)])
  {
    hide OneItem;
    assert items[..i + 1] == items[..i] + [items[i]];
    InitOfSnoc(items[..i], items[i]);
  }

  lemma OneItemIs(w: World, e: OutboxEvent, fault: ItemFault)
    ensures OneItem(w, e, fault).log == w.log + Written([MessageOf(e)], fault.publish)
    ensures OneItem(w, e, fault).rows ==
            if fault.publish.Rejects? then Noted(w.rows, e.id, REFUSED, fault.note)
            else Marked(w.rows, {e.id}, fault.mark)
  {
  }

  // The batch path of one round.
  method PublishInBatch(outbox: OutboxStore, topic: Topic, items: seq<OutboxEvent>, f: RoundFault)
    returns (published: nat, errors: seq<RelayError>)
    requires items != []
    modifies outbox, topic
    ensures WorldOf(outbox, topic) == BatchRound(old(WorldOf(outbox, topic)), items, f)
    ensures published == RoundCount(items, true, f)
    ensures errors == RoundErrors(items, true, f)
    ensures DistinctIds(items) ==> Accounted(old(outbox.rows), outbox.rows, items, true, f)
  {
    hide Accounted, DistinctIds;
    if DistinctIds(items) {
      BatchAccounting(WorldOf(outbox, topic), items, f);
    }
    var sent := topic.PublishBatch(items, f.publish);
    if !sent {
      ghost var rows := outbox.rows;
      for i := 0 to |items|
        invariant outbox.rows == NoteAll(rows, items[..i], f.notes)
        invariant topic.log == old(topic.log) + Written(Messages(items), f.publish)
      {
        assert items[..i + 1] == items[..i] + [items[i]];
        InitOfSnoc(items[..i], items[i]);
        outbox.MarkOutboxFailed(items[i].id, REFUSED, f.notes(i));
      }
      assert items[..|items|] == items;
      return 0, [BatchRefused];
    }
    var ids := [];
    for i := 0 to |items|
      invariant |ids| == i && forall j :: 0 <= j < i ==> ids[j] == items[j].id
    {
      ids := ids + [items[i].id];
    }
    IdsInOrder(items, ids);
    var marked := outbox.MarkOutboxPublishedBatch(ids, f.mark);
    if !marked {
      return 0, [BatchUnmarked];
    }
    return |items|, [];
  }

  // One round: the batch path if publisher and store both offer it, else event by event.
  method PublishRound(outbox: OutboxStore, topic: Topic, items: seq<OutboxEvent>, batching: bool, f: RoundFault)
    returns (published: nat, errors: seq<RelayError>)
    requires items != []
    modifies outbox, topic
    ensures WorldOf(outbox, topic) == Round(old(WorldOf(outbox, topic)), items, batching, f)
    ensures published == RoundCount(items, batching, f)
    ensures errors == RoundErrors(items, batching, f)
  {
    if batching {
      published, errors := PublishInBatch(outbox, topic, items, f);
    } else {
      published, errors := PublishSequential(outbox, topic, items, f.items);
    }
  }

  lemma IdsInOrder(items: seq<OutboxEvent>, ids: seq<string>)
    requires |ids| == |items| && forall j :: 0 <= j < |items| ==> ids[j] == items[j].id
    ensures Elements(ids) == IdsOf(items)
  {
    forall id | id in IdsOf(items) ensures id in Elements(ids) {
      var i :| 0 <= i < |items| && items[i].id == id;
      assert ids[i] == id;
    }
  }

  function BatchSize(requested: int): (n: nat)
    ensures n > 0 && n == if requested > 0 then requested else 250
  {
    if requested <= 0 then DEFAULT_BATCH else requested
  }

  // How a drain ends: after n events of progress in `rounds` whole rounds, either nothing is
  // pending, or the listing failed, or one more round ended with errors.
  ghost predicate Drained(before: World, after: World, size: nat, batching: bool, plan: nat -> RoundFault,
                          n: nat, rounds: nat, total: nat, errors: seq<RelayError>)
  {
    var pending := Pending(before.rows);
    n <= |pending| &&
    if errors == [] then n == |pending| && total == n && after == Progress(before, n)
    else if errors == [ListFailed] then !plan(rounds).list && total == n && after == Progress(before, n)
    else
      var items := Take(pending[n..], size);
      && items != []
      && errors == RoundErrors(items, batching, plan(rounds))
      && total == n + RoundCount(items, batching, plan(rounds))
      && after == Round(Progress(before, n), items, batching, plan(rounds))
  }

  lemma RoundErrorsNameNoListing(items: seq<OutboxEvent>, batching: bool, f: RoundFault)
    ensures RoundErrors(items, batching, f) != [ListFailed]
  {
    ItemErrorsNameNoListing(items, f.items);
  }

  lemma {:induction false} ItemErrorsNameNoListing(items: seq<OutboxEvent>, faults: nat -> ItemFault)
    ensures ListFailed !in ItemErrors(items, faults)
  {
    if items != [] {
      ItemErrorsNameNoListing(Init(items), faults);
    }
  }

  // What a listing returns after n events of progress, and what its length says.
  lemma Listing(before: World, n: nat, size: nat)
    requires DistinctIds(before.rows) && n <= |Pending(before.rows)| && size > 0
    ensures var items := ListPending(Progress(before, n).rows, size);
            && items == Take(Pending(before.rows)[n..], size)
            && items == Take(Pending(Progress(before, n).rows), size)
            && |items| <= size && n + |items| <= |Pending(before.rows)|
            && (|items| < size ==> n + |items| == |Pending(before.rows)|)
  {
    hide Progress, Pending;
    PendingAfterProgress(before, n);
  }

  // The three ways a drain ends.
  lemma EndsDrained(before: World, size: nat, batching: bool, plan: nat -> RoundFault, rounds: nat)
    ensures var n := |Pending(before.rows)|;
            Drained(before, Progress(before, n), size, batching, plan, n, rounds, n, [])
  {
    hide Progress, Pending;
  }

  lemma EndsUnlisted(before: World, size: nat, batching: bool, plan: nat -> RoundFault, n: nat, rounds: nat)
    requires n <= |Pending(before.rows)| && !plan(rounds).list
    ensures Drained(before, Progress(before, n), size, batching, plan, n, rounds, n, [ListFailed])
  {
    hide Progress, Pending;
  }

  lemma EndsInRound(before: World, size: nat, batching: bool, plan: nat -> RoundFault, n: nat, rounds: nat)
    requires n <= |Pending(before.rows)|
    requires var items := Take(Pending(before.rows)[n..], size);
             items != [] && RoundErrors(items, batching, plan(rounds)) != []
    ensures var items := Take(Pending(before.rows)[n..], size);
            Drained(before, Round(Progress(before, n), items, batching, plan(rounds)), size, batching, plan, n, rounds,
                    n + RoundCount(items, batching, plan(rounds)), RoundErrors(items, batching, plan(rounds)))
  {
    hide Progress, Pending, Round, RoundErrors, RoundCount;
    RoundErrorsNameNoListing(Take(Pending(before.rows)[n..], size), batching, plan(rounds));
  }

  // Drains the outbox in rounds while nobody else appends. Terminates for every batch size and
  // every pattern of failures: each round that does not end the drain shrinks what is pending. It
  // plays `played` rounds, one after the other, of which only the last may have failed. All rounds
  // before an error were full: after a short one nothing is listed again.
  method DrainOutbox(outbox: OutboxStore, topic: Topic, requested: int, batching: bool, plan: nat -> RoundFault)
    returns (total: nat, errors: seq<RelayError>, ghost n: nat, ghost rounds: nat, ghost played: nat)
    requires DistinctIds(outbox.rows)
    modifies outbox, topic
    ensures Drained(old(WorldOf(outbox, topic)), WorldOf(outbox, topic), BatchSize(requested), batching, plan,
                    n, rounds, total, errors)
    ensures WorldOf(outbox, topic) == AfterRounds(old(WorldOf(outbox, topic)), BatchSize(requested), batching, plan, played)
    ensures errors != [] ==> n == rounds * BatchSize(requested)
    ensures played == if errors == [] || errors == [ListFailed] then rounds else rounds + 1
  {
    hide Progress, RoundErrors, RoundCount, Round, Pending, Drained, ListPending, Take, DistinctIds, AfterRounds;
    ghost var before := WorldOf(outbox, topic);
    ghost var pending := Pending(before.rows);
    var size := if requested <= 0 then DEFAULT_BATCH else requested;
    total, errors, rounds, played := 0, [], 0, 0;
    var round := 0;
    NoProgress(before);
    NoRounds(before, size, batching, plan);
    while true
      invariant total <= |pending| && errors == [] && total == round * size
      invariant WorldOf(outbox, topic) == Progress(before, total)
      invariant WorldOf(outbox, topic) == AfterRounds(before, size, batching, plan, round)
      decreases |pending| - total
    {
      n, rounds, played := total, round, round;
      Listing(before, total, size);
      var listed := outbox.ListPendingOutbox(size, plan(round).list);
      if listed.None? {
        EndsUnlisted(before, size, batching, plan, total, round);
        errors := [ListFailed];
        return;
      }
      var items := listed.value;
      if |items| == 0 {
        EndsDrained(before, size, batching, plan, round);
        return;
      }
      var count;
      count, errors := PublishRound(outbox, topic, items, batching, plan(round));
      NextRound(before, size, batching, plan, round);
      if errors != [] {
        RoundErrorsNameNoListing(items, batching, plan(round));
        played := round + 1;
        EndsInRound(before, size, batching, plan, total, round);
        total := total + count;
        return;
      }
      RoundExtendsProgress(before, total, size, batching, plan(round));
      CleanRound(Progress(before, total), items, batching, plan(round));
      total := total + count;
      n := total;
      if |items| < size {
        rounds, played := round + 1, round + 1;
        EndsDrained(before, size, batching, plan, rounds);
        return;
      }
      assert (round + 1) * size == round * size + size;
      round := round + 1;
    }
  }

  lemma NoRounds(w: World, size: nat, batching: bool, plan: nat -> RoundFault)
    ensures AfterRounds(w, size, batching, plan, 0) == w
  {
  }

  lemma NextRound(w: World, size: nat, batching: bool, plan: nat -> RoundFault, k: nat)
    ensures var v := AfterRounds(w, size, batching, plan, k);
            AfterRounds(w, size, batching, plan, k + 1) == Round(v, Take(Pending(v.rows), size), batching, plan(k))
  {
  }

  lemma NoProgress(w: World)
    ensures Progress(w, 0) == w
  {
    assert StampIds(w.rows, IdsOf([])) == w.rows;
    assert Messages([]) == [];
    assert Pending(w.rows)[..0] == [];
  }
}
