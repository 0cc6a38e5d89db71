// The load tester's arithmetic: consumer lag, completion, milestones and the polling loop.

module LoadTest {
  import opened Domain

  // ----- Lag -----

  // Partition numbers are never negative; committed offsets may be.
  type Offsets = map<nat, int>

  // How far one partition is behind; a missing or negative committed offset counts as zero.
  function Shortfall(end: int, committed: Offsets, p: nat): (n: int)
    ensures n >= 0
  {
    var c := if p in committed then committed[p] else 0;
    var clamped := if c < 0 then 0 else c;
    if end > clamped then end - clamped else 0
  }

  ghost function LagOver(keys: set<nat>, ends: Offsets, committed: Offsets): int
    requires keys <= ends.Keys
  {
    if keys == {} then 0
    else
      var p :| p in keys;
      Shortfall(ends[p], committed, p) + LagOver(keys - {p}, ends, committed)
  }

  ghost function LagSum(ends: Offsets, committed: Offsets): int {
    LagOver(ends.Keys, ends, committed)
  }

  // The sum does not depend on the order in which the map is walked.
  lemma {:induction false} LagOverAnyOrder(keys: set<nat>, ends: Offsets, committed: Offsets, p: nat)
    requires keys <= ends.Keys && p in keys
    ensures LagOver(keys, ends, committed) == Shortfall(ends[p], committed, p) + LagOver(keys - {p}, ends, committed)
  {
    var q :| q in keys
             && LagOver(keys, ends, committed) == Shortfall(ends[q], committed, q) + LagOver(keys - {q}, ends, committed);
    if q != p {
      LagOverAnyOrder(keys - {q}, ends, committed, p);
      LagOverAnyOrder(keys - {p}, ends, committed, q);
      assert keys - {q} - {p} == keys - {p} - {q};
    }
  }

  lemma {:induction false} LagOverZeroIff(keys: set<nat>, ends: Offsets, committed: Offsets)
    requires keys <= ends.Keys
    ensures LagOver(keys, ends, committed) >= 0
    ensures LagOver(keys, ends, committed) == 0 <==> forall p :: p in keys ==> Shortfall(ends[p], committed, p) == 0
  {
    if keys != {} {
      var p :| p in keys;
      LagOverAnyOrder(keys, ends, committed, p);
      LagOverZeroIff(keys - {p}, ends, committed);
      assert forall q :: q in keys && q != p ==> q in keys - {p};
    }
  }

  // The lag is zero exactly when no end offset exceeds the committed offset, clamped at zero.
  lemma LagZeroIff(ends: Offsets, committed: Offsets)
    ensures LagSum(ends, committed) == 0 <==>
            forall p :: p in ends ==> ends[p] <= 0 || (p in committed && ends[p] <= committed[p])
  {
    LagOverZeroIff(ends.Keys, ends, committed);
    if forall p :: p in ends ==> ends[p] <= 0 || (p in committed && ends[p] <= committed[p]) {
      assert forall p :: p in ends.Keys ==> Shortfall(ends[p], committed, p) == 0;
    } else {
      var p :| p in ends && !(ends[p] <= 0 || (p in committed && ends[p] <= committed[p]));
      assert Shortfall(ends[p], committed, p) > 0;
    }
  }

  lemma {:induction false} LagOverSame(keys: set<nat>, a: Offsets, b: Offsets, committed: Offsets)
    requires keys <= a.Keys && keys <= b.Keys && forall p :: p in keys ==> a[p] == b[p]
    ensures LagOver(keys, a, committed) == LagOver(keys, b, committed)
  {
    if keys != {} {
      var p :| p in keys;
      LagOverAnyOrder(keys, a, committed, p);
      LagOverAnyOrder(keys, b, committed, p);
      LagOverSame(keys - {p}, a, b, committed);
    }
  }

  // Each partition adds how far its end offset is past its committed offset, a missing or negative one
  // taken as zero.
  lemma LagAdds(ends: Offsets, committed: Offsets, p: nat, end: int)
    requires p !in ends
    ensures LagSum(map[], committed) == 0
    ensures var c := if p in committed && committed[p] > 0 then committed[p] else 0;
            LagSum(ends[p := end], committed) == LagSum(ends, committed) + (if end > c then end - c else 0)
  {
    var more := ends[p := end];
    LagOverAnyOrder(more.Keys, more, committed, p);
    assert more.Keys - {p} == ends.Keys;
    LagOverSame(ends.Keys, more, ends, committed);
  }

  method CalculateKafkaLag(ends: Offsets, committed: Offsets) returns (lag: int)
    ensures lag == LagSum(ends, committed)
  {
    lag := 0;
    var left := ends.Keys;
    while left != {}
      invariant left <= ends.Keys
      invariant lag + LagOver(left, ends, committed) == LagSum(ends, committed)
      decreases left
    {
      var p :| p in left;
      LagOverAnyOrder(left, ends, committed, p);
      var c := if p in committed then committed[p] else 0;
      if c < 0 {
        c := 0;
      }
      if ends[p] > c {
        lag := lag + (ends[p] - c);
      }
      left := left - {p};
    }
  }

  // One partition's part of an offset response.
  datatype PartitionOffset = PartitionOffset(partition: nat, failed: bool, offset: int)

  function OffsetsIn(response: seq<PartitionOffset>): Offsets {
    if response == [] then map[]
    else OffsetsIn(Init(response))[Last(response).partition := Last(response).offset]
  }

  ghost predicate NoneFailed(response: seq<PartitionOffset>) {
    forall i :: 0 <= i < |response| ==> !response[i].failed
  }

  method CollectOffsets(response: seq<PartitionOffset>) returns (offsets: Option<Offsets>)
    ensures offsets == if NoneFailed(response) then Some(OffsetsIn(response)) else None
  {
    var collected: Offsets := map[];
    for i := 0 to |response|
      invariant collected == OffsetsIn(response[..i])
      invariant NoneFailed(response[..i])
    {
      if response[i].failed {
        return None;
      }
      assert response[..i + 1] == response[..i] + [response[i]];
      InitOfSnoc(response[..i], response[i]);
      collected := collected[response[i].partition := response[i].offset];
    }
    assert response[..|response|] == response;
    offsets := Some(collected);
  }

  // End offsets are requested before committed offsets. A request that fails, a partition error or
  // a partition without an end offset makes the lag unknown.
  method KafkaLag(partitions: seq<nat>, ends: Option<seq<PartitionOffset>>, commits: Option<seq<PartitionOffset>>)
    returns (lag: Option<int>)
    ensures lag.Some? <==> ends.Some? && commits.Some? && NoneFailed(ends.value) && NoneFailed(commits.value)
                           && forall i :: 0 <= i < |partitions| ==> partitions[i] in OffsetsIn(ends.value)
    ensures lag.Some? ==> lag.value == LagSum(OffsetsIn(ends.value), OffsetsIn(commits.value))
  {
    if ends.None? {
      return None;
    }
    var endOffsets := CollectOffsets(ends.value);
    if endOffsets.None? || commits.None? {
      return None;
    }
    var committed := CollectOffsets(commits.value);
    if committed.None? {
      return None;
    }
    for i := 0 to |partitions|
      invariant forall j :: 0 <= j < i ==> partitions[j] in endOffsets.value
    {
      if partitions[i] !in endOffsets.value {
        return None;
      }
    }
    var sum := CalculateKafkaLag(endOffsets.value, committed.value);
    lag := Some(sum);
  }

  // ----- Completion and milestones -----

  datatype Snapshot = Snapshot(records: int, unpublished: int, notifications: int, lag: int)

  predicate PipelineComplete(s: Snapshot, baseline: Snapshot, expected: int) {
    && s.records - baseline.records >= expected
    && s.unpublished == 0
    && s.notifications - baseline.notifications >= expected
    && s.lag == 0
  }

  predicate OutboxDone(s: Snapshot, baseline: Snapshot, expected: int) {
    s.records - baseline.records >= expected && s.unpublished == 0
  }

  predicate NotificationsDone(s: Snapshot, baseline: Snapshot, expected: int) {
    s.notifications - baseline.notifications >= expected
  }

  // One poll: the snapshot, if it could be taken, the time then, and the time at which the deadline
  // was found to have passed, if it had.
  datatype Poll = Poll(snapshot: Option<Snapshot>, elapsed: int, expired: Option<int>)

  // Elapsed times are positive and never decrease.
  ghost predicate Clocked(polls: seq<Poll>) {
    && (forall i :: 0 <= i < |polls| ==> polls[i].elapsed > 0)
    && (forall i, j :: 0 <= i < j < |polls| ==> polls[i].elapsed <= polls[j].elapsed)
  }

  ghost predicate OutboxSeen(polls: seq<Poll>, baseline: Snapshot, expected: int, i: nat) {
    i < |polls| && polls[i].snapshot.Some? && OutboxDone(polls[i].snapshot.value, baseline, expected)
  }

  ghost predicate NotificationsSeen(polls: seq<Poll>, baseline: Snapshot, expected: int, i: nat) {
    i < |polls| && polls[i].snapshot.Some? && NotificationsDone(polls[i].snapshot.value, baseline, expected)
  }

  // Zero lag counts only with or after the outbox milestone.
  ghost predicate LagSeen(polls: seq<Poll>, baseline: Snapshot, expected: int, i: nat) {
    i < |polls| && polls[i].snapshot.Some? && polls[i].snapshot.value.lag == 0
    && exists j: nat :: j <= i && OutboxSeen(polls, baseline, expected, j)
  }

  // A milestone is zero while its condition has not been observed, and from then on the time of
  // the first observation.
  ghost predicate IsFirst(polls: seq<Poll>, seen: nat -> bool, time: int) {
    if time == 0 then forall i: nat :: i < |polls| ==> !seen(i)
    else exists i: nat :: IsFirstAt(polls, seen, time, i)
  }

  ghost predicate IsFirstAt(polls: seq<Poll>, seen: nat -> bool, time: int, i: nat) {
    i < |polls| && seen(i) && polls[i].elapsed == time && forall j: nat :: j < i ==> !seen(j)
  }

  class Milestones {
    var httpComplete: int
    var outboxPublished: int
    var kafkaCaughtUp: int
    var notificationsComplete: int
    var endToEnd: int

    constructor (httpElapsed: int)
      ensures httpComplete == httpElapsed
      ensures outboxPublished == kafkaCaughtUp == notificationsComplete == endToEnd == 0
    {
      httpComplete := httpElapsed;
      outboxPublished, kafkaCaughtUp, notificationsComplete, endToEnd := 0, 0, 0, 0;
    }

    method Observe(s: Snapshot, baseline: Snapshot, expected: int, elapsed: int)
      modifies this`outboxPublished, this`kafkaCaughtUp, this`notificationsComplete
      ensures outboxPublished ==
              if old(outboxPublished) == 0 && s.records >= baseline.records + expected && s.unpublished == 0
              then elapsed else old(outboxPublished)
      ensures notificationsComplete ==
              if old(notificationsComplete) == 0 && s.notifications >= baseline.notifications + expected
              then elapsed else old(notificationsComplete)
      ensures kafkaCaughtUp ==
              if old(kafkaCaughtUp) == 0 && outboxPublished > 0 && s.lag == 0 then elapsed else old(kafkaCaughtUp)
    {
      var recordsComplete := s.records - baseline.records >= expected;
      var notificationsDone := s.notifications - baseline.notifications >= expected;
      if outboxPublished == 0 && recordsComplete && s.unpublished == 0 {
        outboxPublished := elapsed;
      }
      if notificationsComplete == 0 && notificationsDone {
        notificationsComplete := elapsed;
      }
      if kafkaCaughtUp == 0 && outboxPublished > 0 && s.lag == 0 {
        kafkaCaughtUp := elapsed;
      }
    }
  }

  lemma FirstExtends(polls: seq<Poll>, poll: Poll, seen: nat -> bool, seen': nat -> bool, time: int)
    requires IsFirst(polls, seen, time) && poll.elapsed > 0
    requires forall i: nat :: i < |polls| ==> seen(i) == seen'(i)
    ensures IsFirst(polls + [poll], seen', if time == 0 && seen'(|polls|) then poll.elapsed else time)
  {
    var more := polls + [poll];
    if time == 0 {
      if seen'(|polls|) {
        assert IsFirstAt(more, seen', poll.elapsed, |polls|);
      }
    } else {
      var i: nat :| IsFirstAt(polls, seen, time, i);
      assert IsFirstAt(more, seen', time, i);
    }
  }

  lemma LagSeenNow(polls: seq<Poll>, baseline: Snapshot, expected: int, outboxPublished: int)
    requires polls != [] && Clocked(polls)
    requires IsFirst(polls, (i: nat) => OutboxSeen(polls, baseline, expected, i), outboxPublished)
    ensures LagSeen(polls, baseline, expected, |polls| - 1) <==>
            Last(polls).snapshot.Some? && outboxPublished > 0 && Last(polls).snapshot.value.lag == 0
  {
    var seen := (i: nat) => OutboxSeen(polls, baseline, expected, i);
    if outboxPublished == 0 {
      forall j: nat | j < |polls| ensures !OutboxSeen(polls, baseline, expected, j) {
        assert !seen(j);
      }
    } else {
      var j: nat :| IsFirstAt(polls, seen, outboxPublished, j);
      assert OutboxSeen(polls, baseline, expected, j);
    }
  }

  lemma SeenBefore(polls: seq<Poll>, poll: Poll, baseline: Snapshot, expected: int, i: nat)
    requires i < |polls|
    ensures OutboxSeen(polls + [poll], baseline, expected, i) == OutboxSeen(polls, baseline, expected, i)
    ensures NotificationsSeen(polls + [poll], baseline, expected, i) == NotificationsSeen(polls, baseline, expected, i)
    ensures LagSeen(polls + [poll], baseline, expected, i) == LagSeen(polls, baseline, expected, i)
  {
    assert forall j: nat :: j < |polls| ==>
        OutboxSeen(polls + [poll], baseline, expected, j) == OutboxSeen(polls, baseline, expected, j);
  }

  ghost predicate Tracked(polls: seq<Poll>, baseline: Snapshot, expected: int, outbox: int, notifications: int, lag: int) {
    && IsFirst(polls, (i: nat) => OutboxSeen(polls, baseline, expected, i), outbox)
    && IsFirst(polls, (i: nat) => NotificationsSeen(polls, baseline, expected, i), notifications)
    && IsFirst(polls, (i: nat) => LagSeen(polls, baseline, expected, i), lag)
  }

  // One more poll: each milestone is set if its condition is seen for the first time.
  lemma TrackedExtends(polls: seq<Poll>, poll: Poll, baseline: Snapshot, expected: int,
                       outbox: int, notifications: int, lag: int)
    requires Tracked(polls, baseline, expected, outbox, notifications, lag) && Clocked(polls + [poll])
    ensures var s := poll.snapshot;
            var outbox' := if s.Some? && outbox == 0 && OutboxDone(s.value, baseline, expected)
                           then poll.elapsed else outbox;
            var notifications' := if s.Some? && notifications == 0 && NotificationsDone(s.value, baseline, expected)
                                  then poll.elapsed else notifications;
            var lag' := if s.Some? && lag == 0 && outbox' > 0 && s.value.lag == 0 then poll.elapsed else lag;
            Tracked(polls + [poll], baseline, expected, outbox', notifications', lag')
  {
    hide OutboxSeen, NotificationsSeen, LagSeen, IsFirst;
    var more := polls + [poll];
    assert more[|polls|] == poll == Last(more);
    forall i: nat | i < |polls|
      ensures OutboxSeen(more, baseline, expected, i) == OutboxSeen(polls, baseline, expected, i)
      ensures NotificationsSeen(more, baseline, expected, i) == NotificationsSeen(polls, baseline, expected, i)
      ensures LagSeen(more, baseline, expected, i) == LagSeen(polls, baseline, expected, i)
    {
      SeenBefore(polls, poll, baseline, expected, i);
    }
    SeenAtEnd(polls, poll, baseline, expected);
    FirstExtends(polls, poll, (i: nat) => OutboxSeen(polls, baseline, expected, i),
                 (i: nat) => OutboxSeen(more, baseline, expected, i), outbox);
    FirstExtends(polls, poll, (i: nat) => NotificationsSeen(polls, baseline, expected, i),
                 (i: nat) => NotificationsSeen(more, baseline, expected, i), notifications);
    FirstExtends(polls, poll, (i: nat) => LagSeen(polls, baseline, expected, i),
                 (i: nat) => LagSeen(more, baseline, expected, i), lag);
    var s := poll.snapshot;
    var outbox' := if s.Some? && outbox == 0 && OutboxDone(s.value, baseline, expected) then poll.elapsed else outbox;
    LagSeenNow(more, baseline, expected, outbox');
  }

  lemma SeenAtEnd(polls: seq<Poll>, poll: Poll, baseline: Snapshot, expected: int)
    ensures OutboxSeen(polls + [poll], baseline, expected, |polls|) <==>
            poll.snapshot.Some? && OutboxDone(poll.snapshot.value, baseline, expected)
    ensures NotificationsSeen(polls + [poll], baseline, expected, |polls|) <==>
            poll.snapshot.Some? && NotificationsDone(poll.snapshot.value, baseline, expected)
  {
  }

  // The lag milestone is set only with or after the outbox milestone.
  lemma LagAfterOutbox(polls: seq<Poll>, baseline: Snapshot, expected: int, outbox: int, notifications: int, lag: int)
    requires Tracked(polls, baseline, expected, outbox, notifications, lag) && Clocked(polls) && lag != 0
    ensures 0 < outbox <= lag
  {
    var i: nat :| IsFirstAt(polls, (i: nat) => LagSeen(polls, baseline, expected, i), lag, i);
    assert LagSeen(polls, baseline, expected, i);
    var j: nat :| j <= i && OutboxSeen(polls, baseline, expected, j);
    var seen := (k: nat) => OutboxSeen(polls, baseline, expected, k);
    assert seen(j);
    var k: nat :| IsFirstAt(polls, seen, outbox, k);
    assert k <= j;
  }

  // If the last poll meets a condition, its milestone is set and not later than that poll.
  lemma SetByTheEnd(polls: seq<Poll>, seen: nat -> bool, time: int)
    requires Clocked(polls) && polls != [] && IsFirst(polls, seen, time) && seen(|polls| - 1)
    ensures 0 < time <= Last(polls).elapsed
  {
    var i: nat :| IsFirstAt(polls, seen, time, i);
  }

  lemma CompleteSetsAll(polls: seq<Poll>, baseline: Snapshot, expected: int, outbox: int, notifications: int, lag: int)
    requires Tracked(polls, baseline, expected, outbox, notifications, lag) && Clocked(polls) && polls != []
    requires Last(polls).snapshot.Some? && PipelineComplete(Last(polls).snapshot.value, baseline, expected)
    ensures 0 < outbox <= lag <= Last(polls).elapsed && 0 < notifications <= Last(polls).elapsed
  {
    hide IsFirst;
    var n := |polls| - 1;
    assert OutboxSeen(polls, baseline, expected, n) && NotificationsSeen(polls, baseline, expected, n);
    assert LagSeen(polls, baseline, expected, n);
    SetByTheEnd(polls, (i: nat) => OutboxSeen(polls, baseline, expected, i), outbox);
    SetByTheEnd(polls, (i: nat) => NotificationsSeen(polls, baseline, expected, i), notifications);
    SetByTheEnd(polls, (i: nat) => LagSeen(polls, baseline, expected, i), lag);
    LagAfterOutbox(polls, baseline, expected, outbox, notifications, lag);
  }

  function PollsOf(script: nat -> Poll, n: nat): seq<Poll> {
    seq(n, i requires 0 <= i => script(i))
  }

  lemma PollsSnoc(script: nat -> Poll, n: nat)
    ensures PollsOf(script, n + 1) == PollsOf(script, n) + [script(n)]
  {
  }

  // The last snapshot that could be taken.
  function LastTaken(polls: seq<Poll>): Option<Snapshot> {
    if polls == [] then None
    else if Last(polls).snapshot.Some? then Last(polls).snapshot
    else LastTaken(Init(polls))
  }

  lemma LastTakenSnoc(polls: seq<Poll>, poll: Poll)
    ensures LastTaken(polls + [poll]) == if poll.snapshot.Some? then poll.snapshot else LastTaken(polls)
  {
    InitOfSnoc(polls, poll);
  }

  // The deadline had not been found to have passed before this poll.
  ghost predicate InTime(script: nat -> Poll, i: nat) {
    forall j: nat :: j < i ==> script(j).expired.None?
  }

  // Polls until the pipeline is complete or the deadline passes. Each milestone is the first time
  // its condition was observed; a nil error means the last snapshot was complete, all milestones
  // are set, none later than EndToEnd; an error means no snapshot taken was complete. There is no
  // error exactly if some poll before the deadline was found to have passed, or that very poll, took a
  // snapshot with the expected records and notifications, nothing unpublished and no lag.
  method WaitUntilPipelineComplete(script: nat -> Poll, baseline: Snapshot, expected: int, httpElapsed: int,
                                   ghost deadline: nat)
    returns (milestones: Milestones, latest: Option<Snapshot>, timedOut: bool, polled: nat)
    requires forall n: nat :: Clocked(PollsOf(script, n))
    requires script(deadline).expired.Some?
    ensures fresh(milestones) && milestones.httpComplete == httpElapsed && polled > 0
    ensures Tracked(PollsOf(script, polled), baseline, expected,
                    milestones.outboxPublished, milestones.notificationsComplete, milestones.kafkaCaughtUp)
    ensures latest == LastTaken(PollsOf(script, polled))
    ensures !timedOut ==>
              && latest == script(polled - 1).snapshot && latest.Some?
              && PipelineComplete(latest.value, baseline, expected)
              && milestones.endToEnd == script(polled - 1).elapsed
              && 0 < milestones.outboxPublished <= milestones.kafkaCaughtUp <= milestones.endToEnd
              && 0 < milestones.notificationsComplete <= milestones.endToEnd
    ensures !timedOut <==>
            exists i: nat :: InTime(script, i) && script(i).snapshot.Some? &&
              var s := script(i).snapshot.value;
              && s.records >= baseline.records + expected && s.unpublished == 0
              && s.notifications >= baseline.notifications + expected && s.lag == 0
    ensures timedOut ==>
              && script(polled - 1).expired == Some(milestones.endToEnd)
              && forall i: nat :: i < polled && script(i).snapshot.Some? ==>
                   !PipelineComplete(script(i).snapshot.value, baseline, expected)
  {
    hide Tracked, Clocked, PollsOf, LastTaken;
    milestones := new Milestones(httpElapsed);
    latest := None;
    polled := 0;
    NoPolls(script, baseline, expected);
    while true
      invariant fresh(milestones) && milestones.httpComplete == httpElapsed
      invariant Tracked(PollsOf(script, polled), baseline, expected,
                        milestones.outboxPublished, milestones.notificationsComplete, milestones.kafkaCaughtUp)
      invariant forall i: nat :: i < polled && script(i).snapshot.Some? ==>
                  !PipelineComplete(script(i).snapshot.value, baseline, expected)
      invariant latest == LastTaken(PollsOf(script, polled))
      invariant polled <= deadline && InTime(script, polled)
      decreases deadline - polled
    {
      var poll := script(polled);
      PollsSnoc(script, polled);
      LastTakenSnoc(PollsOf(script, polled), poll);
      TrackedExtends(PollsOf(script, polled), poll, baseline, expected, milestones.outboxPublished,
                     milestones.notificationsComplete, milestones.kafkaCaughtUp);
      polled := polled + 1;
      if poll.snapshot.Some? {
        latest := poll.snapshot;
        milestones.Observe(poll.snapshot.value, baseline, expected, poll.elapsed);
        if PipelineComplete(poll.snapshot.value, baseline, expected) {
          milestones.endToEnd := poll.elapsed;
          LastPoll(script, polled);
          CompleteSetsAll(PollsOf(script, polled), baseline, expected, milestones.outboxPublished,
                          milestones.notificationsComplete, milestones.kafkaCaughtUp);
          return milestones, latest, false, polled;
        }
      }
      if poll.expired.Some? {
        milestones.endToEnd := poll.expired.value;
        return milestones, latest, true, polled;
      }
    }
  }

  lemma LastPoll(script: nat -> Poll, n: nat)
    requires n > 0
    ensures PollsOf(script, n) != [] && Last(PollsOf(script, n)) == script(n - 1)
  {
  }

  lemma NoPolls(script: nat -> Poll, baseline: Snapshot, expected: int)
    ensures Tracked(PollsOf(script, 0), baseline, expected, 0, 0, 0) && LastTaken(PollsOf(script, 0)) == None
  {
  }
}
