// The event worker: bounded retry, dead-lettering, and commit after handling.

module Consumer {
  import opened Domain
  import opened Broker
  import opened Projection

  // ----- Retry -----

  // How one attempt goes: the clock, the database call, and whether the wait after it is cut short
  // by cancellation.
  datatype Attempt = Attempt(now: int, fault: Fault, cancelled: bool)

  datatype HandlerError = HandlerFailed | Cancelled

  function Limit(attempts: int): (n: nat)
    ensures n >= 1
  {
    if attempts < 1 then 1 else attempts
  }

  // The projection after the first k attempts to handle one event.
  function Attempted(notifications: Notifications, e: OutboxEvent, script: nat -> Attempt, k: nat): Notifications {
    if k == 0 then notifications
    else
      var before := Attempted(notifications, e, script, k - 1);
      if script(k).fault.FailsClean? then before else InsertOnce(before, NotificationOf(e, script(k).now))
  }

  // k attempts were made: all but the last failed and were waited out.
  ghost predicate StoppedAfter(attempts: int, script: nat -> Attempt, k: nat, error: Option<HandlerError>) {
    && 1 <= k <= Limit(attempts)
    && (forall j :: 1 <= j < k ==> !script(j).fault.Works? && !script(j).cancelled)
    && match error
       case None => script(k).fault.Works?
       case Some(HandlerFailed) => !script(k).fault.Works? && k == Limit(attempts)
       case Some(Cancelled) => !script(k).fault.Works? && k < Limit(attempts) && script(k).cancelled
  }

  // Calls the handler at most max(1, attempts) times and stops at the first success. The error is
  // nil exactly when the last call succeeded. The waits that were sat out add up to
  // delay * k * (k - 1) / 2.
  method Retry(sink: Sink, e: OutboxEvent, attempts: int, delay: int, script: nat -> Attempt)
    returns (error: Option<HandlerError>, calls: nat, waited: int)
    modifies sink
    ensures StoppedAfter(attempts, script, calls, error)
    ensures error.None? <==> script(calls).fault.Works?
    ensures 2 * waited == delay * (calls * (calls - 1))
    ensures sink.notifications == Attempted(old(sink.notifications), e, script, calls)
  {
    var most := if attempts < 1 then 1 else attempts;
    waited := 0;
    var attempt := 1;
    while true
      invariant 1 <= attempt <= most
      invariant forall j :: 1 <= j < attempt ==> !script(j).fault.Works? && !script(j).cancelled
      invariant 2 * waited == delay * (attempt * (attempt - 1))
      invariant sink.notifications == Attempted(old(sink.notifications), e, script, attempt - 1)
      decreases most - attempt
    {
      var ok := sink.Handle(e, script(attempt).now, script(attempt).fault);
      if ok {
        return None, attempt, waited;
      }
      if attempt == most {
        return Some(HandlerFailed), attempt, waited;
      }
      if script(attempt).cancelled {
        return Some(Cancelled), attempt, waited;
      }
      NextWait(delay, attempt);
      waited := waited + delay * attempt;
      attempt := attempt + 1;
    }
  }

  lemma NextWait(delay: int, k: nat)
    ensures delay * (k * (k - 1)) + 2 * (delay * k) == delay * ((k + 1) * k)
  {
    assert k * (k - 1) + 2 * k == (k + 1) * k;
  }

  // ----- Dead letters -----

  function ErrorText(error: HandlerError): string {
    match error
    case HandlerFailed => "handler failed"
    case Cancelled => "context canceled"
  }

  const UNDECODABLE := "invalid JSON"

  // A missing identifier is replaced by a generated one, a missing key by the aggregate.
  function Completed(e: OutboxEvent, generated: string): OutboxEvent {
    e.(id := if e.id == "" then generated else e.id, key := if e.key == "" then e.aggregate else e.key)
  }

  function Malformed(m: Message, text: string, dlqTopic: string): OutboxEvent {
    OutboxEvent(m.eventId, m.tenantId, m.key, dlqTopic, m.key, DecodeFailed, Undecodable(text, UNDECODABLE), false, 0, "")
  }

  // The attempts recorded are always the configured maximum.
  function Exhausted(e: OutboxEvent, error: HandlerError, maxAttempts: int, dlqTopic: string): OutboxEvent {
    e.(topic := dlqTopic, kind := Failed(e.kind), lastError := ErrorText(error), attempts := maxAttempts,
       payload := Annotated(e.payload, ErrorText(error), maxAttempts))
  }

  // What consuming a decoded event adds to the dead-letter topic.
  function DeadLetters(e: OutboxEvent, error: Option<HandlerError>, maxAttempts: int, dlqTopic: string,
                       script: Script): seq<Message> {
    if error.None? then []
    else Written([MessageOf(Completed(Exhausted(e, error.value, maxAttempts, dlqTopic), script.generated))], script.dlq)
  }

  // The attempts a dead letter records, in the event and in its payload, are the calls that were made if
  // and only if the retry was not cancelled, that is if no wait before the last call was cut short.
  lemma AttemptsRecordedIff(e: OutboxEvent, error: HandlerError, maxAttempts: int, dlqTopic: string,
                            script: nat -> Attempt, calls: nat)
    requires maxAttempts >= 1 && StoppedAfter(maxAttempts, script, calls, Some(error))
    ensures var letter := Exhausted(e, error, maxAttempts, dlqTopic);
            && letter.attempts == letter.payload.consumerAttempts
            && (letter.attempts == calls <==> error == HandlerFailed)
            && (letter.attempts == calls <==> forall j :: 1 <= j < maxAttempts ==> !script(j).cancelled)
            && (letter.attempts != calls ==> calls < letter.attempts)
  {
    if error == Cancelled {
      assert script(calls).cancelled;
    }
  }

  // A cancellation after the first call: one call was made, three are recorded.
  lemma CancelledRecordsThree(e: OutboxEvent, dlqTopic: string)
    ensures var script := (k: nat) => Attempt(0, FailsClean, true);
            StoppedAfter(3, script, 1, Some(Cancelled)) && Exhausted(e, Cancelled, 3, dlqTopic).attempts == 3
  {
  }

  // A dead letter of a message: an event of the failed kind with the original payload, or the raw text,
  // to which topic, key and headers of the letter belong.
  ghost predicate DeadLetterOf(d: Message, m: Message) {
    d.body.Json? &&
    var f := d.body.event;
    && d.topic == f.topic && d.key == f.key && d.eventId == f.id && d.eventType == f.kind && d.tenantId == f.tenant
    && match m.body
       case Raw(text) =>
         && f.kind == DecodeFailed && f.payload == Undecodable(text, UNDECODABLE)
         && f.tenant == m.tenantId && f.aggregate == f.key == m.key && (m.eventId != "" ==> f.id == m.eventId)
       case Json(e) =>
         && f.kind == Failed(e.kind) && f.payload.Annotated? && f.payload.original == e.payload
         && f.payload.consumerError == f.lastError
         && f.tenant == e.tenant && f.aggregate == e.aggregate && f.key == (if e.key == "" then e.aggregate else e.key)
         && (e.id != "" ==> f.id == e.id)
  }

  // A message is settled once its event is projected or it has a dead letter.
  ghost predicate Settled(notifications: Notifications, dlq: seq<Message>, m: Message) {
    (m.body.Json? && m.body.event.id in notifications) || exists d :: d in dlq && DeadLetterOf(d, m)
  }

  // ----- The worker -----

  // How one delivery goes.
  datatype Script = Script(
    fetch: bool, cancelled: bool, attempts: nat -> Attempt, generated: string, dlq: WriteFault, commit: Fault)

  datatype Ending = Stopped | FetchFailed | DeadLetterFailed | CommitFailed

  class KafkaConsumer {
    const maxAttempts: int
    const retryDelay: int
    const dlqTopic: string
    const sink: Sink
    const dlq: Topic
    // The partition this worker owns and the group's committed offset in it.
    const source: seq<Message>
    var committed: nat

    constructor (source: seq<Message>, topic: string, sink: Sink, dlq: Topic)
      ensures this.source == source && committed == 0 && this.sink == sink && this.dlq == dlq
      ensures maxAttempts == 3 && retryDelay == 150 && dlqTopic == topic + ".dlq"
    {
      this.source, this.sink, this.dlq := source, sink, dlq;
      maxAttempts, retryDelay, dlqTopic := 3, 150, topic + ".dlq";
      committed := 0;
    }

    method PublishDlq(e: OutboxEvent, script: Script) returns (ok: bool)
      modifies dlq
      ensures ok == script.dlq.Accepts?
      ensures dlq.log == old(dlq.log) + Written([MessageOf(Completed(e, script.generated))], script.dlq)
    {
      var event := e;
      if event.id == "" {
        event := event.(id := script.generated);
      }
      if event.key == "" {
        event := event.(key := event.aggregate);
      }
      ok := dlq.Publish(event, script.dlq);
    }

    // Handles one message. A nil error leaves it settled. A decoded event is dead-lettered only
    // when no call of the handler succeeded, and a malformed message always is.
    method ConsumeMessage(m: Message, script: Script) returns (ok: bool, calls: nat)
      modifies sink, dlq
      ensures ok ==> Settled(sink.notifications, dlq.log, m)
      ensures ok <==> (m.body.Json? && script.attempts(calls).fault.Works?) || script.dlq.Accepts?
      ensures m.body.Raw? ==> calls == 0 && sink.notifications == old(sink.notifications)
      ensures m.body.Raw? ==> dlq.log == old(dlq.log) + Written(
                [MessageOf(Completed(Malformed(m, m.body.text, dlqTopic), script.generated))], script.dlq)
      ensures m.body.Json? ==>
                sink.notifications == Attempted(old(sink.notifications), m.body.event, script.attempts, calls)
      ensures m.body.Json? ==>
                exists error ::
                  StoppedAfter(maxAttempts, script.attempts, calls, error) &&
                  dlq.log == old(dlq.log) + DeadLetters(m.body.event, error, maxAttempts, dlqTopic, script)
      ensures dlq.log != old(dlq.log) ==> forall k :: 1 <= k <= calls ==> !script.attempts(k).fault.Works?
      ensures old(dlq.log) <= dlq.log
      ensures forall i :: |old(dlq.log)| <= i < |dlq.log| ==>
                dlq.log[i].topic == dlqTopic && DeadLetterOf(dlq.log[i], m)
    {
      hide Settled;
      if m.body.Raw? {
        ok := PublishDlq(Malformed(m, m.body.text, dlqTopic), script);
        calls := 0;
        LetterOfRaw(m, dlqTopic, script);
        if ok {
          LetterSettles(sink.notifications, dlq.log, m, |old(dlq.log)|);
        }
        return;
      }
      var e := m.body.event;
      ghost var before := sink.notifications;
      var error, k, waited := Retry(sink, e, maxAttempts, retryDelay, script.attempts);
      calls := k;
      if error.None? {
        LastAttemptProjects(before, e, script.attempts, k);
        NotificationSettles(sink.notifications, dlq.log, m);
        assert dlq.log == old(dlq.log) + DeadLetters(e, error, maxAttempts, dlqTopic, script);
        return true, k;
      }
      var failed := e.(topic := dlqTopic, kind := Failed(e.kind), lastError := ErrorText(error.value),
                       attempts := maxAttempts,
                       payload := Annotated(e.payload, ErrorText(error.value), maxAttempts));
      assert failed == Exhausted(e, error.value, maxAttempts, dlqTopic);
      ok := PublishDlq(failed, script);
      assert dlq.log == old(dlq.log) + DeadLetters(e, error, maxAttempts, dlqTopic, script);
      LetterOfJson(m, error.value, maxAttempts, dlqTopic, script);
      if ok {
        LetterSettles(sink.notifications, dlq.log, m, |old(dlq.log)|);
      }
    }

    // Fetches, handles and commits one message after the other until something fails or the
    // context is cancelled. Everything below the committed offset stays settled.
    method Run(script: nat -> Script) returns (ending: Ending, ghost handled: nat)
      requires committed <= |source|
      requires forall i :: 0 <= i < committed ==> Settled(sink.notifications, dlq.log, source[i])
      modifies this, sink, dlq
      ensures old(committed) <= committed <= old(committed) + handled <= |source|
      ensures ending != CommitFailed ==> committed == old(committed) + handled
      ensures ending == CommitFailed ==> committed + 1 >= old(committed) + handled
      ensures forall i :: 0 <= i < old(committed) + handled ==> Settled(sink.notifications, dlq.log, source[i])
    {
      handled := 0;
      var position, turn := committed, 0;
      while true
        invariant committed == position == old(committed) + handled <= |source|
        invariant forall i :: 0 <= i < position ==> Settled(sink.notifications, dlq.log, source[i])
        decreases |source| - position
      {
        var s := script(turn);
        if !s.fetch {
          return FetchFailed, handled;
        }
        // With nothing to fetch the reader blocks until the context is cancelled.
        if s.cancelled || position == |source| {
          return Stopped, handled;
        }
        var m := source[position];
        ghost var notifications, log := sink.notifications, dlq.log;
        var ok, calls := ConsumeMessage(m, s);
        StaySettled(notifications, sink.notifications, log, dlq.log, m, s.attempts, calls, source[..position]);
        assert forall i :: 0 <= i < position ==> source[..position][i] == source[i];
        if !ok {
          return DeadLetterFailed, handled;
        }
        handled := handled + 1;
        if !s.commit.FailsClean? {
          committed := position + 1;
        }
        if !s.commit.Works? {
          return CommitFailed, handled;
        }
        position, turn := position + 1, turn + 1;
      }
    }
  }

  lemma LetterSettles(notifications: Notifications, dlq: seq<Message>, m: Message, i: nat)
    requires i < |dlq| && DeadLetterOf(dlq[i], m)
    ensures Settled(notifications, dlq, m)
  {
    assert dlq[i] in dlq;
  }

  lemma NotificationSettles(notifications: Notifications, dlq: seq<Message>, m: Message)
    requires m.body.Json? && m.body.event.id in notifications
    ensures Settled(notifications, dlq, m)
  {
  }

  // Whatever part of one message is written is that message.
  lemma PartOfOne(m: Message, fault: WriteFault)
    ensures Written([m], fault) == [] || Written([m], fault) == [m]
    ensures fault.Accepts? ==> Written([m], fault) == [m]
  {
    assert Init([m]) == [] && Last([m]) == m;
    if fault.Rejects? {
      assert Kept([m], fault.kept) == Kept([], fault.kept) + (if 0 in fault.kept then [m] else []);
    }
  }

  lemma LetterOfRaw(m: Message, dlqTopic: string, script: Script)
    requires m.body.Raw?
    ensures var written := Written([MessageOf(Completed(Malformed(m, m.body.text, dlqTopic), script.generated))], script.dlq);
            && (script.dlq.Accepts? ==> |written| == 1)
            && forall i :: 0 <= i < |written| ==> written[i].topic == dlqTopic && DeadLetterOf(written[i], m)
  {
    hide Written;
    PartOfOne(MessageOf(Completed(Malformed(m, m.body.text, dlqTopic), script.generated)), script.dlq);
  }

  lemma LetterOfJson(m: Message, error: HandlerError, maxAttempts: int, dlqTopic: string, script: Script)
    requires m.body.Json?
    ensures var written := DeadLetters(m.body.event, Some(error), maxAttempts, dlqTopic, script);
            && (script.dlq.Accepts? ==> |written| == 1)
            && forall i :: 0 <= i < |written| ==> written[i].topic == dlqTopic && DeadLetterOf(written[i], m)
  {
    hide Written;
    PartOfOne(MessageOf(Completed(Exhausted(m.body.event, error, maxAttempts, dlqTopic), script.generated)), script.dlq);
  }

  // White space as unicode.IsSpace has it.
  predicate IsSpace(c: char) {
    || '\t' <= c <= '\r' || c == ' ' || c == '\U{85}' || c == '\U{A0}' || c == '\U{1680}'
    || '\U{2000}' <= c <= '\U{200A}' || c == '\U{2028}' || c == '\U{2029}' || c == '\U{202F}'
    || c == '\U{205F}' || c == '\U{3000}'
  }

  // Nothing is left of it once white space is trimmed.
  ghost predicate Blank(s: string) {
    forall i :: 0 <= i < |s| ==> IsSpace(s[i])
  }

  method TrimSpace(s: string) returns (trimmed: string)
    ensures trimmed == "" <==> Blank(s)
    ensures exists i, j :: 0 <= i <= j <= |s| && trimmed == s[i..j] && Blank(s[..i]) && Blank(s[j..])
    ensures trimmed != "" ==> !IsSpace(trimmed[0]) && !IsSpace(Last(trimmed))
  {
    var i := 0;
    while i < |s| && IsSpace(s[i])
      invariant 0 <= i <= |s| && Blank(s[..i])
    {
      i := i + 1;
    }
    var j := |s|;
    while i < j && IsSpace(s[j - 1])
      invariant i <= j <= |s| && Blank(s[j..])
    {
      j := j - 1;
    }
    trimmed := s[i..j];
    assert i < |s| ==> !IsSpace(s[i]);
  }

  // A worker is made only with a broker address that is not blank, a group, a topic, a handler and a
  // dead-letter publisher.
  method NewKafkaConsumer(brokers: seq<string>, groupId: string, topic: string, handler: Option<Sink>,
                          dlq: Option<Topic>, source: seq<Message>) returns (consumer: Option<KafkaConsumer>)
    ensures consumer.Some? <==>
            (exists i :: 0 <= i < |brokers| && !Blank(brokers[i]))
            && groupId != "" && topic != "" && handler.Some? && dlq.Some?
    ensures consumer.Some? ==>
              var c := consumer.value;
              && fresh(c) && c.sink == handler.value && c.dlq == dlq.value && c.source == source && c.committed == 0
              && c.maxAttempts == 3 && c.retryDelay == 150 && c.dlqTopic == topic + ".dlq"
  {
    var clean := [];
    for i := 0 to |brokers|
      invariant clean == [] <==> forall k :: 0 <= k < i ==> Blank(brokers[k])
    {
      var broker := TrimSpace(brokers[i]);
      if broker != "" {
        clean := clean + [broker];
      }
    }
    if |clean| == 0 || groupId == "" || topic == "" || handler.None? || dlq.None? {
      return None;
    }
    var c := new KafkaConsumer(source, topic, handler.value, dlq.value);
    consumer := Some(c);
  }

  lemma {:induction false} AttemptsOnlyAdd(notifications: Notifications, e: OutboxEvent, script: nat -> Attempt, k: nat)
    ensures var after := Attempted(notifications, e, script, k);
            forall id :: id in notifications ==> id in after && after[id] == notifications[id]
  {
    if k > 0 {
      AttemptsOnlyAdd(notifications, e, script, k - 1);
    }
  }

  lemma LastAttemptProjects(notifications: Notifications, e: OutboxEvent, script: nat -> Attempt, k: nat)
    requires k >= 1 && script(k).fault.Works?
    ensures e.id in Attempted(notifications, e, script, k)
  {
  }

  lemma SettledGrows(a: Notifications, b: Notifications, p: seq<Message>, q: seq<Message>, m: Message)
    requires Settled(a, p, m) && p <= q && forall id :: id in a ==> id in b
    ensures Settled(b, q, m)
  {
    if d :| d in p && DeadLetterOf(d, m) {
      assert d in q;
    }
  }

  lemma StaySettled(a: Notifications, b: Notifications, p: seq<Message>, q: seq<Message>, m: Message,
                    script: nat -> Attempt, calls: nat, done: seq<Message>)
    requires p <= q
    requires m.body.Json? ==> b == Attempted(a, m.body.event, script, calls)
    requires m.body.Raw? ==> b == a
    requires forall i :: 0 <= i < |done| ==> Settled(a, p, done[i])
    ensures forall i :: 0 <= i < |done| ==> Settled(b, q, done[i])
  {
    hide Settled, Attempted;
    if m.body.Json? {
      AttemptsOnlyAdd(a, m.body.event, script, calls);
    }
    forall i | 0 <= i < |done| ensures Settled(b, q, done[i]) {
      SettledGrows(a, b, p, q, done[i]);
    }
  }
}
