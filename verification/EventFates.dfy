/**
 What becomes of a delivered message, effect by effect, told from the delivery's own inputs and
 the record of its event (packages/shared/src/kafka/event-consumer.js,
 packages/shared/src/kafka/event-idempotency.service.js), and of an event over many deliveries.
 */
module EventFates {
  import opened Options
  import opened EventConsumer

  // ---------------------------------------------------------------- the inputs that decide

  /** No handler can be called, and that is not to be ignored. */
  predicate Undeliverable(m: Message, config: Config)
  {
    !m.wellFormed || (m.eventType !in config.handlers && !config.ignoreMissing)
  }

  predicate Ignored(m: Message, config: Config)
  {
    m.wellFormed && m.eventType !in config.handlers && config.ignoreMissing
  }

  /** The event is on record as processed, or as being processed by an attempt that is not stale. */
  predicate Held(s: State, d: Delivery, config: Config)
  {
    Routed(d.message, config) &&
    var key := KeyOf(d.message, config);
    key in s.records &&
    (s.records[key].status == Processed ||
     (s.records[key].status == Processing && d.at - s.records[key].updatedAt < config.staleMs))
  }

  /** The handler is due to be called. */
  predicate Starts(s: State, d: Delivery, config: Config)
  {
    Routed(d.message, config) && d.beginUp && !Held(s, d, config)
  }

  /** The handler throws an error to be retried, and that is on record. */
  predicate Rethrown(d: Delivery)
  {
    d.result == Throws(true) && d.failedUp
  }

  /** The attempt fails for good: it throws, or its success cannot be recorded, and it is not retried. */
  predicate FailsForGood(d: Delivery)
  {
    (d.result.Throws? || !d.processedUp) && !Rethrown(d)
  }

  /** The effects of a failing attempt before its dead letter. */
  function Preamble(d: Delivery): nat
  {
    1 + (if d.result == Returns then 1 else 0) + (if d.failedUp then 1 else 0)
  }

  // ---------------------------------------------------------------- scripts in full

  lemma TakeConcat(a: seq<Effect>, b: seq<Effect>, n: nat)
    ensures Take(a + b, n) == if n <= |a| then Take(a, n) else a + Take(b, n - |a|)
  {
    if n < |a + b| {
      assert (a + b)[..n] == if n <= |a| then a[..n] else a + b[..n - |a|];
    }
  }

  /** The effects of a failing attempt before its dead letter, in order. */
  function Before(key: Key, d: Delivery): (p: seq<Effect>)
    ensures |p| == Preamble(d)
    ensures forall e <- p :: e.Began? || e.Succeeded? || e.MarkedFailed?
  {
    [Began(key, d.at)] + (if d.result == Returns then [Succeeded(key)] else [])
    + (if d.failedUp then [MarkedFailed(key, d.end)] else [])
  }

  function Letter(d: Delivery): seq<Effect>
  {
    if d.deadLetterUp then [DeadLetter(d.message), Committed(d.message)] else []
  }

  /** What is due, case by case. */
  function Due(s: State, d: Delivery, config: Config): seq<Effect>
  {
    if Undeliverable(d.message, config) || (Routed(d.message, config) && !d.beginUp) then Letter(d)
    else if Ignored(d.message, config) || Held(s, d, config) then [Committed(d.message)]
    else if Routed(d.message, config) then
      var key := KeyOf(d.message, config);
      if FailsForGood(d) then Before(key, d) + Letter(d)
      else if Rethrown(d) then [Began(key, d.at), MarkedFailed(key, d.end)]
      else [Began(key, d.at), Succeeded(key), MarkedProcessed(key, d.end), Committed(d.message)]
    else []
  }

  lemma DueIsScript(s: State, d: Delivery, config: Config)
    ensures Script(s.records, d, config) == Due(s, d, config)
  {
    if Starts(s, d, config) {
      var key := KeyOf(d.message, config);
      assert Decide(s.records, key, d.at, config.staleMs) == Go;
      StartedScript(key, d);
    }
  }

  lemma StartedScript(key: Key, d: Delivery)
    ensures [Began(key, d.at)] + Handling(key, d) ==
            if FailsForGood(d) then Before(key, d) + Letter(d)
            else if Rethrown(d) then [Began(key, d.at), MarkedFailed(key, d.end)]
            else [Began(key, d.at), Succeeded(key), MarkedProcessed(key, d.end), Committed(d.message)]
  {
    var begun := [Began(key, d.at)];
    match d.result
    case Throws(retryable) =>
      assert Before(key, d) == begun + if d.failedUp then [MarkedFailed(key, d.end)] else [];
      assert begun + [MarkedFailed(key, d.end)] == [Began(key, d.at), MarkedFailed(key, d.end)];
    case Returns =>
      assert begun + ([Succeeded(key)] + AfterSuccess(key, d)) == (begun + [Succeeded(key)]) + AfterSuccess(key, d);
      if !d.processedUp && !d.failedUp {
        assert Before(key, d) == begun + [Succeeded(key)];
      }
  }

  // ---------------------------------------------------------------- what takes place

  lemma PerformedIsDue(s: State, d: Delivery, config: Config)
    ensures Performed(s, d, config) == Take(Due(s, d, config), d.lifetime)
  {
    DueIsScript(s, d, config);
  }

  /** How the call of eachMessage ends. */
  function Fate(s: State, d: Delivery, config: Config): Ending
  {
    EndingOf(Script(s.records, d, config), d.lifetime)
  }

  /** The attempt is put on record exactly when the handler is due and the process lives to do so. */
  lemma BeganIff(s: State, d: Delivery, config: Config, key: Key, at: int)
    ensures Began(key, at) in Performed(s, d, config) <==>
            Starts(s, d, config) && d.lifetime >= 1 && key == KeyOf(d.message, config) && at == d.at
  {
    PerformedIsDue(s, d, config);
    if Starts(s, d, config) {
      var own := KeyOf(d.message, config);
      if d.lifetime >= 1 {
        assert Performed(s, d, config)[0] == Began(own, d.at);
      }
      if FailsForGood(d) {
        BeganOnce(own, d, key, at);
      }
    }
  }

  lemma BeganOnce(own: Key, d: Delivery, key: Key, at: int)
    ensures Began(key, at) in Before(own, d) + Letter(d) ==> key == own && at == d.at
  {
  }

  /** The handler has its success exactly when it is due and returns, and the process lives that long. */
  lemma SucceededIff(s: State, d: Delivery, config: Config, key: Key)
    ensures Succeeded(key) in Performed(s, d, config) <==>
            Starts(s, d, config) && d.result == Returns && d.lifetime >= 2 && key == KeyOf(d.message, config)
  {
    PerformedIsDue(s, d, config);
    if Starts(s, d, config) && d.result == Returns && d.lifetime >= 2 {
      assert Performed(s, d, config)[1] == Succeeded(KeyOf(d.message, config));
    }
  }

  /** The success is recorded exactly when the store takes it, too. */
  lemma MarkedProcessedIff(s: State, d: Delivery, config: Config, key: Key, at: int)
    ensures MarkedProcessed(key, at) in Performed(s, d, config) <==>
            Starts(s, d, config) && d.result == Returns && d.processedUp && d.lifetime >= 3 &&
            key == KeyOf(d.message, config) && at == d.end
  {
    PerformedIsDue(s, d, config);
    if Starts(s, d, config) && d.result == Returns && d.processedUp && d.lifetime >= 3 {
      assert Performed(s, d, config)[2] == MarkedProcessed(KeyOf(d.message, config), d.end);
    }
  }

  /** A failure, of the handler or of recording its success, is recorded exactly when the store takes it. */
  lemma MarkedFailedIff(s: State, d: Delivery, config: Config, key: Key, at: int)
    ensures MarkedFailed(key, at) in Performed(s, d, config) <==>
            Starts(s, d, config) && d.failedUp && (d.result.Throws? || !d.processedUp) &&
            d.lifetime >= (if d.result == Returns then 3 else 2) && key == KeyOf(d.message, config) && at == d.end
  {
    PerformedIsDue(s, d, config);
    if Starts(s, d, config) && d.failedUp && (d.result.Throws? || !d.processedUp) {
      var own, i := KeyOf(d.message, config), if d.result == Returns then 2 else 1;
      if d.lifetime > i {
        assert Performed(s, d, config)[i] == MarkedFailed(own, d.end);
      }
    }
  }

  /** What the dead-letter topic is asked to take, and after how many effects. */
  predicate AsksForLetter(s: State, d: Delivery, config: Config)
  {
    Undeliverable(d.message, config) || (Routed(d.message, config) && !d.beginUp) ||
    (Starts(s, d, config) && FailsForGood(d))
  }

  function EffectsFirst(s: State, d: Delivery, config: Config): nat
  {
    if Starts(s, d, config) then Preamble(d) else 0
  }

  /**
   A message is dead-lettered exactly when it cannot be delivered, the attempt cannot be put on
   record, or the attempt fails for good; the topic accepts; and the process lives to write it.
   */
  lemma DeadLetterIff(s: State, d: Delivery, config: Config, m: Message)
    ensures DeadLetter(m) in Performed(s, d, config) <==>
            m == d.message && AsksForLetter(s, d, config) && d.deadLetterUp &&
            d.lifetime > EffectsFirst(s, d, config)
  {
    PerformedIsDue(s, d, config);
    if Starts(s, d, config) && FailsForGood(d) {
      TakeConcat(Before(KeyOf(d.message, config), d), Letter(d), d.lifetime);
    }
    if AsksForLetter(s, d, config) && d.deadLetterUp && d.lifetime > EffectsFirst(s, d, config) {
      assert Performed(s, d, config)[EffectsFirst(s, d, config)] == DeadLetter(d.message);
    }
  }

  /**
   A message is acknowledged exactly when it is ignored, or held to be handled already, or
   handled and recorded so, or dead-lettered; and the process lives to do so.
   */
  lemma CommittedIff(s: State, d: Delivery, config: Config, m: Message)
    ensures Committed(m) in Performed(s, d, config) <==>
            m == d.message &&
            ((d.lifetime >= 1 && (Ignored(d.message, config) || (d.beginUp && Held(s, d, config)))) ||
             (d.lifetime >= 4 && Starts(s, d, config) && d.result == Returns && d.processedUp) ||
             (d.lifetime > EffectsFirst(s, d, config) + 1 && AsksForLetter(s, d, config) && d.deadLetterUp))
  {
    PerformedIsDue(s, d, config);
    var p := Performed(s, d, config);
    if Starts(s, d, config) && FailsForGood(d) {
      TakeConcat(Before(KeyOf(d.message, config), d), Letter(d), d.lifetime);
    }
    if d.lifetime >= |Due(s, d, config)| && Due(s, d, config) != [] {
      assert p[|p| - 1] == Due(s, d, config)[|p| - 1];
    }
  }

  /** The call returns exactly when the message is acknowledged, and throws exactly in these cases. */
  lemma FateIff(s: State, d: Delivery, config: Config)
    ensures Fate(s, d, config) == Returned <==> Committed(d.message) in Performed(s, d, config)
    ensures Fate(s, d, config) == Threw <==>
            (AsksForLetter(s, d, config) && !d.deadLetterUp && d.lifetime >= EffectsFirst(s, d, config)) ||
            (Starts(s, d, config) && Rethrown(d) && d.lifetime >= 2)
  {
    DispositionExact(s, d, config);
    DueIsScript(s, d, config);
  }

  /** What the record of an event says after an attempt, as far as the process lived. */
  function RecordLeft(d: Delivery): Record
  {
    if d.result == Returns && d.processedUp && d.lifetime >= 3 then Record(Processed, d.end)
    else if (d.result.Throws? || !d.processedUp) && d.failedUp && d.lifetime >= (if d.result == Returns then 3 else 2)
    then Record(Failed, d.end)
    else Record(Processing, d.at)
  }

  lemma HandlingRecord(s: State, key: Key, d: Delivery)
    requires d.lifetime >= 1 && key in s.records && s.records[key] == Record(Processing, d.at)
    ensures Play(s, Handling(key, d), d.lifetime - 1).records == s.records[key := RecordLeft(d)]
  {
    assert s.records == s.records[key := s.records[key]];
    match d.result
    case Throws(retryable) => FailingPlay(s, key, d, retryable, d.lifetime - 1);
    case Returns =>
      if d.lifetime >= 2 {
        var s1 := Perform(s, Succeeded(key));
        if d.processedUp {
          var rest := [MarkedProcessed(key, d.end), Committed(d.message)];
          assert Handling(key, d)[1..] == rest && rest[1..] == [Committed(d.message)];
          if d.lifetime >= 3 {
            QuietPlay(Perform(s1, rest[0]), rest[1..], d.lifetime - 3);
          }
        } else {
          assert Handling(key, d)[1..] == Failing(key, d, false);
          FailingPlay(s1, key, d, false, d.lifetime - 2);
        }
      }
  }

  /** A delivery writes the record of its own event, and only when its handler is due. */
  lemma RecordsAfter(s: State, d: Delivery, config: Config)
    ensures Consume(s, d, config).records ==
            if Starts(s, d, config) && d.lifetime >= 1
            then s.records[KeyOf(d.message, config) := RecordLeft(d)] else s.records
  {
    assert Begins(s, d, config) <==> Starts(s, d, config) && d.lifetime >= 1;
    if Begins(s, d, config) {
      var key := KeyOf(d.message, config);
      BeginsPlay(s, d, config);
      var begun := Perform(s, Began(key, d.at));
      HandlingRecord(begun, key, d);
      assert begun.records[key := RecordLeft(d)] == s.records[key := RecordLeft(d)];
    } else {
      OtherwiseQuiet(s, d, config);
    }
  }

  // ---------------------------------------------------------------- errors to be retried

  /** A retryable error on record is thrown on: nothing is dead-lettered or acknowledged. */
  lemma RetryableIsRethrown(s: State, d: Delivery, config: Config)
    requires Starts(s, d, config) && d.result == Throws(true) && d.failedUp
    ensures var key, p := KeyOf(d.message, config), Performed(s, d, config);
            p == Take([Began(key, d.at), MarkedFailed(key, d.end)], d.lifetime) &&
            (forall m :: DeadLetter(m) !in p && Committed(m) !in p) &&
            Fate(s, d, config) == if d.lifetime >= 2 then Threw else Died
  {
    PerformedIsDue(s, d, config);
    DueIsScript(s, d, config);
  }

  /** A delivery whose handler would throw a retryable error settles its message nevertheless. */
  predicate SettlesAnyway(s: State, d: Delivery, config: Config)
  {
    (d.lifetime >= 1 && d.beginUp && Held(s, d, config)) ||
    (d.deadLetterUp &&
     ((d.lifetime >= 1 && !d.beginUp) || (d.lifetime >= 2 && d.beginUp && !Held(s, d, config) && !d.failedUp)))
  }

  predicate IsSettled(log: seq<Effect>, m: Message)
  {
    Committed(m) in log || DeadLetter(m) in log
  }

  lemma RetriedSettles(s: State, d: Delivery, config: Config)
    requires Routed(d.message, config) && d.result == Throws(true)
    ensures IsSettled(Performed(s, d, config), d.message) <==> SettlesAnyway(s, d, config)
  {
    DeadLetterIff(s, d, config, d.message);
    CommittedIff(s, d, config, d.message);
  }

  ghost predicate SettledInRun(ds: seq<Delivery>, config: Config, m: Message)
  {
    exists i :: 0 <= i < |ds| && ds[i].message == m && SettlesAnyway(Run(ds[..i], config), ds[i], config)
  }

  lemma SettledInRunAppend(ds: seq<Delivery>, config: Config, m: Message)
    requires ds != []
    ensures var n := |ds| - 1;
            SettledInRun(ds, config, m) <==>
            SettledInRun(ds[..n], config, m) ||
            (ds[n].message == m && SettlesAnyway(Run(ds[..n], config), ds[n], config))
  {
    var n := |ds| - 1;
    var init := ds[..n];
    forall i | 0 <= i <= n ensures init[..i] == ds[..i] {}
    if SettledInRun(init, config, m) {
      var i :| 0 <= i < n && init[i].message == m && SettlesAnyway(Run(init[..i], config), init[i], config);
      assert ds[i] == init[i] && SettlesAnyway(Run(ds[..i], config), ds[i], config);
    }
    if SettledInRun(ds, config, m) {
      var i :| 0 <= i < |ds| && ds[i].message == m && SettlesAnyway(Run(ds[..i], config), ds[i], config);
      assert i < n ==> init[i].message == m && SettlesAnyway(Run(init[..i], config), init[i], config);
    }
  }

  /**
   A message whose handler always throws a retryable error is acknowledged or dead-lettered
   exactly when some delivery of it finds its event held, or the store fails it and the
   dead-letter topic accepts.
   */
  lemma {:induction false} RetriedSettledIff(ds: seq<Delivery>, config: Config, m: Message)
    requires Routed(m, config)
    requires forall i :: 0 <= i < |ds| && ds[i].message == m ==> ds[i].result == Throws(true)
    ensures IsSettled(Run(ds, config).log, m) <==> SettledInRun(ds, config, m)
  {
    if ds != [] {
      var n := |ds| - 1;
      var s, d := Run(ds[..n], config), ds[n];
      assert forall i :: 0 <= i < n ==> ds[..n][i] == ds[i];
      RetriedSettledIff(ds[..n], config, m);
      SettledInRunAppend(ds, config, m);
      LogGrows(s, d, config);
      if d.message == m {
        RetriedSettles(s, d, config);
      } else {
        DeadLetterIff(s, d, config, m);
        CommittedIff(s, d, config, m);
      }
    }
  }

  /** Every delivery of the event throws a retryable error, and the store is up. */
  predicate AlwaysRetried(ds: seq<Delivery>, config: Config, key: Key)
  {
    forall i :: 0 <= i < |ds| && Routed(ds[i].message, config) && KeyOf(ds[i].message, config) == key ==>
      ds[i].result == Throws(true) && ds[i].beginUp && ds[i].failedUp
  }

  lemma RetriedStep(ds: seq<Delivery>, d: Delivery, config: Config, key: Key)
    requires Routed(d.message, config) && KeyOf(d.message, config) == key
    requires d.result == Throws(true) && d.beginUp && d.failedUp
    requires Succeeded(key) !in Run(ds, config).log && !InProgress(Run(ds, config).log, key, d.at, config.staleMs)
    ensures var p := Performed(Run(ds, config), d, config);
            Succeeded(key) !in p && forall m :: DeadLetter(m) !in p && Committed(m) !in p
  {
    var s := Run(ds, config);
    RunToldAndFounded(ds, config);
    assert RecordOf(s.log, key) == if key in s.records then Some(s.records[key]) else None;
    assert !IsProcessed(s, key);
    RetryableIsRethrown(s, d, config);
    SucceededIff(s, d, config, key);
  }

  /**
   With the store up and redeliveries spaced by the stale time such a message is never
   acknowledged, never dead-lettered and never handled, over every run.
   */
  lemma {:induction false} RetriedForever(ds: seq<Delivery>, config: Config, m: Message)
    requires Routed(m, config) && Spaced(ds, config) && AlwaysRetried(ds, config, KeyOf(m, config))
    ensures var log := Run(ds, config).log;
            Succeeded(KeyOf(m, config)) !in log && !IsSettled(log, m)
  {
    if ds != [] {
      var n, key := |ds| - 1, KeyOf(m, config);
      var init, d := ds[..n], ds[n];
      var s := Run(init, config);
      forall i | 0 <= i < n ensures init[..i] == ds[..i] && init[i] == ds[i] {}
      assert Spaced(init, config);
      RetriedForever(init, config, m);
      LogGrows(s, d, config);
      if Routed(d.message, config) && KeyOf(d.message, config) == key {
        assert !InProgress(Run(ds[..n], config).log, key, d.at, config.staleMs);
        RetriedStep(init, d, config, key);
      } else {
        SucceededIff(s, d, config, key);
        DeadLetterIff(s, d, config, m);
        CommittedIff(s, d, config, m);
      }
    }
  }

  // ---------------------------------------------------------------- keys

  /** The name a handler is known by: its own, or that of the event type. */
  function NameOf(m: Message, config: Config): string
    requires m.eventType in config.handlers
  {
    if config.handlers[m.eventType] == "" then m.eventType else config.handlers[m.eventType]
  }

  /** Two deliveries share a record exactly when they agree in event, handler and group. */
  lemma SameRecordIff(a: Message, b: Message, one: Config, other: Config)
    requires a.eventType in one.handlers && b.eventType in other.handlers
    ensures KeyOf(a, one) == KeyOf(b, other) <==>
            a.eventId == b.eventId && NameOf(a, one) == NameOf(b, other) && one.consumerGroup == other.consumerGroup
  {
  }
}
