/**
 The Kafka consumer (packages/shared/src/kafka/event-consumer.js) over its per-handler
 idempotency records (packages/shared/src/kafka/event-idempotency.service.js). Messages are
 delivered one at a time. A delivery is a script of effects on the world, and the process
 may die after any of them; what the handler does, which writes reach the store and whether
 the dead-letter topic accepts are parameters.
 */
module EventConsumer {
  import opened Options
  import opened Lists


  datatype Key = Key(eventId: string, handlerName: string, consumerGroup: string)

  datatype Status = Processing | Processed | Failed

  datatype Record = Record(status: Status, updatedAt: int)

  type Records = map<Key, Record>

  // ---------------------------------------------------------------- the record operations

  datatype Decision = Go | SkipProcessed | SkipProcessing

  function Decide(records: Records, key: Key, now: int, staleMs: int): Decision
  {
    if key !in records then Go
    else
      match records[key].status
      case Processed => SkipProcessed
      case Processing => if now - records[key].updatedAt < staleMs then SkipProcessing else Go
      case Failed => Go
  }

  class EventIdempotencyService {
    var records: Records
    const staleMs: int

    constructor (staleMs: int)
      ensures records == map[] && this.staleMs == staleMs
    {
      records := map[];
      this.staleMs := staleMs;
    }

    method BeginProcessing(key: Key, now: int) returns (d: Decision)
      modifies this
      ensures d == Decide(old(records), key, now, staleMs)
      ensures records == if d == Go then old(records)[key := Record(Processing, now)] else old(records)
    {
      if key in records && records[key].status == Processed {
        return SkipProcessed;
      }
      if key in records && records[key].status == Processing && now - records[key].updatedAt < staleMs {
        return SkipProcessing;
      }
      records := records[key := Record(Processing, now)];
      return Go;
    }

    method MarkProcessed(key: Key, now: int)
      modifies this
      ensures records == old(records)[key := Record(Processed, now)]
    {
      records := records[key := Record(Processed, now)];
    }

    method MarkFailed(key: Key, now: int)
      modifies this
      ensures records == old(records)[key := Record(Failed, now)]
    {
      records := records[key := Record(Failed, now)];
    }
  }

  // ---------------------------------------------------------------- one delivery

  /** `handlers` maps an event type to the name of its handler, which may be empty. */
  datatype Config = Config(handlers: map<string, string>, consumerGroup: string, ignoreMissing: bool, staleMs: int)

  /** A message is told from others with the same event by its offset. */
  datatype Message = Message(offset: nat, wellFormed: bool, eventId: string, eventType: string)

  datatype Result = Returns | Throws(retryable: bool)

  /**
   A delivery: when it begins and ends, what the handler does, whether the store answers
   beginProcessing, markProcessed and markFailed, whether the dead-letter topic accepts, and
   how many effects the process lives to perform.
   */
  datatype Delivery = Delivery(
    message: Message,
    at: int,
    end: int,
    result: Result,
    beginUp: bool,
    processedUp: bool,
    failedUp: bool,
    deadLetterUp: bool,
    lifetime: nat)

  /** What a delivery does to the world. A commit ends the redelivery of its message. */
  datatype Effect =
    | Began(key: Key, at: int)
    | Succeeded(key: Key)
    | MarkedProcessed(key: Key, at: int)
    | MarkedFailed(key: Key, at: int)
    | DeadLetter(message: Message)
    | Committed(message: Message)

  function KeyOf(m: Message, config: Config): Key
    requires m.eventType in config.handlers
  {
    var name := config.handlers[m.eventType];
    Key(m.eventId, if name != "" then name else m.eventType, config.consumerGroup)
  }

  predicate Routed(m: Message, config: Config)
  {
    m.wellFormed && m.eventType in config.handlers
  }

  /** publishDeadLetter, and the return after it; a refused dead letter is thrown. */
  function Burial(d: Delivery): seq<Effect>
  {
    if d.deadLetterUp then [DeadLetter(d.message), Committed(d.message)] else []
  }

  /** The catch blocks: markFailed, and the dead letter unless the error is to be retried. */
  function Failing(key: Key, d: Delivery, retryable: bool): seq<Effect>
  {
    if !d.failedUp then Burial(d)
    else [MarkedFailed(key, d.end)] + if retryable then [] else Burial(d)
  }

  /** From the call of the handler on. An error of the store is none to be retried. */
  function Handling(key: Key, d: Delivery): seq<Effect>
  {
    match d.result
    case Throws(retryable) => Failing(key, d, retryable)
    case Returns => [Succeeded(key)] + AfterSuccess(key, d)
  }

  function AfterSuccess(key: Key, d: Delivery): seq<Effect>
  {
    if d.processedUp then [MarkedProcessed(key, d.end), Committed(d.message)] else Failing(key, d, false)
  }

  /** withIdempotency and the catch block around it. */
  function Attempt(records: Records, key: Key, d: Delivery, staleMs: int): seq<Effect>
  {
    if !d.beginUp then Burial(d)
    else if Decide(records, key, d.at, staleMs) != Go then [Committed(d.message)]
    else [Began(key, d.at)] + Handling(key, d)
  }

  /** eachMessage, with an idempotency service: the effects in the order in which they are due. */
  function Script(records: Records, d: Delivery, config: Config): seq<Effect>
  {
    if !d.message.wellFormed then Burial(d)
    else if d.message.eventType !in config.handlers then
      if config.ignoreMissing then [Committed(d.message)] else Burial(d)
    else Attempt(records, KeyOf(d.message, config), d, config.staleMs)
  }

  // ---------------------------------------------------------------- performing it

  datatype State = State(records: Records, log: seq<Effect>)

  const EMPTY := State(map[], [])

  function Perform(s: State, e: Effect): State
  {
    State(
      match e
      case Began(key, at) => s.records[key := Record(Processing, at)]
      case MarkedProcessed(key, at) => s.records[key := Record(Processed, at)]
      case MarkedFailed(key, at) => s.records[key := Record(Failed, at)]
      case _ => s.records,
      s.log + [e])
  }

  /** The first `n` effects of a script, one after the other. */
  function Play(s: State, script: seq<Effect>, n: nat): State
    decreases |script|
  {
    if script == [] || n == 0 then s else Play(Perform(s, script[0]), script[1..], n - 1)
  }

  function Take(script: seq<Effect>, n: nat): seq<Effect>
  {
    if n < |script| then script[..n] else script
  }

  datatype Ending = Returned | Threw | Died

  function EndingOf(script: seq<Effect>, n: nat): Ending
  {
    if n < |script| then Died
    else if script != [] && script[|script| - 1].Committed? then Returned else Threw
  }

  function Consume(s: State, d: Delivery, config: Config): State
  {
    Play(s, Script(s.records, d, config), d.lifetime)
  }

  /** The effects that took place. */
  function Performed(s: State, d: Delivery, config: Config): seq<Effect>
  {
    Take(Script(s.records, d, config), d.lifetime)
  }

  lemma {:induction false} PlayLogs(s: State, script: seq<Effect>, n: nat)
    ensures Play(s, script, n).log == s.log + Take(script, n)
    decreases |script|
  {
    if script != [] && n > 0 {
      PlayLogs(Perform(s, script[0]), script[1..], n - 1);
      assert Take(script, n) == [script[0]] + Take(script[1..], n - 1);
    }
  }

  /** The consumer as it runs: the service's records, and a log of the effects. */
  class Consumer {
    const service: EventIdempotencyService
    const config: Config
    ghost var log: seq<Effect>

    ghost function Contents(): State
      reads this, service
    {
      State(service.records, log)
    }

    constructor (service: EventIdempotencyService, config: Config)
      ensures this.service == service && this.config == config && log == []
    {
      this.service, this.config, log := service, config, [];
    }

    method EachMessage(d: Delivery) returns (r: Ending)
      requires service.staleMs == config.staleMs
      modifies this, service
      ensures Contents() == Consume(old(Contents()), d, config)
      ensures r == EndingOf(Script(old(service.records), d, config), d.lifetime)
    {
      if !d.message.wellFormed {
        r := PublishDeadLetter(d, d.lifetime);
      } else if d.message.eventType !in config.handlers {
        if config.ignoreMissing {
          r := Return(d, d.lifetime);
        } else {
          r := PublishDeadLetter(d, d.lifetime);
        }
      } else {
        r := WithIdempotency(KeyOf(d.message, config), d);
      }
    }

    /** The end of eachMessage: the offset is committed, if the process lives to do so. */
    method Return(d: Delivery, left: nat) returns (r: Ending)
      modifies this`log
      ensures Contents() == Play(old(Contents()), [Committed(d.message)], left)
      ensures r == EndingOf([Committed(d.message)], left)
    {
      if left == 0 {
        return Died;
      }
      log := log + [Committed(d.message)];
      return Returned;
    }

    method PublishDeadLetter(d: Delivery, left: nat) returns (r: Ending)
      modifies this`log
      ensures Contents() == Play(old(Contents()), Burial(d), left)
      ensures r == EndingOf(Burial(d), left)
    {
      if !d.deadLetterUp {
        return Threw;
      }
      if left == 0 {
        return Died;
      }
      log := log + [DeadLetter(d.message)];
      assert Burial(d)[1..] == [Committed(d.message)];
      r := Return(d, left - 1);
    }

    method Fail(key: Key, d: Delivery, retryable: bool, left: nat) returns (r: Ending)
      modifies this`log, service
      ensures Contents() == Play(old(Contents()), Failing(key, d, retryable), left)
      ensures r == EndingOf(Failing(key, d, retryable), left)
    {
      if !d.failedUp {
        r := PublishDeadLetter(d, left);
        return;
      }
      if left == 0 {
        return Died;
      }
      service.MarkFailed(key, d.end);
      log := log + [MarkedFailed(key, d.end)];
      ghost var rest := if retryable then [] else Burial(d);
      assert Failing(key, d, retryable)[1..] == rest;
      if retryable {
        return Threw;
      }
      r := PublishDeadLetter(d, left - 1);
    }

    /** The handler, and what follows it. */
    method Handle(key: Key, d: Delivery, left: nat) returns (r: Ending)
      modifies this`log, service
      ensures Contents() == Play(old(Contents()), Handling(key, d), left)
      ensures r == EndingOf(Handling(key, d), left)
    {
      if d.result.Throws? {
        r := Fail(key, d, d.result.retryable, left);
        return;
      }
      if left == 0 {
        return Died;
      }
      log := log + [Succeeded(key)];
      if !d.processedUp {
        assert Handling(key, d)[1..] == Failing(key, d, false);
        r := Fail(key, d, false, left - 1);
        return;
      }
      assert Handling(key, d)[1..] == [MarkedProcessed(key, d.end), Committed(d.message)];
      if left == 1 {
        return Died;
      }
      service.MarkProcessed(key, d.end);
      log := log + [MarkedProcessed(key, d.end)];
      assert Handling(key, d)[1..][1..] == [Committed(d.message)];
      r := Return(d, left - 2);
    }

    method WithIdempotency(key: Key, d: Delivery) returns (r: Ending)
      requires service.staleMs == config.staleMs
      modifies this`log, service
      ensures Contents() == Play(old(Contents()), Attempt(old(service.records), key, d, config.staleMs), d.lifetime)
      ensures r == EndingOf(Attempt(old(service.records), key, d, config.staleMs), d.lifetime)
    {
      if !d.beginUp {
        r := PublishDeadLetter(d, d.lifetime);
        return;
      }
      if Decide(service.records, key, d.at, service.staleMs) == Go && d.lifetime == 0 {
        return Died;
      }
      var decision := service.BeginProcessing(key, d.at);
      if decision != Go {
        r := Return(d, d.lifetime);
        return;
      }
      log := log + [Began(key, d.at)];
      assert ([Began(key, d.at)] + Handling(key, d))[1..] == Handling(key, d);
      r := Handle(key, d, d.lifetime - 1);
    }
  }

  // ---------------------------------------------------------------- what one delivery does

  /**
   No effect twice; a commit is the last effect, and stands for exactly one of: a recorded
   success, a dead letter, or a message skipped or ignored without any other effect.
   */
  ghost predicate Settled(p: seq<Effect>, m: Message)
  {
    NoRepeats(p) &&
    (forall i :: 0 <= i < |p| ==> p[i].Committed? ==> p[i] == Committed(m) && i == |p| - 1) &&
    (forall i :: 0 <= i < |p| ==> p[i].DeadLetter? ==> p[i] == DeadLetter(m)) &&
    (Committed(m) in p ==>
      if DeadLetter(m) in p then |p| >= 2 && p[|p| - 2] == DeadLetter(m) && forall e <- p :: !e.MarkedProcessed?
      else p == [Committed(m)] || (|p| >= 3 && p[|p| - 2].MarkedProcessed? && p[|p| - 3] == Succeeded(p[|p| - 2].key)))
  }

  /** What a script promises, every prefix of it does: the process may die at any point. */
  lemma SettledPrefix(script: seq<Effect>, m: Message, n: nat)
    requires Settled(script, m)
    ensures Settled(Take(script, n), m)
  {
    var p := Take(script, n);
    if n < |script| {
      assert forall i :: 0 <= i < |p| ==> p[i] == script[i];
      assert Committed(m) !in p;
    }
  }

  lemma BurialSettled(d: Delivery, before: seq<Effect>)
    requires NoRepeats(before) && forall e <- before :: !e.Committed? && !e.DeadLetter? && !e.MarkedProcessed?
    ensures Settled(before + Burial(d), d.message)
  {
    var p := before + Burial(d);
    if d.deadLetterUp {
      assert p[|before|] == DeadLetter(d.message) && p[|before| + 1] == Committed(d.message) && |p| == |before| + 2;
    } else {
      assert p == before;
    }
  }

  lemma FailingSettled(key: Key, d: Delivery, retryable: bool, before: seq<Effect>)
    requires NoRepeats(before)
    requires forall e <- before :: !e.Committed? && !e.DeadLetter? && !e.MarkedProcessed? && !e.MarkedFailed?
    ensures Settled(before + Failing(key, d, retryable), d.message)
  {
    if !d.failedUp {
      BurialSettled(d, before);
    } else {
      var marked := before + [MarkedFailed(key, d.end)];
      forall i | 0 <= i < |before| ensures before[i] != MarkedFailed(key, d.end) {
        assert before[i] in before;
      }
      BurialSettled(d, marked);
      if retryable {
        assert before + Failing(key, d, retryable) == marked;
        assert Settled(marked, d.message);
      } else {
        assert before + Failing(key, d, retryable) == marked + Burial(d);
      }
    }
  }

  lemma HandlingSettled(key: Key, d: Delivery)
    ensures Settled([Began(key, d.at)] + Handling(key, d), d.message)
  {
    var begun := [Began(key, d.at)];
    match d.result
    case Throws(retryable) => FailingSettled(key, d, retryable, begun);
    case Returns =>
      var succeeded := begun + [Succeeded(key)];
      if d.processedUp {
        assert begun + Handling(key, d) ==
               [Began(key, d.at), Succeeded(key), MarkedProcessed(key, d.end), Committed(d.message)];
      } else {
        FailingSettled(key, d, false, succeeded);
        assert begun + Handling(key, d) == succeeded + Failing(key, d, false);
      }
  }

  lemma ScriptSettled(records: Records, d: Delivery, config: Config)
    ensures Settled(Script(records, d, config), d.message)
  {
    BurialSettled(d, []);
    assert [] + Burial(d) == Burial(d);
    if Routed(d.message, config) {
      HandlingSettled(KeyOf(d.message, config), d);
    }
  }

  /** The ending of a delivery, told from its effects. */
  lemma DispositionExact(s: State, d: Delivery, config: Config)
    ensures Settled(Performed(s, d, config), d.message)
    ensures EndingOf(Script(s.records, d, config), d.lifetime) == Returned <==>
            Committed(d.message) in Performed(s, d, config)
  {
    var script := Script(s.records, d, config);
    ScriptSettled(s.records, d, config);
    SettledPrefix(script, d.message, d.lifetime);
    if script != [] && script[|script| - 1].Committed? {
      assert script[|script| - 1] in script;
    }
  }

  // ---------------------------------------------------------------- runs

  function Run(ds: seq<Delivery>, config: Config): State
  {
    if ds == [] then EMPTY else Consume(Run(ds[..|ds| - 1], config), ds[|ds| - 1], config)
  }

  function One(b: bool): nat { if b then 1 else 0 }

  function Successes(log: seq<Effect>, key: Key): nat
  {
    multiset(log)[Succeeded(key)]
  }

  predicate IsProcessed(s: State, key: Key)
  {
    key in s.records && s.records[key].status == Processed
  }

  // ---------------------------------------------------------------- what a script does to the records

  /** Dead letters and commits leave the records alone. */
  lemma {:induction false} QuietPlay(s: State, script: seq<Effect>, n: nat)
    requires forall e <- script :: e.DeadLetter? || e.Committed?
    ensures Play(s, script, n).records == s.records
    decreases |script|
  {
    if script != [] && n > 0 {
      assert script[0] in script;
      QuietPlay(Perform(s, script[0]), script[1..], n - 1);
    }
  }

  /** A failure leaves the record of its key as it is, or marks it failed. */
  lemma FailingPlay(s: State, key: Key, d: Delivery, retryable: bool, n: nat)
    ensures var records := Play(s, Failing(key, d, retryable), n).records;
            records == if d.failedUp && n > 0 then s.records[key := Record(Failed, d.end)] else s.records
  {
    if !d.failedUp {
      QuietPlay(s, Burial(d), n);
    } else if n > 0 {
      var rest := if retryable then [] else Burial(d);
      assert Failing(key, d, retryable)[1..] == rest;
      QuietPlay(Perform(s, MarkedFailed(key, d.end)), rest, n - 1);
    }
  }

  /** The handler's success reaches its record when markProcessed does. */
  predicate Recorded(d: Delivery, n: nat)
  {
    d.result == Returns && d.processedUp && n >= 2
  }

  lemma HandlingPlay(s: State, key: Key, d: Delivery, n: nat)
    requires key in s.records && s.records[key].status == Processing
    ensures var s' := Play(s, Handling(key, d), n);
            key in s'.records && s'.records == s.records[key := s'.records[key]] &&
            (s'.records[key].status == Processed <==> Recorded(d, n)) &&
            (s'.records[key].status == Processing ==> s'.records[key] == s.records[key])
  {
    assert s.records == s.records[key := s.records[key]];
    match d.result
    case Throws(retryable) => FailingPlay(s, key, d, retryable, n);
    case Returns =>
      if n > 0 {
        var s1 := Perform(s, Succeeded(key));
        if d.processedUp {
          var rest := [MarkedProcessed(key, d.end), Committed(d.message)];
          assert Handling(key, d)[1..] == rest && rest[1..] == [Committed(d.message)];
          if n > 1 {
            QuietPlay(Perform(s1, rest[0]), rest[1..], n - 2);
          }
        } else {
          assert Handling(key, d)[1..] == Failing(key, d, false);
          FailingPlay(s1, key, d, false, n - 1);
        }
      }
  }

  predicate NoSuccess(p: seq<Effect>)
  {
    forall e <- p :: !e.Succeeded?
  }

  lemma NoSuccessCounts(p: seq<Effect>, n: nat, key: Key)
    requires NoSuccess(p)
    ensures Successes(Take(p, n), key) == 0
  {
    assert Succeeded(key) !in p;
    assert Succeeded(key) !in Take(p, n);
  }

  lemma FailingNoSuccess(key: Key, d: Delivery, retryable: bool)
    ensures NoSuccess(Failing(key, d, retryable))
    ensures NoSuccess(AfterSuccess(key, d))
  {
  }

  lemma SuccessesConcat(a: seq<Effect>, b: seq<Effect>, key: Key)
    ensures Successes(a + b, key) == Successes(a, key) + Successes(b, key)
  {
  }

  /** An effect followed by others: what it adds to the successes of a key. */
  lemma SuccessesCons(e: Effect, rest: seq<Effect>, n: nat, key: Key)
    requires n > 0
    ensures Take([e] + rest, n) == [e] + Take(rest, n - 1)
    ensures Successes(Take([e] + rest, n), key) == One(e == Succeeded(key)) + Successes(Take(rest, n - 1), key)
  {
    SuccessesConcat([e], Take(rest, n - 1), key);
    assert multiset([e]) == multiset{e};
  }

  lemma HandlingSucceeds(key: Key, d: Delivery, n: nat, other: Key)
    ensures Successes(Take(Handling(key, d), n), other) == One(other == key && d.result == Returns && n >= 1)
  {
    match d.result
    case Throws(retryable) =>
      FailingNoSuccess(key, d, retryable);
      NoSuccessCounts(Failing(key, d, retryable), n, other);
    case Returns =>
      if n > 0 {
        FailingNoSuccess(key, d, false);
        SuccessesCons(Succeeded(key), AfterSuccess(key, d), n, other);
        NoSuccessCounts(AfterSuccess(key, d), n - 1, other);
      } else {
        assert Take(Handling(key, d), 0) == [];
      }
  }

  // ---------------------------------------------------------------- at most once

  /** The delivery gets as far as marking its record as processing. */
  predicate Begins(s: State, d: Delivery, config: Config)
  {
    Routed(d.message, config) && d.beginUp && d.lifetime >= 1 &&
    Decide(s.records, KeyOf(d.message, config), d.at, config.staleMs) == Go
  }

  /** Its handler succeeds, and its record does not say so: the process died, or the store failed. */
  predicate Tears(s: State, d: Delivery, config: Config)
  {
    Begins(s, d, config) && d.result == Returns && d.lifetime >= 2 && !Recorded(d, d.lifetime - 1)
  }

  lemma BeginsPlay(s: State, d: Delivery, config: Config)
    requires Begins(s, d, config)
    ensures var key := KeyOf(d.message, config);
            Consume(s, d, config) == Play(Perform(s, Began(key, d.at)), Handling(key, d), d.lifetime - 1) &&
            Performed(s, d, config) == [Began(key, d.at)] + Take(Handling(key, d), d.lifetime - 1)
  {
    var key := KeyOf(d.message, config);
    var script := [Began(key, d.at)] + Handling(key, d);
    assert Script(s.records, d, config) == script && script[1..] == Handling(key, d);
  }

  /** A delivery that does not get that far leaves records and successes alone. */
  lemma OtherwiseQuiet(s: State, d: Delivery, config: Config)
    requires !Begins(s, d, config)
    ensures Consume(s, d, config).records == s.records
    ensures forall e <- Performed(s, d, config) :: e.DeadLetter? || e.Committed?
  {
    var script := Script(s.records, d, config);
    if d.lifetime > 0 {
      assert forall e <- script :: e.DeadLetter? || e.Committed?;
      QuietPlay(s, script, d.lifetime);
    }
  }

  lemma LogGrows(s: State, d: Delivery, config: Config)
    ensures Consume(s, d, config).log == s.log + Performed(s, d, config)
  {
    PlayLogs(s, Script(s.records, d, config), d.lifetime);
  }

  lemma BegunSucceeds(s: State, d: Delivery, config: Config, key: Key)
    requires Begins(s, d, config)
    ensures Successes(Performed(s, d, config), key) ==
            One(key == KeyOf(d.message, config) && d.result == Returns && d.lifetime >= 2)
  {
    var k := KeyOf(d.message, config);
    BeginsPlay(s, d, config);
    SuccessesCons(Began(k, d.at), Handling(k, d), d.lifetime, key);
    HandlingSucceeds(k, d, d.lifetime - 1, key);
  }

  lemma QuietSucceeds(s: State, d: Delivery, config: Config, key: Key)
    requires !Begins(s, d, config)
    ensures Successes(Performed(s, d, config), key) == 0
  {
    var p := Performed(s, d, config);
    OtherwiseQuiet(s, d, config);
    NoSuccessCounts(p, |p|, key);
  }

  /** What a delivery adds to the successes of a key. */
  lemma DeliverySucceeds(s: State, d: Delivery, config: Config, key: Key)
    ensures Successes(Consume(s, d, config).log, key) ==
            Successes(s.log, key)
            + One(Begins(s, d, config) && key == KeyOf(d.message, config) && d.result == Returns && d.lifetime >= 2)
  {
    LogGrows(s, d, config);
    SuccessesConcat(s.log, Performed(s, d, config), key);
    if Begins(s, d, config) {
      BegunSucceeds(s, d, config, key);
    } else {
      QuietSucceeds(s, d, config, key);
    }
  }

  /** What it does to the records: nothing to those of other keys. */
  lemma DeliveryRecords(s: State, d: Delivery, config: Config, key: Key)
    ensures var s' := Consume(s, d, config);
            if Begins(s, d, config) && key == KeyOf(d.message, config) then
              key in s'.records &&
              (s'.records[key].status == Processed <==> Recorded(d, d.lifetime - 1)) &&
              (s'.records[key].status == Processing ==> s'.records[key].updatedAt == d.at)
            else
              (key in s'.records <==> key in s.records) && (key in s.records ==> s'.records[key] == s.records[key])
  {
    if Begins(s, d, config) {
      var k := KeyOf(d.message, config);
      BeginsPlay(s, d, config);
      HandlingPlay(Perform(s, Began(k, d.at)), k, d, d.lifetime - 1);
    } else {
      OtherwiseQuiet(s, d, config);
    }
  }

  lemma DeliveryOn(s: State, d: Delivery, config: Config, key: Key)
    ensures var s' := Consume(s, d, config);
            var own := Begins(s, d, config) && key == KeyOf(d.message, config);
            Successes(s'.log, key) == Successes(s.log, key) + One(own && d.result == Returns && d.lifetime >= 2) &&
            (if own then
              key in s'.records &&
              (s'.records[key].status == Processed <==> Recorded(d, d.lifetime - 1)) &&
              (s'.records[key].status == Processing ==> s'.records[key].updatedAt == d.at)
            else
              (key in s'.records <==> key in s.records) && (key in s.records ==> s'.records[key] == s.records[key]))
  {
    DeliverySucceeds(s, d, config, key);
    DeliveryRecords(s, d, config, key);
  }

  /** Every key has succeeded once if its record says processed, and not at all otherwise. */
  ghost predicate Once(s: State)
  {
    forall key :: Successes(s.log, key) == if IsProcessed(s, key) then 1 else 0
  }

  /** It is exactly the torn successes that break this. */
  lemma StepKeepsOnceIff(s: State, d: Delivery, config: Config)
    requires Once(s)
    ensures Once(Consume(s, d, config)) <==> !Tears(s, d, config)
  {
    var s' := Consume(s, d, config);
    if Tears(s, d, config) {
      var key := KeyOf(d.message, config);
      DeliveryOn(s, d, config, key);
      assert Successes(s'.log, key) > 0 && !IsProcessed(s', key);
    } else {
      forall key
        ensures Successes(s'.log, key) == if IsProcessed(s', key) then 1 else 0
      {
        DeliveryOn(s, d, config, key);
        assert Successes(s.log, key) == if IsProcessed(s, key) then 1 else 0;
      }
    }
  }

  /**
   For every sequence of deliveries, redeliveries, failures and crashes that tears no success
   from its record, each event succeeds at most once per handler and group, and its record
   says processed exactly when it did.
   */
  lemma {:induction false} AtMostOnce(ds: seq<Delivery>, config: Config)
    requires forall i :: 0 <= i < |ds| ==> !Tears(Run(ds[..i], config), ds[i], config)
    ensures Once(Run(ds, config))
  {
    if ds != [] {
      var n := |ds| - 1;
      var init := ds[..n];
      forall i | 0 <= i < n ensures !Tears(Run(init[..i], config), init[i], config) {
        assert init[..i] == ds[..i];
      }
      AtMostOnce(init, config);
      assert !Tears(Run(ds[..n], config), ds[n], config);
      StepKeepsOnceIff(Run(init, config), ds[n], config);
    }
  }

  /** The condition is needed: after a torn success a redelivery at or after the stale time succeeds again. */
  lemma TornSuccessRepeats(s: State, d: Delivery, again: Delivery, config: Config)
    requires Tears(s, d, config)
    requires again.message == d.message && again.at - d.at >= config.staleMs
    requires again.beginUp && again.result == Returns && again.lifetime >= 2
    ensures var key := KeyOf(d.message, config);
            Successes(Consume(Consume(s, d, config), again, config).log, key) == Successes(s.log, key) + 2
  {
    var key, s1 := KeyOf(d.message, config), Consume(s, d, config);
    DeliveryOn(s, d, config, key);
    assert Begins(s1, again, config);
    DeliveryOn(s1, again, config, key);
  }

  /** Processed is absorbing, and a delivery touches no record and no success but its own. */
  lemma ProcessedAbsorbing(s: State, d: Delivery, config: Config, key: Key)
    requires key in s.records
    requires s.records[key].status == Processed || !Routed(d.message, config) || key != KeyOf(d.message, config)
    ensures var s' := Consume(s, d, config);
            key in s'.records && s'.records[key] == s.records[key] && Successes(s'.log, key) == Successes(s.log, key)
  {
    DeliveryOn(s, d, config, key);
  }

  /** A redelivery after a recorded success has no effect but, if the process lives, the commit. */
  lemma HandledOnceThenSkipped(s: State, d: Delivery, again: Delivery, config: Config)
    requires Begins(s, d, config) && Recorded(d, d.lifetime - 1)
    requires again.message == d.message && again.beginUp
    ensures Performed(Consume(s, d, config), again, config) == Take([Committed(d.message)], again.lifetime)
  {
    DeliveryOn(s, d, config, KeyOf(d.message, config));
  }

  /** After a crash or a failure without a success, a redelivery at or after the stale time runs the handler. */
  lemma UnfinishedIsRetried(s: State, d: Delivery, again: Delivery, config: Config)
    requires Begins(s, d, config) && !Recorded(d, d.lifetime - 1)
    requires again.message == d.message && again.beginUp && again.lifetime >= 1 && again.at - d.at >= config.staleMs
    ensures Begins(Consume(s, d, config), again, config)
  {
    DeliveryOn(s, d, config, KeyOf(d.message, config));
  }

  // ---------------------------------------------------------------- redelivery until acknowledgement

  /** A message is delivered again until its offset is committed, and not after that. */
  ghost predicate UntilCommitted(ds: seq<Delivery>, config: Config)
  {
    forall i :: 0 <= i < |ds| ==> Committed(ds[i].message) !in Run(ds[..i], config).log
  }

  lemma UntilCommittedInit(ds: seq<Delivery>, config: Config)
    requires ds != [] && UntilCommitted(ds, config)
    ensures UntilCommitted(ds[..|ds| - 1], config)
    ensures Committed(ds[|ds| - 1].message) !in Run(ds[..|ds| - 1], config).log
  {
    var init := ds[..|ds| - 1];
    forall i | 0 <= i < |init| ensures Committed(init[i].message) !in Run(init[..i], config).log {
      assert init[..i] == ds[..i];
    }
  }

  /** The message went to the dead-letter topic, and the process died before the commit. */
  predicate TornBurial(p: seq<Effect>, m: Message)
  {
    DeadLetter(m) in p && Committed(m) !in p
  }

  predicate Buried(p: seq<Effect>, m: Message)
  {
    DeadLetter(m) in p && Committed(m) in p
  }

  /** How many deliveries of a run ended in each of these ways. */
  function TornBurials(ds: seq<Delivery>, m: Message, config: Config): nat
  {
    if ds == [] then 0
    else
      var init := ds[..|ds| - 1];
      TornBurials(init, m, config) + One(TornBurial(Performed(Run(init, config), ds[|ds| - 1], config), m))
  }

  function Burials(ds: seq<Delivery>, m: Message, config: Config): nat
  {
    if ds == [] then 0
    else
      var init := ds[..|ds| - 1];
      Burials(init, m, config) + One(Buried(Performed(Run(init, config), ds[|ds| - 1], config), m))
  }

  lemma EffectsOf(p: seq<Effect>, m: Message, other: Message)
    requires Settled(p, m)
    ensures multiset(p)[DeadLetter(other)] == One(TornBurial(p, other)) + One(Buried(p, other))
    ensures multiset(p)[Committed(other)] == One(Committed(other) in p)
    ensures Committed(other) in p || DeadLetter(other) in p ==> other == m
  {
    OnceEach(p, DeadLetter(other));
    OnceEach(p, Committed(other));
  }

  lemma {:induction false} BurialCounts(ds: seq<Delivery>, m: Message, config: Config)
    requires UntilCommitted(ds, config)
    ensures var log := Run(ds, config).log;
            multiset(log)[DeadLetter(m)] == TornBurials(ds, m, config) + Burials(ds, m, config) &&
            Burials(ds, m, config) <= multiset(log)[Committed(m)] <= 1
  {
    if ds != [] {
      var init, d := ds[..|ds| - 1], ds[|ds| - 1];
      var s := Run(init, config);
      UntilCommittedInit(ds, config);
      BurialCounts(init, m, config);
      LogGrows(s, d, config);
      DispositionExact(s, d, config);
      EffectsOf(Performed(s, d, config), d.message, m);
      var p := Performed(s, d, config);
      assert multiset(s.log + p)[DeadLetter(m)] == multiset(s.log)[DeadLetter(m)] + multiset(p)[DeadLetter(m)];
      assert multiset(s.log + p)[Committed(m)] == multiset(s.log)[Committed(m)] + multiset(p)[Committed(m)];
      if Committed(m) in p {
        assert multiset(s.log)[Committed(m)] == 0;
      }
    }
  }

  /**
   Under redelivery until the commit, a message is dead-lettered once for every crash between
   its dead letter and its commit, and once more exactly when a dead letter is what it was
   acknowledged for. Without such crashes that is at most once.
   */
  lemma DeadLettersExact(ds: seq<Delivery>, m: Message, config: Config)
    requires UntilCommitted(ds, config)
    ensures var letters, torn := multiset(Run(ds, config).log)[DeadLetter(m)], TornBurials(ds, m, config);
            letters == torn + One(BuriedIn(ds, m, config))
  {
    BurialCounts(ds, m, config);
    SomeBurial(ds, m, config);
  }

  /** Some delivery of the run dead-letters the message and is acknowledged for it. */
  ghost predicate BuriedIn(ds: seq<Delivery>, m: Message, config: Config)
  {
    exists i :: 0 <= i < |ds| && Buried(Performed(Run(ds[..i], config), ds[i], config), m)
  }

  lemma BuriedInAppend(init: seq<Delivery>, d: Delivery, m: Message, config: Config)
    ensures BuriedIn(init + [d], m, config) <==>
            BuriedIn(init, m, config) || Buried(Performed(Run(init, config), d, config), m)
  {
    var ds, n := init + [d], |init|;
    forall i | 0 <= i <= n ensures ds[..i] == init[..i] {}
    assert ds[..n] == init;
    if BuriedIn(init, m, config) {
      var i :| 0 <= i < n && Buried(Performed(Run(init[..i], config), init[i], config), m);
      assert Buried(Performed(Run(ds[..i], config), ds[i], config), m);
    }
    if Buried(Performed(Run(init, config), d, config), m) {
      assert Buried(Performed(Run(ds[..n], config), ds[n], config), m);
    }
    if BuriedIn(ds, m, config) {
      var i :| 0 <= i < n + 1 && Buried(Performed(Run(ds[..i], config), ds[i], config), m);
      assert i < n ==> Buried(Performed(Run(init[..i], config), init[i], config), m);
    }
  }

  lemma {:induction false} SomeBurial(ds: seq<Delivery>, m: Message, config: Config)
    ensures Burials(ds, m, config) > 0 <==> BuriedIn(ds, m, config)
  {
    if ds != [] {
      var n := |ds| - 1;
      SomeBurial(ds[..n], m, config);
      BuriedInAppend(ds[..n], ds[n], m, config);
      assert ds[..n] + [ds[n]] == ds;
    }
  }

  /** The crash matters: a message without a handler is dead-lettered again when it comes back. */
  lemma TornBurialRepeats(s: State, d: Delivery, again: Delivery, config: Config)
    requires !d.message.wellFormed || (d.message.eventType !in config.handlers && !config.ignoreMissing)
    requires d.deadLetterUp && d.lifetime == 1
    requires again.message == d.message && again.deadLetterUp && again.lifetime >= 1
    ensures TornBurial(Performed(s, d, config), d.message)
    ensures multiset(Consume(Consume(s, d, config), again, config).log)[DeadLetter(d.message)]
            == multiset(s.log)[DeadLetter(d.message)] + 2
  {
    var s1 := Consume(s, d, config);
    var letter: seq<Effect> := [DeadLetter(d.message)];
    LogGrows(s, d, config);
    LogGrows(s1, again, config);
    assert Performed(s, d, config) == letter;
    assert Performed(s1, again, config) == if again.lifetime == 1 then letter else letter + [Committed(d.message)];
    assert multiset(s.log + letter)[DeadLetter(d.message)] == multiset(s.log)[DeadLetter(d.message)] + 1;
  }

  // ---------------------------------------------------------------- lost events

  /** What the last word of a log on a key makes of its record. */
  function RecordOf(log: seq<Effect>, key: Key): Option<Record>
  {
    if log == [] then None
    else
      var e := log[|log| - 1];
      if e.Began? && e.key == key then Some(Record(Processing, e.at))
      else if e.MarkedProcessed? && e.key == key then Some(Record(Processed, e.at))
      else if e.MarkedFailed? && e.key == key then Some(Record(Failed, e.at))
      else RecordOf(log[..|log| - 1], key)
  }

  /** The records are what the log says, and none says processed without a success. */
  ghost predicate Told(s: State)
  {
    forall key :: RecordOf(s.log, key) == if key in s.records then Some(s.records[key]) else None
  }

  lemma PerformTold(s: State, e: Effect)
    requires Told(s)
    ensures Told(Perform(s, e))
  {
    assert (s.log + [e])[..|s.log|] == s.log;
    forall key
      ensures RecordOf(s.log + [e], key) ==
              if key in Perform(s, e).records then Some(Perform(s, e).records[key]) else None
    {
      assert RecordOf(s.log, key) == if key in s.records then Some(s.records[key]) else None;
    }
  }

  lemma {:induction false} PlayTold(s: State, script: seq<Effect>, n: nat)
    requires Told(s)
    ensures Told(Play(s, script, n))
    decreases |script|
  {
    if script != [] && n > 0 {
      PerformTold(s, script[0]);
      PlayTold(Perform(s, script[0]), script[1..], n - 1);
    }
  }

  ghost predicate Founded(s: State)
  {
    forall key :: IsProcessed(s, key) ==> Succeeded(key) in s.log
  }

  lemma StepFounded(s: State, d: Delivery, config: Config)
    requires Founded(s)
    ensures Founded(Consume(s, d, config))
  {
    var s' := Consume(s, d, config);
    forall key | IsProcessed(s', key)
      ensures Succeeded(key) in s'.log
    {
      DeliveryOn(s, d, config, key);
      assert IsProcessed(s, key) ==> Succeeded(key) in s.log;
      assert Successes(s'.log, key) > 0;
    }
  }

  lemma {:induction false} RunToldAndFounded(ds: seq<Delivery>, config: Config)
    ensures Told(Run(ds, config)) && Founded(Run(ds, config))
  {
    if ds != [] {
      var s, d := Run(ds[..|ds| - 1], config), ds[|ds| - 1];
      RunToldAndFounded(ds[..|ds| - 1], config);
      PlayTold(s, Script(s.records, d, config), d.lifetime);
      StepFounded(s, d, config);
    }
  }

  /** The last attempt on the key began, has not been marked, and is less than the stale time old. */
  predicate InProgress(log: seq<Effect>, key: Key, now: int, staleMs: int)
  {
    var last := RecordOf(log, key);
    last.Some? && last.value.status == Processing && now - last.value.updatedAt < staleMs
  }

  /** Acknowledged, although never handled and never dead-lettered. */
  predicate Lost(log: seq<Effect>, m: Message, key: Key)
  {
    Committed(m) in log && Succeeded(key) !in log && DeadLetter(m) !in log
  }

  /**
   An event is lost by a delivery exactly when it comes within the stale time of an attempt
   that began and was never marked, and nothing came of it before: then the redelivery is
   taken for a duplicate and committed.
   */
  lemma LostIff(ds: seq<Delivery>, d: Delivery, config: Config)
    requires Routed(d.message, config) && Committed(d.message) !in Run(ds, config).log
    ensures var key, log := KeyOf(d.message, config), Run(ds, config).log;
            Lost(Consume(Run(ds, config), d, config).log, d.message, key) <==>
            d.beginUp && d.lifetime >= 1 && InProgress(log, key, d.at, config.staleMs) &&
            Succeeded(key) !in log && DeadLetter(d.message) !in log
  {
    var s, key, m := Run(ds, config), KeyOf(d.message, config), d.message;
    RunToldAndFounded(ds, config);
    assert RecordOf(s.log, key) == if key in s.records then Some(s.records[key]) else None;
    var p := Performed(s, d, config);
    LogGrows(s, d, config);
    if d.beginUp && Decide(s.records, key, d.at, config.staleMs) != Go {
      assert Script(s.records, d, config) == [Committed(m)];
      SkipEffects(m, d.lifetime, key);
    } else {
      NotLost(s, d, config);
    }
  }

  lemma SkipEffects(m: Message, n: nat, key: Key)
    ensures var p := Take([Committed(m)], n);
            (Committed(m) in p <==> n >= 1) && Succeeded(key) !in p && DeadLetter(m) !in p
  {
  }

  lemma NotLost(s: State, d: Delivery, config: Config)
    requires Routed(d.message, config)
    requires !d.beginUp || Decide(s.records, KeyOf(d.message, config), d.at, config.staleMs) == Go
    ensures var p := Performed(s, d, config);
            Committed(d.message) in p ==> Succeeded(KeyOf(d.message, config)) in p || DeadLetter(d.message) in p
  {
    var p, key := Performed(s, d, config), KeyOf(d.message, config);
    DispositionExact(s, d, config);
    if Committed(d.message) in p && DeadLetter(d.message) !in p {
      if d.beginUp {
        var script := [Began(key, d.at)] + Handling(key, d);
        assert Script(s.records, d, config) == script;
        assert p[0] == script[0];
        assert d.lifetime >= |script|;
        assert d.result == Returns && d.processedUp;
        assert p[1] == Succeeded(key);
      }
    }
  }

  /** No delivery comes within the stale time of an attempt that is not marked. */
  ghost predicate Spaced(ds: seq<Delivery>, config: Config)
  {
    forall i :: 0 <= i < |ds| && Routed(ds[i].message, config) ==>
      !InProgress(Run(ds[..i], config).log, KeyOf(ds[i].message, config), ds[i].at, config.staleMs)
  }

  /** With redeliveries spaced like that no event is ever lost, whatever crashes and failures there are. */
  lemma {:induction false} NothingLost(ds: seq<Delivery>, config: Config, m: Message)
    requires UntilCommitted(ds, config) && Spaced(ds, config) && Routed(m, config)
    ensures !Lost(Run(ds, config).log, m, KeyOf(m, config))
  {
    if ds != [] {
      var n := |ds| - 1;
      var init, d := ds[..n], ds[n];
      forall i | 0 <= i < n ensures init[..i] == ds[..i] {}
      UntilCommittedInit(ds, config);
      NothingLost(init, config, m);
      assert Routed(ds[n].message, config) ==>
          !InProgress(Run(ds[..n], config).log, KeyOf(ds[n].message, config), ds[n].at, config.staleMs);
      LogGrows(Run(init, config), d, config);
      if m == d.message {
        LostIff(init, d, config);
      } else {
        DispositionExact(Run(init, config), d, config);
        EffectsOf(Performed(Run(init, config), d, config), d.message, m);
      }
    }
  }
}
