/**
 The gateway's lease-based idempotency records
 (apps/gateway/src/services/idempotency.service.js) and the middleware that turns them into
 execute, replay, conflict or wait (apps/gateway/src/middleware/idempotency.middleware.js).

 A request body is represented by its JSON text, and the hash of a text by the text itself.
 */
module GatewayIdempotency {
  import opened Options

  /** The uniquely indexed fields. */
  datatype Scope = Scope(key: string, verb: string, route: string, actorId: string)

  datatype Status = Processing | Completed | Failed

  datatype Response = Response(status: int, body: string)

  datatype Record = Record(
    scope: Scope,
    requestHash: string,
    status: Status,
    lockedUntil: int,
    expiresAt: int,
    response: Response)

  datatype Request = Request(scope: Scope, body: string)

  datatype Config = Config(lockMs: nat, ttlMs: nat)

  /** The collection: records by their document id, and the next fresh id. */
  datatype Store = Store(records: map<nat, Record>, nextId: nat)

  datatype BeginState = Created | Conflict | AlreadyDone | InProgress

  datatype Begun = Begun(state: BeginState, id: nat)

  const NO_RESPONSE := Response(0, "null")

  function HashRequest(body: string): string { body }

  // ---------------------------------------------------------------- the record operations

  /** The unique index: no two records share a scope. */
  ghost predicate UniqueScopes(records: map<nat, Record>)
  {
    forall a, b :: a in records && b in records && records[a].scope == records[b].scope ==> a == b
  }

  ghost function FindOne(records: map<nat, Record>, scope: Scope): (r: Option<nat>)
    ensures r.Some? ==> r.value in records && records[r.value].scope == scope
    ensures r.None? ==> forall id :: id in records ==> records[id].scope != scope
  {
    if id :| id in records && records[id].scope == scope then Some(id) else None
  }

  function FreshRecord(r: Request, now: int, config: Config): Record
  {
    Record(r.scope, HashRequest(r.body), Processing, now + config.lockMs, now + config.ttlMs, NO_RESPONSE)
  }

  /** What beginRecord answers about an existing record. */
  function StateOf(existing: Record, r: Request, now: int): BeginState
  {
    if existing.requestHash != HashRequest(r.body) then Conflict
    else if existing.status == Completed then AlreadyDone
    else if existing.status == Processing && existing.lockedUntil > now then InProgress
    else Created
  }

  /** A takeover renews the lock, and nothing else: not the expiry. */
  function TakenOver(existing: Record, now: int, config: Config): Record
  {
    existing.(status := Processing, lockedUntil := now + config.lockMs)
  }

  ghost function Begin(store: Store, r: Request, now: int, config: Config): (Store, Begun)
  {
    match FindOne(store.records, r.scope)
    case None =>
      (Store(store.records[store.nextId := FreshRecord(r, now, config)], store.nextId + 1),
       Begun(Created, store.nextId))
    case Some(id) =>
      var existing := store.records[id];
      var state := StateOf(existing, r, now);
      (if state == Created then store.(records := store.records[id := TakenOver(existing, now, config)]) else store,
       Begun(state, id))
  }

  /** completeRecord and failRecord: unconditional updates by id, without effect if it is gone. */
  function Complete(store: Store, id: nat, response: Response): Store
  {
    if id in store.records
    then store.(records := store.records[id := store.records[id].(status := Completed, response := response)])
    else store
  }

  function Fail(store: Store, id: nat): Store
  {
    if id in store.records then store.(records := store.records[id := store.records[id].(status := Failed)]) else store
  }

  class IdempotencyRecords {
    var records: map<nat, Record>
    var nextId: nat
    const config: Config

    ghost function Contents(): Store
      reads this
    {
      Store(records, nextId)
    }

    constructor (config: Config)
      ensures Contents() == Store(map[], 0) && this.config == config
    {
      records, nextId := map[], 0;
      this.config := config;
    }

    /** Insert, or meet the unique index and look at the record that is there. */
    method BeginRecord(r: Request, now: int) returns (begun: Begun)
      requires UniqueScopes(records)
      modifies this
      ensures (Contents(), begun) == Begin(old(Contents()), r, now, config)
    {
      var lockedUntil, expiresAt := now + config.lockMs, now + config.ttlMs;
      if !(exists id :: id in records && records[id].scope == r.scope) {
        var id := nextId;
        records := records[id := Record(r.scope, HashRequest(r.body), Processing, lockedUntil, expiresAt, NO_RESPONSE)];
        nextId := nextId + 1;
        return Begun(Created, id);
      }
      var id :| id in records && records[id].scope == r.scope;
      assert FindOne(records, r.scope) == Some(id);
      var existing := records[id];
      if existing.requestHash != HashRequest(r.body) {
        return Begun(Conflict, id);
      }
      if existing.status == Completed {
        return Begun(AlreadyDone, id);
      }
      if existing.status == Processing && existing.lockedUntil > now {
        return Begun(InProgress, id);
      }
      records := records[id := existing.(status := Processing, lockedUntil := lockedUntil)];
      return Begun(Created, id);
    }

    method CompleteRecord(id: nat, status: int, body: string)
      modifies this
      ensures Contents() == Complete(old(Contents()), id, Response(status, body))
    {
      if id in records {
        records := records[id := records[id].(status := Completed, response := Response(status, body))];
      }
    }

    method FailRecord(id: nat)
      modifies this
      ensures Contents() == Fail(old(Contents()), id)
    {
      if id in records {
        records := records[id := records[id].(status := Failed)];
      }
    }
  }

  // ---------------------------------------------------------------- the middleware as a machine

  /** A handler at work: its record, its scope, and the end of the lease it was started with. */
  datatype Lease = Lease(id: nat, scope: Scope, until: int)

  /** What can be observed: executions started, their successes, and the other answers given. */
  datatype Observation =
    | Executed(id: nat, requestHash: string)
    | Succeeded(id: nat, response: Response)
    | ServerError(id: nat)
    | ReplayedResponse(id: nat, response: Response)
    | ConflictReported(id: nat)
    | ToldToWait(id: nat)

  datatype Gateway = Gateway(store: Store, now: int, running: map<nat, Lease>, nextHandler: nat, log: seq<Observation>)

  datatype Action =
    | Arrive(request: Request)
    | Finish(handler: nat, response: Response)
    | LoseWrite(handler: nat, response: Response)
    | Vanish(handler: nat)
    | Tick(time: int)
    | Expire(id: nat)

  const INITIAL := Gateway(Store(map[], 0), 0, map[], 0, [])

  /** A request with a key: begin its record, then answer or start the handler. */
  ghost function OnArrive(g: Gateway, r: Request, config: Config): Gateway
  {
    var (store, begun) := Begin(g.store, r, g.now, config);
    match begun.state
    case Created =>
      g.(store := store,
         running := g.running[g.nextHandler := Lease(begun.id, r.scope, g.now + config.lockMs)],
         nextHandler := g.nextHandler + 1,
         log := g.log + [Executed(begun.id, HashRequest(r.body))])
    case AlreadyDone =>
      if begun.id in g.store.records then
        g.(log := g.log + [ReplayedResponse(begun.id, g.store.records[begun.id].response)])
      else g
    case Conflict => g.(log := g.log + [ConflictReported(begun.id)])
    case InProgress => g.(log := g.log + [ToldToWait(begun.id)])
  }

  /** The finish listener of a running handler. */
  function OnFinish(g: Gateway, handler: nat, response: Response): Gateway
  {
    if handler !in g.running then g
    else
      var id, running := g.running[handler].id, g.running - {handler};
      if response.status >= 500 then
        g.(store := Fail(g.store, id), running := running, log := g.log + [ServerError(id)])
      else
        g.(store := Complete(g.store, id, response), running := running, log := g.log + [Succeeded(id, response)])
  }

  /** The finish listener when its write fails: the response is out, the record stays as it is. */
  function OnLostWrite(g: Gateway, handler: nat, response: Response): Gateway
  {
    if handler !in g.running then g
    else
      var id := g.running[handler].id;
      g.(running := g.running - {handler},
         log := g.log + [if response.status >= 500 then ServerError(id) else Succeeded(id, response)])
  }

  /**
   One atomic step: a request, the end of a handler with or without its final write, a
   handler that dies before it responds, the clock, or the removal of an expired record by
   the TTL index.
   */
  ghost function Next(g: Gateway, a: Action, config: Config): Gateway
  {
    match a
    case Arrive(request) => OnArrive(g, request, config)
    case Finish(handler, response) => OnFinish(g, handler, response)
    case LoseWrite(handler, response) => OnLostWrite(g, handler, response)
    case Vanish(handler) => g.(running := g.running - {handler})
    case Tick(time) => if time >= g.now then g.(now := time) else g
    case Expire(id) =>
      if id in g.store.records && g.store.records[id].expiresAt <= g.now
      then g.(store := g.store.(records := g.store.records - {id})) else g
  }

  ghost function Run(g: Gateway, actions: seq<Action>, config: Config): Gateway
  {
    if actions == [] then g else Next(Run(g, actions[..|actions| - 1], config), actions[|actions| - 1], config)
  }

  /** No handler has outlived its lease. */
  ghost predicate Timely(g: Gateway)
  {
    forall h :: h in g.running ==> g.now < g.running[h].until
  }

  /** Every handler finished, or vanished, before its lease ended, throughout the run. */
  ghost predicate TimelyRun(g: Gateway, actions: seq<Action>, config: Config)
  {
    forall i :: 0 <= i <= |actions| ==> Timely(Run(g, actions[..i], config))
  }

  /** The step tears a success from its record: the client has it, the stored record does not. */
  predicate Torn(g: Gateway, a: Action)
  {
    a.LoseWrite? && a.handler in g.running && a.response.status < 500 && g.running[a.handler].id in g.store.records
  }

  /** No success was torn from its record throughout the run. */
  ghost predicate UntornRun(g: Gateway, actions: seq<Action>, config: Config)
  {
    forall i :: 0 <= i < |actions| ==> !Torn(Run(g, actions[..i], config), actions[i])
  }

  // ---------------------------------------------------------------- the invariant

  /** A lease in force is the lock of its record; and a record has one handler at most. */
  ghost predicate LeasesHold(g: Gateway)
  {
    (forall h :: h in g.running ==>
      h < g.nextHandler && g.running[h].id < g.store.nextId &&
      (g.running[h].id in g.store.records ==>
        var record := g.store.records[g.running[h].id];
        record.status == Processing && record.lockedUntil == g.running[h].until &&
          record.scope == g.running[h].scope)) &&
    forall h, h' :: h in g.running && h' in g.running && g.running[h].id == g.running[h'].id ==> h == h'
  }

  ghost predicate IdsFresh(store: Store)
  {
    UniqueScopes(store.records) && forall id :: id in store.records ==> id < store.nextId
  }

  /** What every timely run keeps, torn successes or not. */
  ghost predicate Tidy(g: Gateway)
  {
    IdsFresh(g.store) && LeasesHold(g)
  }

  lemma StepKeepsTidy(g: Gateway, a: Action, config: Config)
    requires Tidy(g) && Timely(g)
    ensures Tidy(Next(g, a, config))
  {
    match a
    case Arrive(request) => ArriveKeepsTidy(g, request, config);
    case Finish(handler, response) =>
    case LoseWrite(handler, response) =>
    case Vanish(handler) =>
    case Tick(time) =>
    case Expire(id) =>
  }

  lemma ArriveKeepsTidy(g: Gateway, r: Request, config: Config)
    requires Tidy(g) && Timely(g)
    ensures Tidy(OnArrive(g, r, config))
  {
    match FindOne(g.store.records, r.scope)
    case None =>
    case Some(id) =>
      if StateOf(g.store.records[id], r, g.now) == Created {
        TakeoverKeepsTidy(g, r, config, id);
      }
  }

  lemma TakeoverKeepsTidy(g: Gateway, r: Request, config: Config, id: nat)
    requires Tidy(g) && Timely(g) && FindOne(g.store.records, r.scope) == Some(id)
    requires StateOf(g.store.records[id], r, g.now) == Created
    ensures Tidy(OnArrive(g, r, config))
  {
    forall h | h in g.running ensures g.running[h].id != id { TakeoverFindsNoHandler(g, id, h); }
  }

  /** Under timely handlers a record that can be taken over has none. */
  lemma TakeoverFindsNoHandler(g: Gateway, id: nat, h: nat)
    requires LeasesHold(g) && Timely(g) && h in g.running
    requires id in g.store.records
    requires g.store.records[id].status != Processing || g.store.records[id].lockedUntil <= g.now
    ensures g.running[h].id != id
  {
  }

  lemma {:induction false} TimelyRunsKeepTidy(g: Gateway, actions: seq<Action>, config: Config)
    requires Tidy(g) && TimelyRun(g, actions, config)
    ensures Tidy(Run(g, actions, config))
  {
    if actions != [] {
      var n := |actions| - 1;
      var init := actions[..n];
      forall i | 0 <= i <= n ensures Timely(Run(g, init[..i], config)) {
        assert init[..i] == actions[..i];
      }
      TimelyRunsKeepTidy(g, init, config);
      assert Timely(Run(g, actions[..n], config));
      StepKeepsTidy(Run(g, init, config), actions[n], config);
    }
  }

  // ---------------------------------------------------------------- the life of a record

  /** The request a record was executed for, and the response it settled on. */
  datatype Life = Life(hash: Option<string>, success: Option<Response>) | Illegal

  /**
   What may be observed of a record: executions for one request only and none after a
   success, one success, and replays of exactly that success.
   */
  function Advance(life: Life, o: Observation): Life
  {
    match life
    case Illegal => Illegal
    case Life(hash, success) =>
      match o
      case Executed(_, h) => if hash in {None, Some(h)} && success.None? then Life(Some(h), success) else Illegal
      case Succeeded(_, response) => if hash.Some? && success.None? then Life(hash, Some(response)) else Illegal
      case ServerError(_) => if success.None? then life else Illegal
      case ReplayedResponse(_, response) => if success == Some(response) then life else Illegal
      case ConflictReported(_) => life
      case ToldToWait(_) => if success.None? then life else Illegal
  }

  /** The life of record `id` according to a log. */
  function LifeOf(log: seq<Observation>, id: nat): Life
  {
    if log == [] then Life(None, None)
    else
      var before, o := LifeOf(log[..|log| - 1], id), log[|log| - 1];
      if o.id == id then Advance(before, o) else before
  }

  lemma LifeAppend(log: seq<Observation>, o: Observation, id: nat)
    ensures LifeOf(log + [o], id) == if o.id == id then Advance(LifeOf(log, id), o) else LifeOf(log, id)
  {
    assert (log + [o])[..|log|] == log;
  }

  /** What a legal life says about the log, in plain terms. */
  lemma {:induction false} LegalLifeMeans(log: seq<Observation>, id: nat)
    requires LifeOf(log, id) != Illegal
    ensures forall j :: 0 <= j < |log| && log[j].Succeeded? && log[j].id == id ==>
              LifeOf(log, id).success == Some(log[j].response)
    ensures forall j :: 0 <= j < |log| && log[j].ReplayedResponse? && log[j].id == id ==>
              LifeOf(log, id).success == Some(log[j].response)
    ensures forall j :: 0 <= j < |log| && log[j].Executed? && log[j].id == id ==>
              LifeOf(log, id).hash == Some(log[j].requestHash)
    ensures forall i, j :: 0 <= i < j < |log| && log[i].Succeeded? && log[i].id == id && log[j].id == id ==>
              log[j].ReplayedResponse? || log[j].ConflictReported?
  {
    if log != [] {
      var n := |log| - 1;
      assert forall i :: 0 <= i < n ==> log[..n][i] == log[i];
      LegalLifeMeans(log[..n], id);
    }
  }

  /** A record is what its life in the log says; handlers work on records that have not succeeded. */
  ghost predicate IdSound(g: Gateway, id: nat)
  {
    var life := LifeOf(g.log, id);
    life != Illegal &&
    (id in g.store.records ==>
      var record := g.store.records[id];
      life == Life(Some(record.requestHash), if record.status == Completed then Some(record.response) else None)) &&
    (id >= g.store.nextId ==> life == Life(None, None)) &&
    (forall h :: h in g.running && g.running[h].id == id ==> life.hash.Some? && life.success.None?)
  }

  ghost predicate Inv(g: Gateway)
  {
    Tidy(g) && forall id :: IdSound(g, id)
  }

  // ---------------------------------------------------------------- preservation

  /** An answer that starts and settles nothing. */
  lemma AnswerKeepsInv(g: Gateway, o: Observation)
    requires Inv(g)
    requires Advance(LifeOf(g.log, o.id), o) == LifeOf(g.log, o.id)
    ensures Inv(g.(log := g.log + [o]))
  {
    forall id
      ensures IdSound(g.(log := g.log + [o]), id)
    {
      assert IdSound(g, id);
      LifeAppend(g.log, o, id);
    }
  }

  /** A handler started on a fresh record. */
  lemma InsertKeepsInv(g: Gateway, r: Request, config: Config)
    requires Inv(g) && FindOne(g.store.records, r.scope).None?
    ensures Inv(OnArrive(g, r, config))
  {
    var id, g', o := g.store.nextId, OnArrive(g, r, config), Executed(g.store.nextId, HashRequest(r.body));
    assert IdSound(g, id);
    forall other
      ensures IdSound(g', other)
    {
      assert IdSound(g, other);
      LifeAppend(g.log, o, other);
    }
  }

  /** A handler started on a record taken over. */
  lemma TakeoverKeepsInv(g: Gateway, r: Request, config: Config, id: nat)
    requires Inv(g) && Timely(g) && FindOne(g.store.records, r.scope) == Some(id)
    requires StateOf(g.store.records[id], r, g.now) == Created
    ensures Inv(OnArrive(g, r, config))
  {
    var g', o := OnArrive(g, r, config), Executed(id, HashRequest(r.body));
    TakeoverKeepsTidy(g, r, config, id);
    forall h | h in g.running ensures g.running[h].id != id { TakeoverFindsNoHandler(g, id, h); }
    forall other
      ensures IdSound(g', other)
    {
      assert IdSound(g, other);
      LifeAppend(g.log, o, other);
    }
  }

  lemma ArriveKeepsInv(g: Gateway, r: Request, config: Config)
    requires Inv(g) && Timely(g)
    ensures Inv(OnArrive(g, r, config))
  {
    match FindOne(g.store.records, r.scope)
    case None =>
      InsertKeepsInv(g, r, config);
    case Some(id) =>
      var existing := g.store.records[id];
      assert IdSound(g, id);
      match StateOf(existing, r, g.now)
      case Created => TakeoverKeepsInv(g, r, config, id);
      case AlreadyDone => AnswerKeepsInv(g, ReplayedResponse(id, existing.response));
      case Conflict => AnswerKeepsInv(g, ConflictReported(id));
      case InProgress => AnswerKeepsInv(g, ToldToWait(id));
  }

  lemma FinishKeepsInv(g: Gateway, handler: nat, response: Response)
    requires Inv(g) && handler in g.running
    ensures Inv(OnFinish(g, handler, response))
  {
    var id, g' := g.running[handler].id, OnFinish(g, handler, response);
    var o := g'.log[|g.log|];
    assert g'.log == g.log + [o];
    assert LeasesHold(g');
    forall other
      ensures IdSound(g', other)
    {
      assert IdSound(g, other);
      LifeAppend(g.log, o, other);
    }
  }

  /** A lost write settles nothing in the store, so the life in the log must not need it to. */
  lemma LoseWriteKeepsInv(g: Gateway, handler: nat, response: Response)
    requires Inv(g) && handler in g.running && !Torn(g, LoseWrite(handler, response))
    ensures Inv(OnLostWrite(g, handler, response))
  {
    var id, g' := g.running[handler].id, OnLostWrite(g, handler, response);
    var o := g'.log[|g.log|];
    assert g'.log == g.log + [o];
    forall other
      ensures IdSound(g', other)
    {
      assert IdSound(g, other);
      LifeAppend(g.log, o, other);
    }
  }

  /** A torn success leaves a record that does not know of it. */
  lemma TornBreaksInv(g: Gateway, handler: nat, response: Response)
    requires Inv(g) && Torn(g, LoseWrite(handler, response))
    ensures !Inv(OnLostWrite(g, handler, response))
  {
    var id, g' := g.running[handler].id, OnLostWrite(g, handler, response);
    assert IdSound(g, id);
    LifeAppend(g.log, Succeeded(id, response), id);
    assert !IdSound(g', id);
  }

  lemma VanishKeepsInv(g: Gateway, handler: nat)
    requires Inv(g)
    ensures Inv(g.(running := g.running - {handler}))
  {
    forall id ensures IdSound(g.(running := g.running - {handler}), id) { assert IdSound(g, id); }
  }

  lemma ExpireKeepsInv(g: Gateway, id: nat)
    requires Inv(g)
    ensures Inv(g.(store := g.store.(records := g.store.records - {id})))
  {
    var g' := g.(store := g.store.(records := g.store.records - {id}));
    forall other ensures IdSound(g', other) { assert IdSound(g, other); }
  }

  lemma TickKeepsInv(g: Gateway, time: int)
    requires Inv(g)
    ensures Inv(g.(now := time))
  {
    forall id ensures IdSound(g.(now := time), id) { assert IdSound(g, id); }
  }

  /** Among the steps of timely handlers it is exactly the torn successes that break it. */
  lemma StepKeepsInvIff(g: Gateway, a: Action, config: Config)
    requires Inv(g) && Timely(g)
    ensures Inv(Next(g, a, config)) <==> !Torn(g, a)
  {
    match a
    case Arrive(request) => ArriveKeepsInv(g, request, config);
    case Finish(handler, response) =>
      if handler in g.running {
        FinishKeepsInv(g, handler, response);
      }
    case LoseWrite(handler, response) =>
      if Torn(g, a) {
        TornBreaksInv(g, handler, response);
      } else if handler in g.running {
        LoseWriteKeepsInv(g, handler, response);
      }
    case Vanish(handler) => VanishKeepsInv(g, handler);
    case Tick(time) => TickKeepsInv(g, time);
    case Expire(id) => ExpireKeepsInv(g, id);
  }

  lemma {:induction false} TimelyRunsKeepInv(g: Gateway, actions: seq<Action>, config: Config)
    requires Inv(g) && TimelyRun(g, actions, config) && UntornRun(g, actions, config)
    ensures Inv(Run(g, actions, config))
  {
    if actions != [] {
      var n := |actions| - 1;
      var init := actions[..n];
      forall i | 0 <= i <= n ensures Timely(Run(g, init[..i], config)) {
        assert init[..i] == actions[..i];
      }
      forall i | 0 <= i < n ensures !Torn(Run(g, init[..i], config), init[i]) {
        assert init[..i] == actions[..i];
      }
      TimelyRunsKeepInv(g, init, config);
      assert Timely(Run(g, actions[..n], config)) && !Torn(Run(g, actions[..n], config), actions[n]);
      StepKeepsInvIff(Run(g, init, config), actions[n], config);
    }
  }

  lemma InitialInv()
    ensures Inv(INITIAL)
  {
    forall id ensures IdSound(INITIAL, id) {}
  }

  // ---------------------------------------------------------------- exactly once

  /** One handler at most, a legal life, and a record that tells it. */
  ghost predicate ServedOnce(g: Gateway, id: nat)
  {
    var life := LifeOf(g.log, id);
    life != Illegal &&
    (forall h, h' ::
      h in g.running && h' in g.running && g.running[h].id == id && g.running[h'].id == id ==> h == h') &&
    (id in g.store.records ==>
      var record := g.store.records[id];
      life.success == (if record.status == Completed then Some(record.response) else None) &&
      life.hash == Some(record.requestHash))
  }

  /**
   In every state reached by timely handlers without a torn success, a record has one
   running handler at most, and the log of every record id is a legal life: executed for one
   request, succeeding at most once, never executed again after that, and replayed with
   exactly that response. A stored record is completed exactly when its id has succeeded,
   and holds that response.
   */
  lemma {:induction false} ExactlyOnce(actions: seq<Action>, config: Config, id: nat)
    requires TimelyRun(INITIAL, actions, config) && UntornRun(INITIAL, actions, config)
    ensures ServedOnce(Run(INITIAL, actions, config), id)
  {
    InitialInv();
    TimelyRunsKeepInv(INITIAL, actions, config);
    assert IdSound(Run(INITIAL, actions, config), id);
  }

  /**
   The condition is needed in every state: once a success is torn from its stored record, a
   matching request at the end of the lease is executed although the first one was answered,
   and its success is a second one. The handlers stay timely, unless others were late.
   */
  lemma TornSuccessRepeats(g: Gateway, r: Request, config: Config, h: nat, first: Response, second: Response)
    requires Inv(g) && Timely(g) && Torn(g, LoseWrite(h, first)) && second.status < 500
    requires r.scope == g.running[h].scope
    requires HashRequest(r.body) == g.store.records[g.running[h].id].requestHash
    ensures var id := g.running[h].id;
            var g1 := Next(g, LoseWrite(h, first), config);
            var g2 := Next(g1, Tick(g.running[h].until), config);
            var g3 := Next(g2, Arrive(r), config);
            var g4 := Next(g3, Finish(g.nextHandler, second), config);
            g4.log == g.log + [Succeeded(id, first), Executed(id, HashRequest(r.body)), Succeeded(id, second)] &&
            LifeOf(g4.log, id) == Illegal &&
            (config.lockMs > 0 && (forall o :: o in g.running && o != h ==> g.running[h].until < g.running[o].until) ==>
              Timely(g1) && Timely(g2) && Timely(g3) && Timely(g4))
  {
    var id := g.running[h].id;
    var g1 := Next(g, LoseWrite(h, first), config);
    var g2 := Next(g1, Tick(g.running[h].until), config);
    var g3 := Next(g2, Arrive(r), config);
    var g4 := Next(g3, Finish(g.nextHandler, second), config);
    assert FindOne(g2.store.records, r.scope) == Some(id);
    assert IdSound(g, id);
    LifeAppend(g.log, Succeeded(id, first), id);
    LifeAppend(g1.log, Executed(id, HashRequest(r.body)), id);
    LifeAppend(g3.log, Succeeded(id, second), id);
    assert g4.log == g3.log + [Succeeded(id, second)];
  }

  /** A completed record stays as it is, to the last field, until the TTL index removes it. */
  lemma CompletedStays(g: Gateway, a: Action, config: Config, id: nat)
    requires Tidy(g) && Timely(g) && id in g.store.records && g.store.records[id].status == Completed
    ensures var records := Next(g, a, config).store.records;
            if id in records then records[id] == g.store.records[id]
            else a == Expire(id) && g.store.records[id].expiresAt <= g.now
  {
  }

  /** The scope, the hash and the expiry of a record never change. */
  lemma IdentityStays(g: Gateway, a: Action, config: Config, id: nat)
    requires Tidy(g) && id in g.store.records && id in Next(g, a, config).store.records
    ensures var r, r' := g.store.records[id], Next(g, a, config).store.records[id];
            r'.scope == r.scope && r'.requestHash == r.requestHash && r'.expiresAt == r.expiresAt
  {
  }

  /**
   A matching request is told to wait exactly while the lock of an unfinished record is in
   force; from the end of the lease on it is executed, or replayed.
   */
  lemma WaitsIffLocked(g: Gateway, r: Request, config: Config, id: nat)
    requires Tidy(g) && id in g.store.records && g.store.records[id].scope == r.scope
    requires g.store.records[id].requestHash == HashRequest(r.body)
    ensures var g' := OnArrive(g, r, config);
            |g'.log| == |g.log| + 1 && g'.log[..|g.log|] == g.log &&
            var answer, record := g'.log[|g.log|], g.store.records[id];
            (answer == ToldToWait(id) <==> record.status == Processing && g.now < record.lockedUntil) &&
            (answer == Executed(id, record.requestHash) <==>
              record.status == Failed || (record.status == Processing && record.lockedUntil <= g.now)) &&
            (answer == ReplayedResponse(id, record.response) <==> record.status == Completed)
  {
    assert FindOne(g.store.records, r.scope) == Some(id);
  }

  /** A request whose payload differs from the recorded one is refused, whatever the record's state. */
  lemma ConflictIffOtherPayload(g: Gateway, r: Request, config: Config, id: nat)
    requires Tidy(g) && id in g.store.records && g.store.records[id].scope == r.scope
    ensures OnArrive(g, r, config).log == g.log + [ConflictReported(id)] <==>
            g.store.records[id].requestHash != HashRequest(r.body)
  {
    assert FindOne(g.store.records, r.scope) == Some(id);
    assert (g.log + [ConflictReported(id)])[|g.log|] == ConflictReported(id);
  }

  /**
   The assumption is needed in every state: as soon as a handler has outlived the lease of
   a stored record, one more matching request starts a second handler on the record, and if
   both succeed the first response is overwritten.
   */
  lemma OverrunLeaseRunsTwice(g: Gateway, r: Request, config: Config, h: nat, first: Response, second: Response)
    requires Inv(g) && h in g.running && g.running[h].id in g.store.records && g.running[h].until <= g.now
    requires var record := g.store.records[g.running[h].id];
             r.scope == record.scope && HashRequest(r.body) == record.requestHash
    requires first.status < 500 && second.status < 500
    ensures var id, g1 := g.running[h].id, OnArrive(g, r, config);
            g.nextHandler != h && h in g1.running && g.nextHandler in g1.running &&
            g1.running[h].id == id && g1.running[g.nextHandler].id == id &&
            var g2 := OnFinish(OnFinish(g1, h, first), g.nextHandler, second);
            LifeOf(g2.log, id) == Illegal && g2.store.records[id].response == second
  {
    var id := g.running[h].id;
    assert FindOne(g.store.records, r.scope) == Some(id);
    assert IdSound(g, id);
    var g1 := OnArrive(g, r, config);
    var g2 := OnFinish(g1, h, first);
    LifeAppend(g.log, Executed(id, HashRequest(r.body)), id);
    LifeAppend(g1.log, Succeeded(id, first), id);
    LifeAppend(g2.log, Succeeded(id, second), id);
  }

  // ---------------------------------------------------------------- the middleware

  datatype Answer = MissingKey | Replay(response: Response) | ConflictError | Accepted | Proceed(handler: nat)

  /** The response a client gets for what is observed of its request. */
  function AnswerFor(o: Observation, handler: nat): Answer
  {
    match o
    case ReplayedResponse(_, response) => Replay(response)
    case ConflictReported(_) => ConflictError
    case ToldToWait(_) => Accepted
    case _ => Proceed(handler)
  }

  /** requireIdempotencyKey: `running` holds the `req.idempotencyRecord` of each open request. */
  class Middleware {
    const service: IdempotencyRecords
    var running: map<nat, Lease>
    var nextHandler: nat
    ghost var log: seq<Observation>

    ghost function State(now: int): Gateway
      reads this, service
    {
      Gateway(service.Contents(), now, running, nextHandler, log)
    }

    constructor (service: IdempotencyRecords)
      ensures this.service == service && running == map[] && nextHandler == 0 && log == []
    {
      this.service := service;
      running, nextHandler, log := map[], 0, [];
    }

    method Handle(r: Request, now: int) returns (answer: Answer)
      requires UniqueScopes(service.records)
      modifies this, service
      ensures r.scope.key == "" ==> answer == MissingKey && State(now) == old(State(now))
      ensures r.scope.key != "" ==> State(now) == OnArrive(old(State(now)), r, service.config)
      ensures r.scope.key != "" ==> |log| == |old(log)| + 1
      ensures r.scope.key != "" ==> AnswerFor(log[|old(log)|], old(nextHandler)) == answer
    {
      if r.scope.key == "" {
        return MissingKey;
      }
      var begun := service.BeginRecord(r, now);
      match begun.state
      case AlreadyDone =>
        log := log + [ReplayedResponse(begun.id, service.records[begun.id].response)];
        return Replay(service.records[begun.id].response);
      case Conflict =>
        log := log + [ConflictReported(begun.id)];
        return ConflictError;
      case InProgress =>
        log := log + [ToldToWait(begun.id)];
        return Accepted;
      case Created =>
        var handler := nextHandler;
        running := running[handler := Lease(begun.id, r.scope, now + service.config.lockMs)];
        nextHandler := handler + 1;
        log := log + [Executed(begun.id, HashRequest(r.body))];
        return Proceed(handler);
    }

    /** The finish listener; `stored` says whether its write succeeds. A failure is swallowed. */
    method Finish(handler: nat, statusCode: int, body: string, stored: bool, now: int)
      modifies this, service
      ensures State(now) ==
              if stored then OnFinish(old(State(now)), handler, Response(statusCode, body))
              else OnLostWrite(old(State(now)), handler, Response(statusCode, body))
    {
      if handler !in running {
        return;
      }
      var id := running[handler].id;
      running := running - {handler};
      if statusCode >= 500 {
        if stored {
          service.FailRecord(id);
        }
        log := log + [ServerError(id)];
        return;
      }
      if stored {
        service.CompleteRecord(id, statusCode, body);
      }
      log := log + [Succeeded(id, Response(statusCode, body))];
    }
  }
}
