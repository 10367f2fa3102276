/**
 What a request gets from the gateway, and what the end of a handler leaves behind
 (apps/gateway/src/middleware/idempotency.middleware.js,
 apps/gateway/src/services/idempotency.service.js): server errors are retried, other responses
 are replayed. Nothing here asks the handlers to be timely.
 */
module GatewayAnswers {
  import opened Options
  import opened GatewayIdempotency

  // ---------------------------------------------------------------- what a request gets

  /** The record that stands in the way of a request: the one of its scope. */
  ghost predicate RecordFor(g: Gateway, r: Request, id: nat)
  {
    id in g.store.records && g.store.records[id].scope == r.scope
  }

  /**
   A request on a scope without a record is executed, on a new record that is locked for the
   lock time and expires after the time to live; nothing else changes.
   */
  lemma FreshRequestRuns(g: Gateway, r: Request, config: Config)
    requires forall id :: id in g.store.records ==> g.store.records[id].scope != r.scope
    ensures var g', id := Next(g, Arrive(r), config), g.store.nextId;
            g'.store.nextId == id + 1 && id in g'.store.records &&
            g'.store.records == g.store.records[id := g'.store.records[id]] &&
            var record := g'.store.records[id];
            record.scope == r.scope && record.requestHash == HashRequest(r.body) && record.status == Processing &&
            record.lockedUntil == g.now + config.lockMs && record.expiresAt == g.now + config.ttlMs &&
            g'.running == g.running[g.nextHandler := Lease(id, r.scope, g.now + config.lockMs)] &&
            g'.nextHandler == g.nextHandler + 1 && g'.now == g.now &&
            g'.log == g.log + [Executed(id, HashRequest(r.body))]
  {
  }

  /** The record lets the request through: it is failed, or in processing under a lock that is over. */
  predicate LetsThrough(record: Record, now: int)
  {
    record.status == Failed || (record.status == Processing && record.lockedUntil <= now)
  }

  /**
   On a scope with a record: another payload is refused, a completed record is replayed, and a
   locked one makes the request wait, all without a change; otherwise it takes the record over,
   renewing the lock and nothing else.
   */
  lemma RepeatedRequestGets(g: Gateway, r: Request, config: Config, id: nat)
    requires UniqueScopes(g.store.records) && RecordFor(g, r, id)
    ensures var g', record := Next(g, Arrive(r), config), g.store.records[id];
            if record.requestHash != HashRequest(r.body) then g' == g.(log := g.log + [ConflictReported(id)])
            else if record.status == Completed then g' == g.(log := g.log + [ReplayedResponse(id, record.response)])
            else if !LetsThrough(record, g.now) then g' == g.(log := g.log + [ToldToWait(id)])
            else
              g'.store.nextId == g.store.nextId && id in g'.store.records &&
              g'.store.records == g.store.records[id := g'.store.records[id]] &&
              g'.store.records[id] == record.(status := Processing, lockedUntil := g.now + config.lockMs) &&
              g'.running == g.running[g.nextHandler := Lease(id, r.scope, g.now + config.lockMs)] &&
              g'.nextHandler == g.nextHandler + 1 && g'.now == g.now &&
              g'.log == g.log + [Executed(id, HashRequest(r.body))]
  {
    assert FindOne(g.store.records, r.scope) == Some(id);
  }

  /** The answer the client gets, told from the record of its scope. */
  lemma AnswerExact(g: Gateway, r: Request, config: Config, id: nat)
    requires UniqueScopes(g.store.records) && RecordFor(g, r, id)
    ensures var g', record := Next(g, Arrive(r), config), g.store.records[id];
            |g'.log| == |g.log| + 1 &&
            var answer := AnswerFor(g'.log[|g.log|], g.nextHandler);
            (answer == ConflictError <==> record.requestHash != HashRequest(r.body)) &&
            (answer.Replay? <==> record.requestHash == HashRequest(r.body) && record.status == Completed) &&
            (answer.Replay? ==> answer.response == record.response) &&
            (answer == Accepted <==> record.requestHash == HashRequest(r.body) && record.status != Completed &&
                                     !LetsThrough(record, g.now)) &&
            (answer.Proceed? <==> record.requestHash == HashRequest(r.body) && LetsThrough(record, g.now)) &&
            (answer.Proceed? ==> answer.handler == g.nextHandler && answer.handler in g'.running)
  {
    RepeatedRequestGets(g, r, config, id);
  }

  /** Payloads are told apart by their hashes, here by their JSON text. */
  lemma SamePayloadIff(a: Request, b: Request)
    ensures HashRequest(a.body) == HashRequest(b.body) <==> a.body == b.body
  {
  }

  // ---------------------------------------------------------------- what the end of a handler leaves

  /**
   The end of a handler, its write stored: a response of 500 or more fails the record and is
   logged as a server error; any other completes the record with exactly that response and is
   logged as its success. Nothing else changes.
   */
  lemma StoredFinish(g: Gateway, h: nat, response: Response, config: Config)
    requires h in g.running && g.running[h].id in g.store.records
    ensures var g', id := Next(g, Finish(h, response), config), g.running[h].id;
            g'.running == g.running - {h} && g'.now == g.now && g'.nextHandler == g.nextHandler &&
            g'.store.nextId == g.store.nextId &&
            if response.status >= 500 then
              g'.store.records == g.store.records[id := g.store.records[id].(status := Failed)] &&
              g'.log == g.log + [ServerError(id)]
            else
              g'.store.records ==
                g.store.records[id := g.store.records[id].(status := Completed, response := response)] &&
              g'.log == g.log + [Succeeded(id, response)]
  {
  }

  /** With its write lost, or its record gone, the log and the client have the response and the store is as it was. */
  lemma LostFinish(g: Gateway, h: nat, response: Response, lost: bool, config: Config)
    requires h in g.running && (lost || g.running[h].id !in g.store.records)
    ensures var g' := Next(g, if lost then LoseWrite(h, response) else Finish(h, response), config);
            var id := g.running[h].id;
            g'.running == g.running - {h} && g'.store == g.store && g'.now == g.now &&
            g'.nextHandler == g.nextHandler &&
            g'.log == g.log + [if response.status >= 500 then ServerError(id) else Succeeded(id, response)]
  {
  }

  // ---------------------------------------------------------------- no server error is kept

  /** No completed record, no replay and no success carries a server error. */
  ghost predicate NoErrorKept(g: Gateway)
  {
    (forall id :: id in g.store.records && g.store.records[id].status == Completed ==>
      g.store.records[id].response.status < 500) &&
    forall i :: 0 <= i < |g.log| ==>
      (g.log[i].ReplayedResponse? || g.log[i].Succeeded? ==> g.log[i].response.status < 500)
  }

  lemma StepKeepsNoError(g: Gateway, a: Action, config: Config)
    requires NoErrorKept(g)
    ensures NoErrorKept(Next(g, a, config))
  {
  }

  /** Over every run, timely or not: nothing of status 500 or above is completed, replayed or a success. */
  lemma {:induction false} NoErrorReplayed(actions: seq<Action>, config: Config)
    ensures NoErrorKept(Run(INITIAL, actions, config))
  {
    if actions != [] {
      var init := actions[..|actions| - 1];
      NoErrorReplayed(init, config);
      StepKeepsNoError(Run(INITIAL, init, config), actions[|actions| - 1], config);
    }
  }

  // ---------------------------------------------------------------- what later requests get

  /** The record is settled, and no handler works on it. */
  ghost predicate Rests(g: Gateway, id: nat)
  {
    IdsFresh(g.store) && id in g.store.records && g.store.records[id].status in {Completed, Failed} &&
    forall h :: h in g.running ==> g.running[h].id != id
  }

  /** The step is not the removal of the record, nor, if it is failed, a request on its scope. */
  predicate PassesBy(a: Action, id: nat, record: Record)
  {
    a != Expire(id) && (record.status == Failed && a.Arrive? ==> a.request.scope != record.scope)
  }

  lemma ArrivalRests(g: Gateway, r: Request, config: Config, id: nat)
    requires Rests(g, id) && PassesBy(Arrive(r), id, g.store.records[id])
    ensures Rests(Next(g, Arrive(r), config), id)
    ensures Next(g, Arrive(r), config).store.records[id] == g.store.records[id]
  {
    if r.scope == g.store.records[id].scope {
      RepeatedRequestGets(g, r, config, id);
    }
  }

  lemma StepRests(g: Gateway, a: Action, config: Config, id: nat)
    requires Rests(g, id) && PassesBy(a, id, g.store.records[id])
    ensures Rests(Next(g, a, config), id) && Next(g, a, config).store.records[id] == g.store.records[id]
  {
    match a
    case Arrive(r) => ArrivalRests(g, r, config, id);
    case Finish(handler, response) =>
    case LoseWrite(handler, response) =>
    case Vanish(handler) =>
    case Tick(time) =>
    case Expire(other) =>
  }

  lemma {:induction false} RunRests(g: Gateway, actions: seq<Action>, config: Config, id: nat)
    requires Rests(g, id) && forall i :: 0 <= i < |actions| ==> PassesBy(actions[i], id, g.store.records[id])
    ensures Rests(Run(g, actions, config), id)
    ensures Run(g, actions, config).store.records[id] == g.store.records[id]
  {
    if actions != [] {
      var n := |actions| - 1;
      assert forall i :: 0 <= i < n ==> actions[..n][i] == actions[i];
      RunRests(g, actions[..n], config, id);
      StepRests(Run(g, actions[..n], config), actions[n], config, id);
    }
  }

  lemma FinishRests(g: Gateway, h: nat, response: Response, config: Config)
    requires Tidy(g) && h in g.running && g.running[h].id in g.store.records
    ensures Rests(Next(g, Finish(h, response), config), g.running[h].id)
  {
    StoredFinish(g, h, response, config);
  }

  /**
   After a server error the next matching request is executed, whatever happens in between
   elsewhere, as long as the record is there.
   */
  lemma ErrorIsRetried(g: Gateway, h: nat, response: Response, between: seq<Action>, r: Request, config: Config)
    requires Tidy(g) && h in g.running && g.running[h].id in g.store.records && response.status >= 500
    requires var record := g.store.records[g.running[h].id];
             r.scope == record.scope && HashRequest(r.body) == record.requestHash &&
             forall i :: 0 <= i < |between| ==>
               between[i] != Expire(g.running[h].id) &&
               (between[i].Arrive? ==> between[i].request.scope != record.scope)
    ensures var later := Run(Next(g, Finish(h, response), config), between, config);
            var g', id := Next(later, Arrive(r), config), g.running[h].id;
            g'.log == later.log + [Executed(id, HashRequest(r.body))] &&
            later.nextHandler in g'.running && g'.running[later.nextHandler].id == id
  {
    var id, g1 := g.running[h].id, Next(g, Finish(h, response), config);
    StoredFinish(g, h, response, config);
    FinishRests(g, h, response, config);
    RunRests(g1, between, config, id);
    RepeatedRequestGets(Run(g1, between, config), r, config, id);
  }

  /** After any other response a matching request is answered with exactly that one, as long as the record is there. */
  lemma SuccessIsReplayed(g: Gateway, h: nat, response: Response, between: seq<Action>, r: Request, config: Config)
    requires Tidy(g) && h in g.running && g.running[h].id in g.store.records && response.status < 500
    requires var record := g.store.records[g.running[h].id];
             r.scope == record.scope && HashRequest(r.body) == record.requestHash &&
             forall i :: 0 <= i < |between| ==> between[i] != Expire(g.running[h].id)
    ensures var later := Run(Next(g, Finish(h, response), config), between, config);
            Next(later, Arrive(r), config) == later.(log := later.log + [ReplayedResponse(g.running[h].id, response)])
  {
    var id, g1 := g.running[h].id, Next(g, Finish(h, response), config);
    StoredFinish(g, h, response, config);
    FinishRests(g, h, response, config);
    RunRests(g1, between, config, id);
    RepeatedRequestGets(Run(g1, between, config), r, config, id);
  }

  /** A handler that dies, the clock and the removal of expired records touch nothing else. */
  lemma SilentSteps(g: Gateway, h: nat, time: int, id: nat, config: Config)
    ensures Next(g, Vanish(h), config) == g.(running := g.running - {h})
    ensures Next(g, Tick(time), config) == g.(now := if time < g.now then g.now else time)
    ensures id in g.store.records && g.store.records[id].expiresAt > g.now ==> Next(g, Expire(id), config) == g
    ensures id in g.store.records && g.store.records[id].expiresAt <= g.now ==>
              Next(g, Expire(id), config) == g.(store := Store(g.store.records - {id}, g.store.nextId))
  {
  }
}
