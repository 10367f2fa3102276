/**
 How many handlers the gateway can have at work for one key, method, route and actor: runs
 of the idempotency middleware whose handlers all end within their leases.
 */
module GatewayScopes {
  import opened Options
  import opened GatewayIdempotency

  // ---------------------------------------------------------------- runs, put together

  lemma TimelyRunAppend(g: Gateway, actions: seq<Action>, a: Action, config: Config)
    requires TimelyRun(g, actions, config) && Timely(Next(Run(g, actions, config), a, config))
    ensures Run(g, actions + [a], config) == Next(Run(g, actions, config), a, config)
    ensures TimelyRun(g, actions + [a], config)
  {
    var all := actions + [a];
    assert all[..|actions|] == actions && all[..|all|] == all;
    forall i | 0 <= i <= |all|
      ensures Timely(Run(g, all[..i], config))
    {
      if i <= |actions| {
        assert all[..i] == actions[..i];
      }
    }
  }

  lemma {:induction false} TimelyRunConcat(g: Gateway, a: seq<Action>, b: seq<Action>, config: Config)
    requires TimelyRun(g, a, config) && TimelyRun(Run(g, a, config), b, config)
    ensures Run(g, a + b, config) == Run(Run(g, a, config), b, config)
    ensures TimelyRun(g, a + b, config)
  {
    if b == [] {
      assert a + b == a;
    } else {
      var n := |b| - 1;
      var init, mid := b[..n], Run(g, a, config);
      forall i | 0 <= i <= n ensures Timely(Run(mid, init[..i], config)) {
        assert init[..i] == b[..i];
      }
      TimelyRunConcat(g, a, init, config);
      assert b[..|b|] == b && Timely(Run(mid, b[..|b|], config));
      TimelyRunAppend(g, a + init, b[n], config);
      assert a + init + [b[n]] == a + b;
    }
  }

  lemma NoActions(g: Gateway, config: Config)
    requires Timely(g)
    ensures TimelyRun(g, [], config) && Run(g, [], config) == g
  {
    var none: seq<Action> := [];
    forall i | 0 <= i <= |none| ensures Timely(Run(g, none[..i], config)) {
      assert none[..i] == none;
    }
  }

  // ---------------------------------------------------------------- joining a handler

  /** Another handler is at work on the same scope. */
  ghost predicate Accompanied(g: Gateway, h: nat)
    requires h in g.running
  {
    exists o :: o in g.running && o != h && g.running[o].scope == g.running[h].scope
  }

  /** The handler can get company while it runs, all handlers keeping within their leases. */
  ghost predicate CanBeJoined(g: Gateway, h: nat, config: Config)
  {
    exists actions :: TimelyRun(g, actions, config) &&
      h in Run(g, actions, config).running && Accompanied(Run(g, actions, config), h)
  }

  /** The lease of the handler ends no later than its record may be removed. */
  predicate CoveredLease(g: Gateway, h: nat)
    requires h in g.running && g.running[h].id in g.store.records
  {
    g.running[h].until <= g.store.records[g.running[h].id].expiresAt
  }

  /**
   Before `until` a request on the scope can start a handler: there is no record of the scope,
   or a failed one, or one whose lock, if it is in processing, or whose life ends before.
   */
  ghost predicate Opens(g: Gateway, scope: Scope, until: int)
  {
    match FindOne(g.store.records, scope)
    case None => true
    case Some(id) =>
      var record := g.store.records[id];
      record.status == Failed || (record.status == Processing && record.lockedUntil < until) ||
      record.expiresAt < until
  }

  /** A handler whose own record is stored: its scope opens exactly when its lease outlasts the record. */
  lemma {:induction false} StoredOpensIff(g: Gateway, h: nat)
    requires Tidy(g) && h in g.running && g.running[h].id in g.store.records
    ensures Opens(g, g.running[h].scope, g.running[h].until) <==> !CoveredLease(g, h)
  {
    assert FindOne(g.store.records, g.running[h].scope) == Some(g.running[h].id);
  }

  /** As long as the handler runs, record `id` keeps its scope shut and nobody else is on it. */
  ghost predicate Alone(g: Gateway, h: nat, lease: Lease, id: nat)
  {
    IdsFresh(g.store) && h < g.nextHandler && id < g.store.nextId &&
    (forall o :: o in g.running ==> o < g.nextHandler) &&
    (h in g.running ==>
      g.running[h] == lease && id in g.store.records &&
      var record := g.store.records[id];
      record.scope == lease.scope && lease.until <= record.expiresAt &&
      (record.status == Completed || (record.status == Processing && lease.until <= record.lockedUntil)) &&
      forall o :: o in g.running && o != h ==> g.running[o].id != id && g.running[o].scope != lease.scope)
  }

  lemma ArriveKeepsAlone(g: Gateway, h: nat, lease: Lease, id: nat, r: Request, config: Config)
    requires Alone(g, h, lease, id) && Timely(g)
    ensures Alone(OnArrive(g, r, config), h, lease, id)
  {
    if h in g.running && r.scope == lease.scope {
      assert FindOne(g.store.records, r.scope) == Some(id);
    }
  }

  lemma StepKeepsAlone(g: Gateway, h: nat, lease: Lease, id: nat, a: Action, config: Config)
    requires Alone(g, h, lease, id) && Timely(g)
    ensures Alone(Next(g, a, config), h, lease, id)
  {
    match a
    case Arrive(request) => ArriveKeepsAlone(g, h, lease, id, request, config);
    case Finish(handler, response) =>
    case LoseWrite(handler, response) =>
    case Vanish(handler) =>
    case Tick(time) =>
    case Expire(removed) =>
  }

  lemma {:induction false} RunKeepsAlone(g: Gateway, h: nat, lease: Lease, id: nat, actions: seq<Action>,
                                         config: Config)
    requires Alone(g, h, lease, id) && TimelyRun(g, actions, config)
    ensures Alone(Run(g, actions, config), h, lease, id)
  {
    if actions != [] {
      var n := |actions| - 1;
      var init := actions[..n];
      forall i | 0 <= i <= n ensures Timely(Run(g, init[..i], config)) {
        assert init[..i] == actions[..i];
      }
      RunKeepsAlone(g, h, lease, id, init, config);
      assert Timely(Run(g, actions[..n], config));
      StepKeepsAlone(Run(g, init, config), h, lease, id, actions[n], config);
    }
  }

  /** With leases of no length no handler is ever timely, so none joins. */
  lemma {:induction false} NoNewcomers(g: Gateway, actions: seq<Action>, config: Config)
    requires config.lockMs == 0 && TimelyRun(g, actions, config)
    requires forall o :: o in g.running ==> o < g.nextHandler
    ensures var g' := Run(g, actions, config);
            g.nextHandler <= g'.nextHandler &&
            forall o :: o in g'.running ==> o in g.running && g'.running[o] == g.running[o]
  {
    if actions != [] {
      var n := |actions| - 1;
      var init := actions[..n];
      forall i | 0 <= i <= n ensures Timely(Run(g, init[..i], config)) {
        assert init[..i] == actions[..i];
      }
      NoNewcomers(g, init, config);
      assert actions[..|actions|] == actions && Timely(Run(g, actions[..|actions|], config));
      NoNewcomer(Run(g, init, config), actions[n], config);
    }
  }

  lemma NoNewcomer(g: Gateway, a: Action, config: Config)
    requires config.lockMs == 0 && Timely(Next(g, a, config))
    ensures var g' := Next(g, a, config);
            g.nextHandler <= g'.nextHandler &&
            forall o :: o in g'.running ==> o in g.running && g'.running[o] == g.running[o]
  {
    var g' := Next(g, a, config);
    assert g.nextHandler in g'.running ==> g'.running[g.nextHandler].until > g'.now;
  }

  /** All other handlers vanish. */
  lemma {:induction false} LeftAlone(g: Gateway, h: nat, config: Config) returns (actions: seq<Action>)
    requires h in g.running && Timely(g)
    ensures TimelyRun(g, actions, config)
    ensures Run(g, actions, config) == g.(running := map[h := g.running[h]])
  {
    actions := [];
    NoActions(g, config);
    var running := g.running;
    while running.Keys != {h}
      invariant h in running && running.Keys <= g.running.Keys
      invariant forall o :: o in running ==> running[o] == g.running[o]
      invariant TimelyRun(g, actions, config) && Run(g, actions, config) == g.(running := running)
      decreases running.Keys
    {
      var other :| other in running && other != h;
      running := running - {other};
      TimelyRunAppend(g, actions, Vanish(other), config);
      actions := actions + [Vanish(other)];
    }
    assert running == map[h := g.running[h]];
  }

  /** The last steps of it: the record expires and is removed, and a request arrives. */
  function Steps(time: int, id: nat, r: Request): seq<Action>
  {
    [Tick(time), Expire(id), Arrive(r)]
  }

  lemma {:induction false} ThreeSteps(g: Gateway, a: Action, b: Action, c: Action, config: Config)
    requires Timely(g) && Timely(Next(g, a, config)) && Timely(Next(Next(g, a, config), b, config))
    requires Timely(Next(Next(Next(g, a, config), b, config), c, config))
    ensures Run(g, [a, b, c], config) == Next(Next(Next(g, a, config), b, config), c, config)
    ensures TimelyRun(g, [a, b, c], config)
  {
    var none: seq<Action> := [];
    NoActions(g, config);
    TimelyRunAppend(g, none, a, config);
    TimelyRunAppend(g, none + [a], b, config);
    TimelyRunAppend(g, none + [a] + [b], c, config);
    assert none + [a] + [b] + [c] == [a, b, c];
  }

  /** The record of the scope is removed once it may be, and a request arrives. */
  lemma {:induction false} ExpiryOpens(g: Gateway, h: nat, lease: Lease, id: nat, time: int, r: Request, config: Config)
    requires IdsFresh(g.store) && h < g.nextHandler && config.lockMs > 0 && g.running == map[h := lease]
    requires id in g.store.records && g.store.records[id].scope == lease.scope == r.scope
    requires g.now <= time < lease.until && g.store.records[id].expiresAt <= time
    ensures var g' := Run(g, Steps(time, id, r), config);
            TimelyRun(g, Steps(time, id, r), config) && h in g'.running && Accompanied(g', h)
  {
    var g1 := Next(g, Tick(time), config);
    var g2 := Next(g1, Expire(id), config);
    var g3 := Next(g2, Arrive(r), config);
    assert FindOne(g2.store.records, lease.scope).None?;
    assert g.nextHandler in g3.running && g3.running[g.nextHandler].scope == lease.scope;
    ThreeSteps(g, Tick(time), Expire(id), Arrive(r), config);
  }

  /** The lock of the record of the scope is over, or there is no record, and a request arrives. */
  lemma {:induction false} ArrivalOpens(g: Gateway, h: nat, lease: Lease, time: int, r: Request, config: Config)
    requires IdsFresh(g.store) && h < g.nextHandler && config.lockMs > 0 && g.running == map[h := lease]
    requires r.scope == lease.scope && g.now <= time < lease.until
    requires FindOne(g.store.records, r.scope).Some? ==>
               StateOf(g.store.records[FindOne(g.store.records, r.scope).value], r, time) == Created
    ensures var g' := Run(g, [Tick(time), Tick(time), Arrive(r)], config);
            TimelyRun(g, [Tick(time), Tick(time), Arrive(r)], config) && h in g'.running && Accompanied(g', h)
  {
    var g1 := g.(now := time);
    assert Next(g, Tick(time), config) == g1 && Next(g1, Tick(time), config) == g1;
    var g3 := Next(g1, Arrive(r), config);
    assert g.nextHandler in g3.running && g3.running[g.nextHandler].scope == lease.scope;
    ThreeSteps(g, Tick(time), Tick(time), Arrive(r), config);
  }

  /** The steps by which a lone handler whose scope opens gets company. */
  lemma {:induction false} LoneHandlerJoined(g: Gateway, h: nat, lease: Lease, body: string, config: Config)
    returns (actions: seq<Action>)
    requires IdsFresh(g.store) && h < g.nextHandler && config.lockMs > 0 && g.running == map[h := lease] && Timely(g)
    requires Opens(g, lease.scope, lease.until)
    ensures var g' := Run(g, actions, config);
            TimelyRun(g, actions, config) && h in g'.running && Accompanied(g', h)
  {
    var found := FindOne(g.store.records, lease.scope);
    assert h in g.running && g.now < lease.until;
    if found.None? {
      var r := Request(lease.scope, body);
      actions := [Tick(g.now), Tick(g.now), Arrive(r)];
      ArrivalOpens(g, h, lease, g.now, r, config);
    } else {
      var id, record := found.value, g.store.records[found.value];
      if record.expiresAt < lease.until {
        var time, r := if record.expiresAt > g.now then record.expiresAt else g.now, Request(lease.scope, body);
        actions := Steps(time, id, r);
        ExpiryOpens(g, h, lease, id, time, r, config);
      } else {
        var r := Request(lease.scope, record.requestHash);
        var time := if record.status == Processing && record.lockedUntil > g.now then record.lockedUntil else g.now;
        actions := [Tick(time), Tick(time), Arrive(r)];
        ArrivalOpens(g, h, lease, time, r, config);
      }
    }
  }

  /**
   A handler whose scope opens: the others end, and a request on the scope starts a second
   timely handler, in time or once the record there has expired and is removed.
   */
  lemma {:induction false} OpenScopeRunsTwice(g: Gateway, h: nat, body: string, config: Config)
    returns (actions: seq<Action>)
    requires Tidy(g) && Timely(g) && config.lockMs > 0
    requires h in g.running && Opens(g, g.running[h].scope, g.running[h].until)
    ensures TimelyRun(g, actions, config)
    ensures h in Run(g, actions, config).running && Accompanied(Run(g, actions, config), h)
  {
    var lease := g.running[h];
    actions := LeftAlone(g, h, config);
    var lone := g.(running := map[h := lease]);
    var rest := LoneHandlerJoined(lone, h, lease, body, config);
    TimelyRunConcat(g, actions, rest, config);
    actions := actions + rest;
  }

  lemma {:induction false} ShutScopeStaysAlone(g: Gateway, h: nat)
    requires Tidy(g) && Timely(g) && h in g.running && !Accompanied(g, h)
    requires !Opens(g, g.running[h].scope, g.running[h].until)
    ensures FindOne(g.store.records, g.running[h].scope).Some?
    ensures Alone(g, h, g.running[h], FindOne(g.store.records, g.running[h].scope).value)
  {
    var lease, id := g.running[h], FindOne(g.store.records, g.running[h].scope).value;
    forall o | o in g.running && o != h
      ensures g.running[o].id != id && g.running[o].scope != lease.scope
    {
    }
  }

  /**
   In every state of timely handlers: a handler, its record stored or removed, can get company
   on its scope exactly when it has company already, or the scope opens before its lease ends.
   */
  lemma JoinableIff(g: Gateway, h: nat, config: Config)
    requires Tidy(g) && Timely(g) && h in g.running
    ensures CanBeJoined(g, h, config) <==>
            Accompanied(g, h) || (config.lockMs > 0 && Opens(g, g.running[h].scope, g.running[h].until))
  {
    if Accompanied(g, h) {
      NoActions(g, config);
    } else if config.lockMs == 0 {
      forall actions | TimelyRun(g, actions, config)
        ensures !(h in Run(g, actions, config).running && Accompanied(Run(g, actions, config), h))
      {
        NoNewcomers(g, actions, config);
      }
    } else if !Opens(g, g.running[h].scope, g.running[h].until) {
      ShutScopeStaysAlone(g, h);
      var id := FindOne(g.store.records, g.running[h].scope).value;
      forall actions | TimelyRun(g, actions, config)
        ensures !(h in Run(g, actions, config).running && Accompanied(Run(g, actions, config), h))
      {
        RunKeepsAlone(g, h, g.running[h], id, actions, config);
      }
    } else {
      var actions := OpenScopeRunsTwice(g, h, "", config);
    }
  }

  // ---------------------------------------------------------------- over whole runs

  ghost predicate Shared(g: Gateway)
  {
    exists h :: h in g.running && Accompanied(g, h)
  }

  /** The state a first handler leaves that vanishes, some time later. */
  function Abandoned(r: Request, time: int, config: Config): Gateway
  {
    Gateway(Store(map[0 := FreshRecord(r, 0, config)], 1), time, map[], 1, [Executed(0, HashRequest(r.body))])
  }

  lemma FirstVanishes(r: Request, time: nat, config: Config)
    requires config.lockMs >= 1
    ensures TimelyRun(INITIAL, [Arrive(r), Vanish(0), Tick(time)], config)
    ensures Run(INITIAL, [Arrive(r), Vanish(0), Tick(time)], config) == Abandoned(r, time, config)
  {
    var g1 := Next(INITIAL, Arrive(r), config);
    var g2 := Next(g1, Vanish(0), config);
    assert g1.running == map[0 := Lease(0, r.scope, config.lockMs)];
    assert g2.running == map[] && g2.store.records == map[0 := FreshRecord(r, 0, config)];
    ThreeSteps(INITIAL, Arrive(r), Vanish(0), Tick(time), config);
  }

  /** A first handler that vanishes, and a takeover of its record once it has expired. */
  lemma LateTakeover(r: Request, config: Config) returns (actions: seq<Action>)
    requires 1 <= config.lockMs <= config.ttlMs
    ensures TimelyRun(INITIAL, actions, config)
    ensures var g := Run(INITIAL, actions, config);
            g.running == map[1 := Lease(0, r.scope, config.ttlMs + config.lockMs)] &&
            g.store.records == map[0 := TakenOver(FreshRecord(r, 0, config), config.ttlMs, config)]
  {
    FirstVanishes(r, config.ttlMs, config);
    var first, g := [Arrive(r), Vanish(0), Tick(config.ttlMs)], Abandoned(r, config.ttlMs, config);
    assert FindOne(g.store.records, r.scope) == Some(0);
    assert OnArrive(g, r, config).store.records == map[0 := TakenOver(FreshRecord(r, 0, config), config.ttlMs, config)];
    TimelyRunAppend(INITIAL, first, Arrive(r), config);
    actions := first + [Arrive(r)];
  }

  /** A first handler alone, when the lock is longer than the life of the record. */
  lemma LongLease(r: Request, config: Config) returns (actions: seq<Action>)
    requires config.lockMs > config.ttlMs
    ensures TimelyRun(INITIAL, actions, config)
    ensures var g := Run(INITIAL, actions, config);
            g.running == map[0 := Lease(0, r.scope, config.lockMs)] &&
              g.store.records == map[0 := FreshRecord(r, 0, config)]
  {
    var none: seq<Action> := [];
    NoActions(INITIAL, config);
    TimelyRunAppend(INITIAL, none, Arrive(r), config);
    actions := none + [Arrive(r)];
    assert Run(INITIAL, actions, config).running == map[0 := Lease(0, r.scope, config.lockMs)];
  }

  /** For every lock time but none there is a timely run, for any request, with two handlers on its scope. */
  lemma {:induction false} TimelyRunWithTwoHandlers(r: Request, config: Config) returns (actions: seq<Action>)
    requires config.lockMs >= 1
    ensures TimelyRun(INITIAL, actions, config) && Shared(Run(INITIAL, actions, config))
  {
    InitialInv();
    var h;
    if config.lockMs > config.ttlMs {
      actions := LongLease(r, config);
      h := 0;
    } else {
      actions := LateTakeover(r, config);
      h := 1;
    }
    TimelyRunsKeepTidy(INITIAL, actions, config);
    var g := Run(INITIAL, actions, config);
    assert actions[..|actions|] == actions && Timely(g);
    StoredOpensIff(g, h);
    var rest := OpenScopeRunsTwice(g, h, r.body, config);
    TimelyRunConcat(INITIAL, actions, rest, config);
    actions := actions + rest;
  }

  /** Timely handlers can share a scope under a configuration if and only if its lock time is not zero. */
  lemma SharedScopeIff(config: Config)
    ensures (exists actions :: TimelyRun(INITIAL, actions, config) && Shared(Run(INITIAL, actions, config))) <==>
            config.lockMs >= 1
  {
    if config.lockMs >= 1 {
      var actions := TimelyRunWithTwoHandlers(Request(Scope("", "", "", ""), ""), config);
    } else {
      forall actions | TimelyRun(INITIAL, actions, config)
        ensures !Shared(Run(INITIAL, actions, config))
      {
        NoNewcomers(INITIAL, actions, config);
      }
    }
  }

  // ---------------------------------------------------------------- when it is one handler per scope

  /** Every running handler's lease ends before its record may be removed. */
  ghost predicate Covered(g: Gateway)
  {
    forall h :: h in g.running && g.running[h].id in g.store.records ==> CoveredLease(g, h)
  }

  ghost predicate HandlersRecorded(g: Gateway)
  {
    forall h :: h in g.running ==> g.running[h].id in g.store.records
  }

  ghost predicate CoveredRun(g: Gateway, actions: seq<Action>, config: Config)
  {
    forall i :: 0 <= i <= |actions| ==> Covered(Run(g, actions[..i], config))
  }

  lemma StepKeepsRecorded(g: Gateway, a: Action, config: Config)
    requires Timely(g) && Covered(g) && HandlersRecorded(g)
    ensures HandlersRecorded(Next(g, a, config))
  {
    match a
    case Arrive(request) => assert g.store.records.Keys <= Begin(g.store, request, g.now, config).0.records.Keys;
    case Finish(handler, response) => assert OnFinish(g, handler, response).store.records.Keys == g.store.records.Keys;
    case LoseWrite(handler, response) =>
    case Vanish(handler) =>
    case Tick(time) =>
    case Expire(id) =>
  }

  lemma {:induction false} RunKeepsRecorded(g: Gateway, actions: seq<Action>, config: Config)
    requires TimelyRun(g, actions, config) && CoveredRun(g, actions, config) && HandlersRecorded(g)
    ensures HandlersRecorded(Run(g, actions, config))
  {
    if actions != [] {
      var n := |actions| - 1;
      var init := actions[..n];
      forall i | 0 <= i <= n ensures Timely(Run(g, init[..i], config)) && Covered(Run(g, init[..i], config)) {
        assert init[..i] == actions[..i];
      }
      RunKeepsRecorded(g, init, config);
      assert Timely(Run(g, actions[..n], config)) && Covered(Run(g, actions[..n], config));
      StepKeepsRecorded(Run(g, init, config), actions[n], config);
    }
  }

  /** Timely handlers with covered leases: one at most per key, method, route and actor. */
  lemma OneHandlerPerScope(actions: seq<Action>, config: Config)
    requires TimelyRun(INITIAL, actions, config) && CoveredRun(INITIAL, actions, config)
    ensures !Shared(Run(INITIAL, actions, config))
  {
    InitialInv();
    TimelyRunsKeepTidy(INITIAL, actions, config);
    RunKeepsRecorded(INITIAL, actions, config);
  }

  /** First leases are covered when the lock is no longer than the record's life. */
  lemma FirstLeaseCovered(g: Gateway, r: Request, config: Config)
    requires Tidy(g) && Covered(g) && FindOne(g.store.records, r.scope).None?
    ensures Covered(OnArrive(g, r, config)) <==> config.lockMs <= config.ttlMs
  {
    var g' := OnArrive(g, r, config);
    assert g.nextHandler in g'.running;
    assert g'.store.records[g.store.nextId] == FreshRecord(r, g.now, config);
  }
}
