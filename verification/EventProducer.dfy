/**
 Topic routing and batch publishing (packages/shared/src/events/event-topic-router.js and
 packages/shared/src/kafka/event-producer.js). The broker is a log of sent batches; which
 topics it accepts is a parameter.
 */
module EventProducer {
  import opened Options
  import opened Lists
  import opened Strings

  /** `wellFormed` is the verdict of the schema validation of the envelope. */
  datatype Envelope = Envelope(id: string, name: string, partitionKey: string, payload: string, wellFormed: bool)

  datatype Message = Message(key: string, value: Envelope)

  datatype Batch = Batch(topic: string, messages: seq<Message>)

  datatype Routed = Topic(topic: string) | NoTopic

  datatype Outcome = Published(batches: nat) | Invalid(id: string) | Unroutable(name: string)
    | SendFailed(topic: string)

  const ROUTES: seq<(string, string)> := [
    ("case.", "us360.domain.case.v1"),
    ("task.", "us360.domain.task.v1"),
    ("document.", "us360.domain.document.v1"),
    ("grievance.", "us360.domain.grievance.v1"),
    ("inspection.", "us360.domain.inspection.v1"),
    ("fee.", "us360.domain.fee.v1"),
    ("certificate.", "us360.domain.certificate.v1"),
    ("notification.", "us360.domain.notification.v1"),
    ("audit.", "us360.domain.audit.v1"),
    ("sla.", "us360.domain.sla.v1"),
    ("integration.dispatch_", "us360.integration.department.v1"),
    ("integration.callback_", "us360.integration.callback.v1"),
    ("projection.", "us360.projection.update.v1")]

  /** The first route whose prefix the name starts with. */
  function FirstRoute(routes: seq<(string, string)>, name: string): Routed
  {
    if routes == [] then NoTopic
    else if StartsWith(name, routes[0].0) then Topic(routes[0].1)
    else FirstRoute(routes[1..], name)
  }

  function TopicForEvent(name: string): Routed
  {
    FirstRoute(ROUTES, name)
  }

  /** `options.topic || getTopicForEvent(type)`. */
  function Route(e: Envelope, override: string): Routed
  {
    if override != "" then Topic(override) else TopicForEvent(e.name)
  }

  /** How the events of a call are routed. */
  type Router = Envelope -> Routed

  function RouterFor(override: string): Router
  {
    (e: Envelope) => Route(e, override)
  }

  function ToMessage(e: Envelope): Message
  {
    Message(e.partitionKey, e)
  }

  function Messages(events: seq<Envelope>): (ms: seq<Message>)
    ensures |ms| == |events| && forall i :: 0 <= i < |ms| ==> ms[i] == ToMessage(events[i])
  {
    seq(|events|, i requires 0 <= i < |events| => ToMessage(events[i]))
  }

  predicate Acceptable(e: Envelope, router: Router)
  {
    e.wellFormed && router(e).Topic?
  }

  predicate AllAcceptable(events: seq<Envelope>, router: Router)
  {
    forall i :: 0 <= i < |events| ==> Acceptable(events[i], router)
  }

  /** The error the first unacceptable event raises: validation comes before routing. */
  function Rejection(events: seq<Envelope>, router: Router): Outcome
    requires !AllAcceptable(events, router)
  {
    if !events[0].wellFormed then Invalid(events[0].id)
    else if router(events[0]).NoTopic? then Unroutable(events[0].name)
    else Rejection(events[1..], router)
  }

  // ---------------------------------------------------------------- grouping

  /** Where an event goes; events without a route go nowhere. */
  function TopicName(e: Envelope, router: Router): string
  {
    match router(e) case Topic(t) => t case NoTopic => ""
  }

  function Names(events: seq<Envelope>, router: Router): (ts: seq<string>)
    ensures |ts| == |events| && forall i :: 0 <= i < |ts| ==> ts[i] == TopicName(events[i], router)
  {
    seq(|events|, i requires 0 <= i < |events| => TopicName(events[i], router))
  }

  function GoesTo(topic: string, router: Router): Envelope -> bool
  {
    (e: Envelope) => TopicName(e, router) == topic
  }

  /** The batch of a topic: the events routed to it, in their order. */
  function BatchOf(topic: string, events: seq<Envelope>, router: Router): Batch
  {
    Batch(topic, Messages(Filter(events, GoesTo(topic, router))))
  }

  function BatchesFor(topics: seq<string>, events: seq<Envelope>, router: Router): (bs: seq<Batch>)
    ensures |bs| == |topics| && forall i :: 0 <= i < |bs| ==> bs[i] == BatchOf(topics[i], events, router)
  {
    seq(|topics|, i requires 0 <= i < |topics| => BatchOf(topics[i], events, router))
  }

  /** One batch per topic, in order of the topic's first event. */
  function Batches(events: seq<Envelope>, router: Router): seq<Batch>
  {
    BatchesFor(Unique(Names(events, router)), events, router)
  }

  /** The batches that reach the broker: those before the first refused one. */
  function Delivered(batches: seq<Batch>, accepts: string -> bool): seq<Batch>
  {
    if batches == [] || !accepts(batches[0].topic) then []
    else [batches[0]] + Delivered(batches[1..], accepts)
  }

  /** What a call of publishEvents returns, and the batches it sends. */
  function Publishing(events: seq<Envelope>, router: Router, enabled: bool,
                      accepts: string -> bool): (Outcome, seq<Batch>)
  {
    if !AllAcceptable(events, router) then (Rejection(events, router), [])
    else
      var batches := Batches(events, router);
      if !enabled then (Published(|batches|), [])
      else
        var delivered := Delivered(batches, accepts);
        if |delivered| < |batches| then (SendFailed(batches[|delivered|].topic), delivered)
        else (Published(|batches|), delivered)
  }

  /** The `Map` of groups under construction: its keys in insertion order, and its values. */
  ghost predicate Grouped(order: seq<string>, groups: map<string, seq<Message>>, events: seq<Envelope>, router: Router)
  {
    order == Unique(Names(events, router)) &&
    (forall t :: t in groups <==> t in order) &&
    forall t :: t in groups ==> groups[t] == BatchOf(t, events, router).messages
  }

  lemma BatchAppend(topic: string, events: seq<Envelope>, e: Envelope, router: Router)
    ensures BatchOf(topic, events + [e], router).messages ==
            BatchOf(topic, events, router).messages + (if TopicName(e, router) == topic then [ToMessage(e)] else [])
  {
    FilterAppend(events, e, GoesTo(topic, router));
    var kept := Filter(events, GoesTo(topic, router));
    assert Messages(kept + [e]) == Messages(kept) + [ToMessage(e)];
    assert kept + [] == kept;
  }

  lemma EmptyBatch(topic: string, events: seq<Envelope>, router: Router)
    requires topic !in Names(events, router)
    ensures BatchOf(topic, events, router).messages == []
  {
    forall i | 0 <= i < |events|
      ensures !GoesTo(topic, router)(events[i])
    {
      assert Names(events, router)[i] in Names(events, router);
    }
    FilterNone(events, GoesTo(topic, router));
  }

  lemma NamesAppend(events: seq<Envelope>, e: Envelope, router: Router)
    ensures Names(events + [e], router) == Names(events, router) + [TopicName(e, router)]
    ensures Unique(Names(events + [e], router)) ==
            if TopicName(e, router) in Names(events, router) then Unique(Names(events, router))
            else Unique(Names(events, router)) + [TopicName(e, router)]
  {
    assert Names(events + [e], router) == Names(events, router) + [TopicName(e, router)];
    UniqueAppend(Names(events, router), TopicName(e, router));
  }

  /** Adding one event to its group. */
  method AddToGroup(order: seq<string>, groups: map<string, seq<Message>>, ghost events: seq<Envelope>, e: Envelope,
                    router: Router)
    returns (order': seq<string>, groups': map<string, seq<Message>>)
    requires Grouped(order, groups, events, router)
    ensures Grouped(order', groups', events + [e], router)
  {
    var topic := TopicName(e, router);
    order', groups' := order, groups;
    if topic !in groups' {
      order' := order' + [topic];
      groups' := groups'[topic := []];
      EmptyBatch(topic, events, router);
    }
    groups' := groups'[topic := groups'[topic] + [ToMessage(e)]];
    NamesAppend(events, e, router);
    forall t | t in groups'
      ensures groups'[t] == BatchOf(t, events + [e], router).messages
    {
      BatchAppend(t, events, e, router);
    }
  }

  class KafkaProducer {
    const enabled: bool
    var sent: seq<Batch>

    constructor (enabled: bool)
      ensures this.enabled == enabled && sent == []
    {
      this.enabled := enabled;
      sent := [];
    }

    /** publishToTopic: false when the broker refuses the batch. */
    method PublishToTopic(batch: Batch, accepts: string -> bool) returns (ok: bool)
      modifies this
      ensures ok == (!enabled || accepts(batch.topic))
      ensures sent == if enabled && accepts(batch.topic) then old(sent) + [batch] else old(sent)
    {
      if !enabled {
        return true;
      }
      if !accepts(batch.topic) {
        return false;
      }
      sent := sent + [batch];
      return true;
    }

    /** publishEvents. */
    method PublishEvents(events: seq<Envelope>, override: string, accepts: string -> bool) returns (r: Outcome)
      modifies this
      ensures r == Publishing(events, RouterFor(override), enabled, accepts).0
      ensures sent == old(sent) + Publishing(events, RouterFor(override), enabled, accepts).1
    {
      r := Publish(events, RouterFor(override), accepts);
    }

    method Publish(events: seq<Envelope>, router: Router, accepts: string -> bool) returns (r: Outcome)
      modifies this
      ensures r == Publishing(events, router, enabled, accepts).0
      ensures sent == old(sent) + Publishing(events, router, enabled, accepts).1
    {
      var rejected, order, groups := GroupByTopic(events, router);
      if rejected.Some? {
        return rejected.value;
      }
      var batches := seq(|order|, i requires 0 <= i < |order| => Batch(order[i], groups[order[i]]));
      assert batches == Batches(events, router);
      r := SendAll(batches, accepts);
    }

    /** The second loop: one send per group, until one fails. */
    method SendAll(batches: seq<Batch>, accepts: string -> bool) returns (r: Outcome)
      modifies this
      ensures var delivered := Delivered(batches, accepts);
              if !enabled then r == Published(|batches|) && sent == old(sent)
              else sent == old(sent) + delivered &&
                   r == if |delivered| < |batches| then SendFailed(batches[|delivered|].topic) else Published(|batches|)
    {
      for i := 0 to |batches|
        invariant sent == old(sent) + if enabled then batches[..i] else []
        invariant enabled ==> forall k :: 0 <= k < i ==> accepts(batches[k].topic)
      {
        var ok := PublishToTopic(batches[i], accepts);
        if !ok {
          DeliveredUntil(batches, i, accepts);
          return SendFailed(batches[i].topic);
        }
        assert batches[..i + 1] == batches[..i] + [batches[i]];
      }
      if enabled {
        DeliveredUntil(batches, |batches|, accepts);
      }
      return Published(|batches|);
    }
  }

  /** The first loop of publishEvents: validate, route and group, before anything is sent. */
  method GroupByTopic(events: seq<Envelope>, router: Router)
    returns (rejected: Option<Outcome>, order: seq<string>, groups: map<string, seq<Message>>)
    ensures rejected.None? <==> AllAcceptable(events, router)
    ensures rejected.Some? ==> rejected.value == Rejection(events, router)
    ensures rejected.None? ==> Grouped(order, groups, events, router)
  {
    order, groups := [], map[];
    for i := 0 to |events|
      invariant forall k :: 0 <= k < i ==> Acceptable(events[k], router)
      invariant Grouped(order, groups, events[..i], router)
    {
      var e := events[i];
      if !e.wellFormed {
        FirstRejection(events, i, router);
        return Some(Invalid(e.id)), order, groups;
      }
      if router(e).NoTopic? {
        FirstRejection(events, i, router);
        return Some(Unroutable(e.name)), order, groups;
      }
      order, groups := AddToGroup(order, groups, events[..i], e, router);
      assert events[..i + 1] == events[..i] + [e];
    }
    assert events[..|events|] == events;
    rejected := None;
  }

  lemma {:induction false} FirstRejection(events: seq<Envelope>, i: nat, router: Router)
    requires i < |events| && !Acceptable(events[i], router)
    requires forall k :: 0 <= k < i ==> Acceptable(events[k], router)
    ensures !AllAcceptable(events, router)
    ensures Rejection(events, router) ==
            if !events[i].wellFormed then Invalid(events[i].id) else Unroutable(events[i].name)
    decreases i
  {
    if i > 0 {
      assert Acceptable(events[0], router);
      FirstRejection(events[1..], i - 1, router);
    }
  }

  lemma {:induction false} DeliveredUntil(batches: seq<Batch>, i: nat, accepts: string -> bool)
    requires i <= |batches|
    requires forall k :: 0 <= k < i ==> accepts(batches[k].topic)
    requires i < |batches| ==> !accepts(batches[i].topic)
    ensures Delivered(batches, accepts) == batches[..i]
    decreases i
  {
    if i > 0 {
      DeliveredUntil(batches[1..], i - 1, accepts);
      assert batches[..i] == [batches[0]] + batches[1..][..i - 1];
    }
  }

  // ---------------------------------------------------------------- the partition

  function Flatten(batches: seq<Batch>): seq<Message>
  {
    if batches == [] then [] else Flatten(batches[..|batches| - 1]) + batches[|batches| - 1].messages
  }

  lemma FlattenAppend(batches: seq<Batch>, b: Batch)
    ensures Flatten(batches + [b]) == Flatten(batches) + b.messages
  {
    assert (batches + [b])[..|batches|] == batches;
  }

  lemma BatchesForAppend(topics: seq<string>, topic: string, events: seq<Envelope>, router: Router)
    ensures Flatten(BatchesFor(topics + [topic], events, router)) ==
            Flatten(BatchesFor(topics, events, router)) + BatchOf(topic, events, router).messages
  {
    var b := BatchOf(topic, events, router);
    assert BatchesFor(topics + [topic], events, router) == BatchesFor(topics, events, router) + [b];
    FlattenAppend(BatchesFor(topics, events, router), b);
  }

  /** One more event adds its message to its topic's batch, and to no other. */
  lemma {:induction false} OneBatchGrows(topics: seq<string>, events: seq<Envelope>, e: Envelope, router: Router)
    requires NoRepeats(topics)
    ensures multiset(Flatten(BatchesFor(topics, events + [e], router))) ==
            multiset(Flatten(BatchesFor(topics, events, router)))
            + (if TopicName(e, router) in topics then multiset{ToMessage(e)} else multiset{})
  {
    if topics != [] {
      var init, last := topics[..|topics| - 1], topics[|topics| - 1];
      assert topics == init + [last];
      OneBatchGrows(init, events, e, router);
      BatchesForAppend(init, last, events, router);
      BatchesForAppend(init, last, events + [e], router);
      BatchAppend(last, events, e, router);
    }
  }

  /** The batches together are a permutation of the input. */
  lemma {:induction false} BatchesPermute(events: seq<Envelope>, router: Router)
    ensures multiset(Flatten(Batches(events, router))) == multiset(Messages(events))
  {
    if events != [] {
      var init, e := events[..|events| - 1], events[|events| - 1];
      assert events == init + [e];
      BatchesPermute(init, router);
      assert Messages(events) == Messages(init) + [ToMessage(e)];
      OneEventMore(init, e, router);
    }
  }

  lemma OneEventMore(events: seq<Envelope>, e: Envelope, router: Router)
    ensures multiset(Flatten(Batches(events + [e], router))) ==
            multiset(Flatten(Batches(events, router))) + multiset{ToMessage(e)}
  {
    var topics, topic := Unique(Names(events, router)), TopicName(e, router);
    NamesAppend(events, e, router);
    OneBatchGrows(topics, events, e, router);
    if topic !in topics {
      BatchesForAppend(topics, topic, events + [e], router);
      EmptyBatch(topic, events, router);
      BatchAppend(topic, events, e, router);
    }
  }

  /**
   Batching is a stable partition: distinct topics, each non-empty batch the in-order
   subsequence (at positions `at`) of the events routed to its topic, all of them together
   a permutation of the input.
   */
  lemma {:induction false} StablePartition(events: seq<Envelope>, router: Router, i: nat) returns (at: seq<nat>)
    requires AllAcceptable(events, router) && i < |Batches(events, router)|
    ensures var batch := Batches(events, router)[i];
            Positions(at, events, (e: Envelope) => router(e) == Topic(batch.topic)) &&
            at != [] && |batch.messages| == |at| &&
            forall k :: 0 <= k < |at| ==> batch.messages[k] == Message(events[at[k]].partitionKey, events[at[k]])
    ensures forall j :: 0 <= j < |Batches(events, router)| && j != i ==>
              Batches(events, router)[j].topic != Batches(events, router)[i].topic
    ensures multiset(Flatten(Batches(events, router))) == multiset(Messages(events))
  {
    BatchesPermute(events, router);
    var topics := Unique(Names(events, router));
    var topic := topics[i];
    at := FilterKeepsOrder(events, GoesTo(topic, router));
    assert topic in Names(events, router);
    var k :| 0 <= k < |events| && Names(events, router)[k] == topic;
    assert GoesTo(topic, router)(events[k]);
    assert k in at;
    forall j | 0 <= j < |events|
      ensures GoesTo(topic, router)(events[j]) == (router(events[j]) == Topic(topic))
    {
      assert Acceptable(events[j], router);
    }
  }

  /**
   An input with an unacceptable event is answered by the first of them, a malformed one by
   its id and an unroutable one by its name; validation comes before routing.
   */
  lemma {:induction false} FirstUnacceptableAnswers(events: seq<Envelope>, router: Router, enabled: bool,
                                                    accepts: string -> bool, i: nat)
    requires i < |events| && !Acceptable(events[i], router)
    requires forall k :: 0 <= k < i ==> Acceptable(events[k], router)
    ensures Publishing(events, router, enabled, accepts) ==
            (if !events[i].wellFormed then Invalid(events[i].id) else Unroutable(events[i].name), [])
  {
    FirstRejection(events, i, router);
  }

  /**
   The batches go out one by one up to the first topic the broker refuses, which is the
   answer; a disabled producer sends nothing and counts the same batches.
   */
  lemma SendsUpToRefusal(events: seq<Envelope>, router: Router, accepts: string -> bool)
    requires AllAcceptable(events, router)
    ensures var (r, sent) := Publishing(events, router, true, accepts);
            var batches := Batches(events, router);
            |sent| <= |batches| && sent == batches[..|sent|] &&
            (forall k :: 0 <= k < |sent| ==> accepts(sent[k].topic)) &&
            (if |sent| == |batches| then r == Published(|batches|)
             else !accepts(batches[|sent|].topic) && r == SendFailed(batches[|sent|].topic)) &&
            Publishing(events, router, false, accepts) == (Published(|batches|), [])
  {
    DeliveredExact(Batches(events, router), accepts);
  }

  lemma {:induction false} DeliveredExact(batches: seq<Batch>, accepts: string -> bool)
    ensures var n := |Delivered(batches, accepts)|;
            n <= |batches| && Delivered(batches, accepts) == batches[..n] &&
            (forall k :: 0 <= k < n ==> accepts(batches[k].topic)) && (n < |batches| ==> !accepts(batches[n].topic))
  {
    if batches != [] && accepts(batches[0].topic) {
      DeliveredExact(batches[1..], accepts);
      var n := |Delivered(batches[1..], accepts)|;
      assert batches[..n + 1] == [batches[0]] + batches[1..][..n];
      forall k | 0 <= k < n + 1
        ensures accepts(batches[k].topic)
      {
        assert k > 0 ==> batches[k] == batches[1..][k - 1];
      }
    }
  }

  /** If any event fails validation or routing, nothing is sent; otherwise every batch is, up to a refusal. */
  lemma AllOrNothingBeforeSending(events: seq<Envelope>, router: Router, accepts: string -> bool)
    ensures var (r, batches) := Publishing(events, router, true, accepts);
            ((r.Invalid? || r.Unroutable?) <==> !AllAcceptable(events, router)) &&
            (!AllAcceptable(events, router) ==> batches == []) &&
            (AllAcceptable(events, router) ==> batches <= Batches(events, router)) &&
            (r.Published? <==> batches == Batches(events, router) && AllAcceptable(events, router))
  {
    if AllAcceptable(events, router) {
      DeliveredPrefix(Batches(events, router), accepts);
    } else {
      RejectionKind(events, router);
    }
  }

  lemma {:induction false} DeliveredPrefix(batches: seq<Batch>, accepts: string -> bool)
    ensures Delivered(batches, accepts) <= batches
  {
    if batches != [] && accepts(batches[0].topic) {
      DeliveredPrefix(batches[1..], accepts);
    }
  }

  lemma {:induction false} RejectionKind(events: seq<Envelope>, router: Router)
    requires !AllAcceptable(events, router)
    ensures Rejection(events, router).Invalid? || Rejection(events, router).Unroutable?
  {
    if Acceptable(events[0], router) {
      RejectionKind(events[1..], router);
    }
  }

  /** No name matches two routes, so the order of the routing rules does not matter. */
  lemma RoutesExclusive(name: string, i: nat, j: nat)
    requires i < j < |ROUTES|
    ensures !(StartsWith(name, ROUTES[i].0) && StartsWith(name, ROUTES[j].0))
  {
    var a, b := ROUTES[i].0, ROUTES[j].0;
    var k := if a[0] != b[0] then 0 else if a[1] != b[1] then 1 else if a[2] != b[2] then 2 else 12;
    assert k < |a| && k < |b| && a[k] != b[k];
    assert StartsWith(name, a) ==> name[k] == a[k];
  }

  lemma {:induction false} FirstRouteExact(routes: seq<(string, string)>, name: string)
    ensures match FirstRoute(routes, name)
            case Topic(t) => exists i :: 0 <= i < |routes| && StartsWith(name, routes[i].0) && t == routes[i].1
            case NoTopic => forall i :: 0 <= i < |routes| ==> !StartsWith(name, routes[i].0)
  {
    if routes != [] && !StartsWith(name, routes[0].0) {
      FirstRouteExact(routes[1..], name);
      match FirstRoute(routes[1..], name)
      case Topic(t) =>
        var i :| 0 <= i < |routes| - 1 && StartsWith(name, routes[1..][i].0) && t == routes[1..][i].1;
        assert routes[1..][i] == routes[i + 1];
      case NoTopic =>
        forall i | 0 <= i < |routes|
          ensures !StartsWith(name, routes[i].0)
        {
          assert i > 0 ==> routes[i] == routes[1..][i - 1];
        }
    }
  }

  /**
   A given topic wins; otherwise an event goes to the topic of the one prefix its name
   starts with, and is unroutable exactly when it starts with none.
   */
  lemma {:induction false} RouteExact(e: Envelope, override: string, i: nat)
    requires i < |ROUTES|
    ensures override != "" ==> RouterFor(override)(e) == Topic(override)
    ensures override == "" && StartsWith(e.name, ROUTES[i].0) ==> RouterFor(override)(e) == Topic(ROUTES[i].1)
    ensures override == "" ==>
              (RouterFor(override)(e).NoTopic? <==>
               forall j :: 0 <= j < |ROUTES| ==> !StartsWith(e.name, ROUTES[j].0))
  {
    if override == "" {
      assert RouterFor(override)(e) == FirstRoute(ROUTES, e.name);
      FirstRouteExact(ROUTES, e.name);
      if StartsWith(e.name, ROUTES[i].0) {
        var j: nat :| j < |ROUTES| && StartsWith(e.name, ROUTES[j].0) &&
          FirstRoute(ROUTES, e.name) == Topic(ROUTES[j].1);
        if i < j {
          RoutesExclusive(e.name, i, j);
        } else if j < i {
          RoutesExclusive(e.name, j, i);
        }
      }
    }
  }
}
