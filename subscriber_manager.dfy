/**
 * The client-side registry of actor event subscriptions (remoting V1). It
 * keeps three dictionaries in step: subscriber key to subscription,
 * subscription id to subscription, and event interface id to the event
 * dispatcher. Incoming one-way event messages are dispatched to a
 * subscriber only when every lookup succeeds.
 *
 * Subscription ids are GUIDs in the source; here each new subscription takes
 * the next number of a counter, which gives the uniqueness GUIDs are relied
 * on for. Header parsing, the interface-type id the id utility computes and
 * the dispatch itself are carried as data.
 */
module ActorEventSubscriptions {
  import opened Wrappers
  import opened ActorIds

  /** An event interface type with the id the id utility computes for it. */
  datatype EventInterfaceType = EventInterfaceType(fullName: string, computedId: int)

  /** The identity of a subscriber object. */
  datatype ObjectRef = ObjectRef(handle: nat)

  datatype Subscriber = Subscriber(actorId: ActorId, eventId: int, instance: ObjectRef)

  /** An event dispatcher, identified by the event interface it serves. */
  datatype ActorMethodDispatcher = ActorMethodDispatcher(interfaceId: int, name: string)

  /** The actor headers of a one-way message, with the subscription id its actor id carries. */
  datatype ActorMessageHeaders = ActorMessageHeaders(interfaceId: int, methodId: int, subscriptionId: nat)

  /** A call handed to an event dispatcher. */
  datatype EventDispatch = EventDispatch(dispatcher: ActorMethodDispatcher, instance: ObjectRef,
                                         methodId: int, body: seq<bv8>)

  /** The `ArgumentException` for an event interface with no registered dispatcher. */
  datatype ArgumentException = ArgumentException(eventInterfaceType: EventInterfaceType)

  class SubscriptionInfo {
    const id: nat
    const subscriber: Subscriber
    var isActive: bool

    constructor (k: Subscriber, subscriptionId: nat)
      ensures subscriber == k && id == subscriptionId && isActive
    {
      subscriber := k;
      id := subscriptionId;
      isActive := true;
    }
  }

  /** The dispatcher map after offering each dispatcher in turn; an id already present keeps its
      dispatcher. */
  function AddDispatchers(m: map<int, ActorMethodDispatcher>, ds: seq<ActorMethodDispatcher>)
    : (r: map<int, ActorMethodDispatcher>)
    ensures m.Keys <= r.Keys && forall id :: id in m ==> r[id] == m[id]
    ensures forall i :: 0 <= i < |ds| ==> ds[i].interfaceId in r
  {
    if ds == [] then m
    else
      var prior := AddDispatchers(m, ds[..|ds| - 1]);
      var d := ds[|ds| - 1];
      if d.interfaceId in prior then prior else prior[d.interfaceId := d]
  }

  /** The first dispatcher offered for `id`, if any. */
  function FirstFor(ds: seq<ActorMethodDispatcher>, id: int): (r: Option<ActorMethodDispatcher>)
    ensures r.None? <==> forall i :: 0 <= i < |ds| ==> ds[i].interfaceId != id
    ensures r.Some? ==> r.value in ds && r.value.interfaceId == id
  {
    if ds == [] then None
    else if ds[0].interfaceId == id then Some(ds[0])
    else FirstFor(ds[1..], id)
  }

  lemma FirstForPrefix(ds: seq<ActorMethodDispatcher>, id: int)
    requires ds != []
    ensures FirstFor(ds, id) == match FirstFor(ds[..|ds| - 1], id)
              case Some(d) => Some(d)
              case None => if ds[|ds| - 1].interfaceId == id then Some(ds[|ds| - 1]) else None
    decreases |ds|
  {
    if ds[0].interfaceId != id && |ds| > 1 {
      assert ds[1..][..|ds[1..]| - 1] == ds[..|ds| - 1][1..];
      FirstForPrefix(ds[1..], id);
    }
  }

  /** Registration keeps the first dispatcher per interface id: one already registered stays, and
      otherwise the first one offered wins. */
  lemma {:induction false} AddDispatchersAt(m: map<int, ActorMethodDispatcher>, ds: seq<ActorMethodDispatcher>, id: int)
    ensures var r := AddDispatchers(m, ds);
            && (id in r <==> id in m || FirstFor(ds, id).Some?)
            && (id in m ==> r[id] == m[id])
            && (id !in m && FirstFor(ds, id).Some? ==> r[id] == FirstFor(ds, id).value)
    decreases |ds|
  {
    if ds != [] {
      AddDispatchersAt(m, ds[..|ds| - 1], id);
      FirstForPrefix(ds, id);
    }
  }

  class ActorEventSubscriberManager {
    var eventKeyToInfoMap: map<Subscriber, SubscriptionInfo>
    var subscriptionIdToInfoMap: map<nat, SubscriptionInfo>
    var eventIdToDispatchersMap: map<int, ActorMethodDispatcher>
    /** The next subscription id to issue. */
    var nextSubscriptionId: nat

    /** The two subscription maps hold the same active subscriptions, each under its own key and
        its own id, and every issued id is below the counter. */
    ghost predicate Valid()
      reads this, eventKeyToInfoMap.Values, subscriptionIdToInfoMap.Values
    {
      && (forall k :: k in eventKeyToInfoMap ==>
            var info := eventKeyToInfoMap[k];
            && info.subscriber == k && info.isActive && info.id < nextSubscriptionId
            && info.id in subscriptionIdToInfoMap && subscriptionIdToInfoMap[info.id] == info)
      && (forall g :: g in subscriptionIdToInfoMap ==>
            var info := subscriptionIdToInfoMap[g];
            && info.id == g && info.subscriber in eventKeyToInfoMap
            && eventKeyToInfoMap[info.subscriber] == info)
    }

    constructor ()
      ensures Valid()
      ensures eventKeyToInfoMap == map[] && subscriptionIdToInfoMap == map[] && eventIdToDispatchersMap == map[]
    {
      eventKeyToInfoMap := map[];
      subscriptionIdToInfoMap := map[];
      eventIdToDispatchersMap := map[];
      nextSubscriptionId := 0;
    }

    /** Offers each dispatcher in turn; an absent sequence is ignored. */
    method RegisterEventDispatchers(eventDispatchers: Option<seq<ActorMethodDispatcher>>)
      modifies this`eventIdToDispatchersMap
      ensures eventDispatchers.None? ==> eventIdToDispatchersMap == old(eventIdToDispatchersMap)
      ensures eventDispatchers.Some? ==>
                eventIdToDispatchersMap == AddDispatchers(old(eventIdToDispatchersMap), eventDispatchers.value)
    {
      if eventDispatchers.Some? {
        var ds := eventDispatchers.value;
        var i := 0;
        while i < |ds|
          invariant 0 <= i <= |ds|
          invariant eventIdToDispatchersMap == AddDispatchers(old(eventIdToDispatchersMap), ds[..i])
        {
          assert ds[..i + 1][..i] == ds[..i];
          var dispatcher := ds[i];
          if dispatcher.interfaceId !in eventIdToDispatchersMap {
            eventIdToDispatchersMap := eventIdToDispatchersMap[dispatcher.interfaceId := dispatcher];
          }
          i := i + 1;
        }
        assert ds[..i] == ds;
      }
    }

    /** The event id of an interface type, provided a dispatcher serves it. */
    function GetAndEnsureEventId(eventInterfaceType: EventInterfaceType): (r: Result<int, ArgumentException>)
      reads this
      ensures r.Success? <==> eventInterfaceType.computedId in eventIdToDispatchersMap
      ensures r.Success? ==> r.value == eventInterfaceType.computedId
      ensures r.Failure? ==> r.error == ArgumentException(eventInterfaceType)
    {
      var eventId := eventInterfaceType.computedId;
      if eventId in eventIdToDispatchersMap then Success(eventId) else Failure(ArgumentException(eventInterfaceType))
    }

    /** Registers a subscriber, or returns its existing subscription: the same (actor, event,
        instance) always yields the same subscription, held by both maps. */
    method RegisterSubscriber(actorId: ActorId, eventInterfaceType: EventInterfaceType, instance: ObjectRef)
      returns (r: Result<SubscriptionInfo, ArgumentException>)
      requires Valid()
      modifies this
      ensures Valid()
      ensures eventIdToDispatchersMap == old(eventIdToDispatchersMap)
      ensures r.Failure? <==> eventInterfaceType.computedId !in eventIdToDispatchersMap
      ensures r.Failure? ==>
                && eventKeyToInfoMap == old(eventKeyToInfoMap) && subscriptionIdToInfoMap == old(subscriptionIdToInfoMap)
                && r.error == ArgumentException(eventInterfaceType)
      ensures r.Success? ==>
                var key := Subscriber(actorId, eventInterfaceType.computedId, instance);
                && r.value.subscriber == key && r.value.isActive
                && key in eventKeyToInfoMap && eventKeyToInfoMap[key] == r.value
                && r.value.id in subscriptionIdToInfoMap && subscriptionIdToInfoMap[r.value.id] == r.value
      ensures r.Success? && Subscriber(actorId, eventInterfaceType.computedId, instance) in old(eventKeyToInfoMap) ==>
                && r.value == old(eventKeyToInfoMap)[Subscriber(actorId, eventInterfaceType.computedId, instance)]
                && eventKeyToInfoMap == old(eventKeyToInfoMap) && subscriptionIdToInfoMap == old(subscriptionIdToInfoMap)
      ensures r.Success? && Subscriber(actorId, eventInterfaceType.computedId, instance) !in old(eventKeyToInfoMap) ==>
                && fresh(r.value)
                && eventKeyToInfoMap == old(eventKeyToInfoMap)[r.value.subscriber := r.value]
                && subscriptionIdToInfoMap == old(subscriptionIdToInfoMap)[r.value.id := r.value]
    ensures r.Success? ==>
              forall methodId, body ::
                OneWayMessage(Some(ActorMessageHeaders(eventInterfaceType.computedId, methodId, r.value.id)), body)
                == Some(EventDispatch(eventIdToDispatchersMap[eventInterfaceType.computedId], instance, methodId, body))
    {
      var eventId := GetAndEnsureEventId(eventInterfaceType);
      if eventId.Failure? {
        return Failure(eventId.error);
      }
      var key := Subscriber(actorId, eventId.value, instance);
      var info: SubscriptionInfo;
      if key in eventKeyToInfoMap {
        info := eventKeyToInfoMap[key];
      } else {
        info := new SubscriptionInfo(key, nextSubscriptionId);
        nextSubscriptionId := nextSubscriptionId + 1;
        assert info.id !in subscriptionIdToInfoMap;
        eventKeyToInfoMap := eventKeyToInfoMap[key := info];
      }
      if info.id !in subscriptionIdToInfoMap {
        subscriptionIdToInfoMap := subscriptionIdToInfoMap[info.id := info];
      }
      r := Success(info);
    }

    /** Removes a registered subscriber from both maps and marks its subscription inactive; an
        unknown subscriber leaves everything as it was. */
    method TryUnregisterSubscriber(actorId: ActorId, eventInterfaceType: EventInterfaceType, instance: ObjectRef)
      returns (r: Result<bool, ArgumentException>, info: Option<SubscriptionInfo>)
      requires Valid()
      modifies this, eventKeyToInfoMap.Values
      ensures Valid()
      ensures eventIdToDispatchersMap == old(eventIdToDispatchersMap) && nextSubscriptionId == old(nextSubscriptionId)
      ensures r.Failure? <==> eventInterfaceType.computedId !in eventIdToDispatchersMap
      ensures r.Failure? ==> r.error == ArgumentException(eventInterfaceType)
      ensures var key := Subscriber(actorId, eventInterfaceType.computedId, instance);
              r == Success(true) <==> r.Success? && key in old(eventKeyToInfoMap)
      ensures r == Success(true) ==>
                var key := Subscriber(actorId, eventInterfaceType.computedId, instance);
                && info == Some(old(eventKeyToInfoMap)[key]) && !info.value.isActive
                && eventKeyToInfoMap == old(eventKeyToInfoMap) - {key}
                && subscriptionIdToInfoMap == old(subscriptionIdToInfoMap) - {info.value.id}
      ensures r != Success(true) ==>
                && info.None?
                && eventKeyToInfoMap == old(eventKeyToInfoMap) && subscriptionIdToInfoMap == old(subscriptionIdToInfoMap)
                && forall i :: i in old(eventKeyToInfoMap.Values) ==> i.isActive == old(i.isActive)
    ensures r == Success(true) ==>
              forall interfaceId, methodId, body ::
                OneWayMessage(Some(ActorMessageHeaders(interfaceId, methodId, info.value.id)), body).None?
    {
      info := None;
      var eventId := GetAndEnsureEventId(eventInterfaceType);
      if eventId.Failure? {
        return Failure(eventId.error), None;
      }
      var key := Subscriber(actorId, eventId.value, instance);
      if key in eventKeyToInfoMap {
        var removed := eventKeyToInfoMap[key];
        eventKeyToInfoMap := eventKeyToInfoMap - {key};
        removed.isActive := false;
        subscriptionIdToInfoMap := subscriptionIdToInfoMap - {removed.id};
        info := Some(removed);
        return Success(true), info;
      }
      r := Success(false);
    }

    /** Dispatches a one-way event message when the headers parse, a dispatcher serves the
        interface, the subscription is registered and subscribed to that very interface; in every
        other case the message is dropped. What the dispatcher then does, including any exception,
        does not reach the caller. */
    function OneWayMessage(actorHeaders: Option<ActorMessageHeaders>, requestBody: seq<bv8>): (r: Option<EventDispatch>)
      reads this, subscriptionIdToInfoMap.Values
      ensures r.Some? <==>
                && actorHeaders.Some?
                && actorHeaders.value.interfaceId in eventIdToDispatchersMap
                && actorHeaders.value.subscriptionId in subscriptionIdToInfoMap
                && subscriptionIdToInfoMap[actorHeaders.value.subscriptionId].subscriber.eventId == actorHeaders.value.interfaceId
      ensures r.Some? ==>
                var h := actorHeaders.value;
                r.value == EventDispatch(eventIdToDispatchersMap[h.interfaceId],
                                         subscriptionIdToInfoMap[h.subscriptionId].subscriber.instance,
                                         h.methodId, requestBody)
    {
      match actorHeaders
      case None => None
      case Some(h) =>
        if h.interfaceId !in eventIdToDispatchersMap then None
        else if h.subscriptionId !in subscriptionIdToInfoMap then None
        else
          var info := subscriptionIdToInfoMap[h.subscriptionId];
          if info.subscriber.eventId != h.interfaceId then None
          else Some(EventDispatch(eventIdToDispatchersMap[h.interfaceId], info.subscriber.instance, h.methodId, requestBody))
    }
  }

  /** Delivery goes exactly to registered subscribers: a message is dispatched when a dispatcher
      serves its interface and a subscriber registered for that interface holds its subscription
      id, and then to that subscriber's instance. */
  lemma DeliveredExactlyToRegistered(mgr: ActorEventSubscriberManager, h: ActorMessageHeaders, body: seq<bv8>)
    requires mgr.Valid()
    ensures mgr.OneWayMessage(Some(h), body).Some? <==>
              && h.interfaceId in mgr.eventIdToDispatchersMap
              && exists k :: k in mgr.eventKeyToInfoMap && mgr.eventKeyToInfoMap[k].id == h.subscriptionId
                             && k.eventId == h.interfaceId
    ensures forall k :: k in mgr.eventKeyToInfoMap && mgr.eventKeyToInfoMap[k].id == h.subscriptionId
                        && k.eventId == h.interfaceId && h.interfaceId in mgr.eventIdToDispatchersMap ==>
              mgr.OneWayMessage(Some(h), body)
              == Some(EventDispatch(mgr.eventIdToDispatchersMap[h.interfaceId], k.instance, h.methodId, body))
  {
    if h.subscriptionId in mgr.subscriptionIdToInfoMap {
      var info := mgr.subscriptionIdToInfoMap[h.subscriptionId];
      assert info.subscriber in mgr.eventKeyToInfoMap;
    }
  }

  /** Registering the same subscriber twice yields the same subscription; after unregistering it,
      messages for it are dropped, and unregistering again reports false. */
  method SubscriptionLifecycle()
    returns (same: bool, delivered: Option<EventDispatch>, droppedAfter: Option<EventDispatch>, again: Result<bool, ArgumentException>)
    ensures same
    ensures delivered == Some(EventDispatch(ActorMethodDispatcher(5, "IEvents"), ObjectRef(1), 2, []))
    ensures droppedAfter.None? && again == Success(false)
  {
    var m := new ActorEventSubscriberManager();
    var events := EventInterfaceType("IEvents", 5);
    m.RegisterEventDispatchers(Some([ActorMethodDispatcher(5, "IEvents"), ActorMethodDispatcher(5, "Other")]));
    AddDispatchersAt(map[], [ActorMethodDispatcher(5, "IEvents"), ActorMethodDispatcher(5, "Other")], 5);
    assert m.eventIdToDispatchersMap[5] == ActorMethodDispatcher(5, "IEvents");
    var first := m.RegisterSubscriber(ActorId("a"), events, ObjectRef(1));
    var second := m.RegisterSubscriber(ActorId("a"), events, ObjectRef(1));
    same := first == second;
    var id := first.value.id;
    delivered := m.OneWayMessage(Some(ActorMessageHeaders(5, 2, id)), []);
    var removed, info1 := m.TryUnregisterSubscriber(ActorId("a"), events, ObjectRef(1));
    assert removed == Success(true);
    assert id !in m.subscriptionIdToInfoMap;
    droppedAfter := m.OneWayMessage(Some(ActorMessageHeaders(5, 2, id)), []);
    var info2;
    assert Subscriber(ActorId("a"), 5, ObjectRef(1)) !in m.eventKeyToInfoMap;
    again, info2 := m.TryUnregisterSubscriber(ActorId("a"), events, ObjectRef(1));
    assert again.Success? && again != Success(true);
    assert !again.value;
  }
}
