/**
 * Request routing in the V2 actor service remoting dispatcher: which handler
 * a request message goes to, how dispatch headers naming an interface and a
 * method by name are turned into actor headers, how event-subscription
 * requests are told apart, and the start/finish diagnostics bracket around
 * every actor method dispatch.
 *
 * The event-subscription interface and method ids, the code builder's table
 * of known interfaces and the generated call context are given as data; the
 * handlers themselves are represented by what they are handed.
 */
module ActorServiceRemotingDispatchers {
  import opened Wrappers
  import opened ActorIds

  /** The ids the event-subscription pseudo-interface uses. */
  datatype SubscriptionIds = SubscriptionIds(interfaceId: int, subscribeMethodId: int, unsubscribeMethodId: int)

  datatype ActorHeaders = ActorHeaders(actorId: ActorId, interfaceId: int, methodId: int, callContext: string)

  /** A request header: actor remoting headers, or plain service headers. */
  datatype RequestHeader =
    | ActorRequestHeader(actor: ActorHeaders)
    | ServiceRequestHeader(interfaceId: int, methodId: int)
  {
    function InterfaceId(): int
    {
      match this
      case ActorRequestHeader(a) => a.interfaceId
      case ServiceRequestHeader(i, _) => i
    }
  }

  datatype RequestMessage = RequestMessage(header: Option<RequestHeader>, body: seq<bv8>)

  datatype ArgumentNull = ArgumentNull(paramName: string)

  /** The handler a request message is given to. */
  datatype Route =
    | SubscriptionRequest(headers: ActorHeaders, body: seq<bv8>)
    | ActorMethodDispatch(headers: ActorHeaders, body: seq<bv8>)
    | ServiceDispatch(message: RequestMessage)

  /** Routes a request message: actor headers on the subscription interface go to subscription
      handling, other actor headers to actor dispatch, and anything else to the service
      dispatcher; a missing message or header is rejected. */
  function HandleRequestResponse(ids: SubscriptionIds, requestMessage: Option<RequestMessage>): (r: Result<Route, ArgumentNull>)
    ensures r == Failure(ArgumentNull("requestMessage")) <==> requestMessage.None?
    ensures r == Failure(ArgumentNull("RequestMessageHeader")) <==> requestMessage.Some? && requestMessage.value.header.None?
    ensures r.Success? ==> requestMessage.Some? && requestMessage.value.header.Some?
    ensures r.Success? && r.value.ServiceDispatch? <==>
              requestMessage.Some? && requestMessage.value.header.Some? && requestMessage.value.header.value.ServiceRequestHeader?
    ensures r.Success? && r.value.ServiceDispatch? ==> r.value.message == requestMessage.value
    ensures r.Success? && !r.value.ServiceDispatch? ==>
              requestMessage.value.header == Some(ActorRequestHeader(r.value.headers)) && r.value.body == requestMessage.value.body
              && (r.value.SubscriptionRequest? <==> r.value.headers.interfaceId == ids.interfaceId)
  {
    match requestMessage
    case None => Failure(ArgumentNull("requestMessage"))
    case Some(m) =>
      match m.header
      case None => Failure(ArgumentNull("RequestMessageHeader"))
      case Some(ActorRequestHeader(a)) =>
        if a.interfaceId == ids.interfaceId then Success(SubscriptionRequest(a, m.body))
        else Success(ActorMethodDispatch(a, m.body))
      case Some(ServiceRequestHeader(_, _)) => Success(ServiceDispatch(m))
  }

  /** Dispatch headers that name the interface and the method instead of giving their ids.
      `None` stands for a null string. */
  datatype ActorRemotingDispatchHeaders = ActorRemotingDispatchHeaders(
    actorId: ActorId,
    serviceInterfaceName: Option<string>,
    actorInterfaceName: string,
    methodName: string,
    callContext: Option<string>)

  /** What the code builder knows of an actor interface: its id and its method ids by name. */
  datatype InterfaceDetails = InterfaceDetails(id: int, methodNames: map<string, int>)

  datatype NotSupported = NotSupported(message: string)

  predicate IsNullOrEmpty(s: Option<string>)
  {
    s.None? || s.value == ""
  }

  /** Actor headers for named dispatch headers: the interface and the method are looked up by
      name, the actor id is copied, and the caller's call context is kept unless it is null or
      empty, in which case a generated one is used. */
  function CreateActorHeader(dispatchHeaders: ActorRemotingDispatchHeaders, knownTypes: map<string, InterfaceDetails>,
                             generatedCallContext: string): (r: Result<ActorHeaders, NotSupported>)
    ensures r.Success? <==>
              && dispatchHeaders.actorInterfaceName in knownTypes
              && dispatchHeaders.methodName in knownTypes[dispatchHeaders.actorInterfaceName].methodNames
    ensures dispatchHeaders.actorInterfaceName !in knownTypes ==>
              r == Failure(NotSupported("This Actor Interface is not Supported" + dispatchHeaders.actorInterfaceName))
    ensures dispatchHeaders.actorInterfaceName in knownTypes
            && dispatchHeaders.methodName !in knownTypes[dispatchHeaders.actorInterfaceName].methodNames ==>
              r == Failure(NotSupported("This Actor Method is not Supported" + dispatchHeaders.methodName))
    ensures r.Success? ==>
              var details := knownTypes[dispatchHeaders.actorInterfaceName];
              && r.value.actorId == dispatchHeaders.actorId
              && r.value.interfaceId == details.id
              && r.value.methodId == details.methodNames[dispatchHeaders.methodName]
              && r.value.callContext == (if IsNullOrEmpty(dispatchHeaders.callContext) then generatedCallContext
                                         else dispatchHeaders.callContext.value)
  {
    if dispatchHeaders.actorInterfaceName in knownTypes then
      var details := knownTypes[dispatchHeaders.actorInterfaceName];
      var callContext := if IsNullOrEmpty(dispatchHeaders.callContext) then generatedCallContext
                         else dispatchHeaders.callContext.value;
      if dispatchHeaders.methodName in details.methodNames then
        Success(ActorHeaders(dispatchHeaders.actorId, details.id, details.methodNames[dispatchHeaders.methodName], callContext))
      else
        Failure(NotSupported("This Actor Method is not Supported" + dispatchHeaders.methodName))
    else
      Failure(NotSupported("This Actor Interface is not Supported" + dispatchHeaders.actorInterfaceName))
  }

  /** The path a named dispatch takes. */
  datatype DispatchRoute = ServicePath(dispatchHeaders: ActorRemotingDispatchHeaders) | ActorPath(actorHeaders: ActorHeaders)

  /** Dispatch by name: a service interface name sends the request to the service path without
      any lookup; otherwise actor headers are built and the request goes to actor dispatch. */
  function HandleDispatchHeaders(dispatchHeaders: ActorRemotingDispatchHeaders, knownTypes: map<string, InterfaceDetails>,
                                 generatedCallContext: string): (r: Result<DispatchRoute, NotSupported>)
    ensures !IsNullOrEmpty(dispatchHeaders.serviceInterfaceName) ==> r == Success(ServicePath(dispatchHeaders))
    ensures IsNullOrEmpty(dispatchHeaders.serviceInterfaceName) ==>
              match CreateActorHeader(dispatchHeaders, knownTypes, generatedCallContext)
              case Success(h) => r == Success(ActorPath(h))
              case Failure(e) => r == Failure(e)
  {
    if !IsNullOrEmpty(dispatchHeaders.serviceInterfaceName) then Success(ServicePath(dispatchHeaders))
    else
      match CreateActorHeader(dispatchHeaders, knownTypes, generatedCallContext)
      case Success(h) => Success(ActorPath(h))
      case Failure(e) => Failure(e)
  }

  /** The decoded body of a subscription request. */
  datatype EventSubscriptionRequestBody = EventSubscriptionRequestBody(eventInterfaceId: int, subscriptionId: nat)

  /** The call a subscription request makes on the actor manager. */
  datatype SubscriptionAction =
    | Subscribe(actorId: ActorId, eventInterfaceId: int, subscriptionId: nat)
    | Unsubscribe(actorId: ActorId, eventInterfaceId: int, subscriptionId: nat)

  datatype MissingMethod = MissingMethod(methodId: int)

  /** A subscription request subscribes on the subscribe method id, unsubscribes on the
      unsubscribe method id, and is rejected for any other method id. */
  function HandleSubscriptionRequests(ids: SubscriptionIds, headers: ActorHeaders, body: EventSubscriptionRequestBody)
    : (r: Result<SubscriptionAction, MissingMethod>)
    ensures r.Failure? <==> headers.methodId != ids.subscribeMethodId && headers.methodId != ids.unsubscribeMethodId
    ensures r.Failure? ==> r.error == MissingMethod(headers.methodId)
    ensures r.Success? ==>
              && r.value.actorId == headers.actorId
              && r.value.eventInterfaceId == body.eventInterfaceId
              && r.value.subscriptionId == body.subscriptionId
              && (r.value.Subscribe? <==> headers.methodId == ids.subscribeMethodId)
  {
    if headers.methodId == ids.subscribeMethodId then
      Success(Subscribe(headers.actorId, body.eventInterfaceId, body.subscriptionId))
    else if headers.methodId == ids.unsubscribeMethodId then
      Success(Unsubscribe(headers.actorId, body.eventInterfaceId, body.subscriptionId))
    else
      Failure(MissingMethod(headers.methodId))
  }

  /** Named dispatch of a service interface never consults the known-types table. */
  lemma ServicePathIgnoresKnownTypes(dh: ActorRemotingDispatchHeaders, k1: map<string, InterfaceDetails>,
                                     k2: map<string, InterfaceDetails>, g1: string, g2: string)
    requires !IsNullOrEmpty(dh.serviceInterfaceName)
    ensures HandleDispatchHeaders(dh, k1, g1) == HandleDispatchHeaders(dh, k2, g2)
  {
  }

  /** The diagnostics the dispatcher raises around actor method dispatch. */
  datatype ProcessingEvent = RequestProcessingStart | RequestProcessingFinish(processingTime: int)

  /** Every start is immediately matched by its finish. */
  ghost predicate Bracketed(events: seq<ProcessingEvent>)
  {
    && |events| % 2 == 0
    && forall i :: 0 <= i < |events| ==> (events[i].RequestProcessingStart? <==> i % 2 == 0)
  }

  /** What the actor manager's dispatch produced: a response body or an exception. */
  datatype DispatchFault = DispatchFault(message: string)

  class ActorServiceRemotingDispatcher {
    var processingEvents: seq<ProcessingEvent>

    constructor ()
      ensures processingEvents == [] && Bracketed(processingEvents)
    {
      processingEvents := [];
    }

    /** Actor dispatch of a named request: the outcome of the dispatch, exception or not, comes
        back unchanged, and a finish event always follows the start event. */
    method HandleActorMethodDispatch(outcome: Result<seq<bv8>, DispatchFault>, startTime: int, finishTime: int)
      returns (r: Result<seq<bv8>, DispatchFault>)
      requires Bracketed(processingEvents)
      modifies this
      ensures Bracketed(processingEvents)
      ensures r == outcome
      ensures processingEvents == old(processingEvents) + [RequestProcessingStart, RequestProcessingFinish(finishTime - startTime)]
    {
      processingEvents := processingEvents + [RequestProcessingStart];
      r := outcome;
      processingEvents := processingEvents + [RequestProcessingFinish(finishTime - startTime)];
    }

    /** Actor dispatch of a request message: a cancellation request is handed to the cancellation
        helper and answers with no response, outside the bracket; otherwise as above, with the
        body wrapped in a response message. */
    method HandleActorMessageDispatch(isCancellationRequest: bool, outcome: Result<seq<bv8>, DispatchFault>,
                                      startTime: int, finishTime: int)
      returns (r: Result<Option<seq<bv8>>, DispatchFault>)
      requires Bracketed(processingEvents)
      modifies this
      ensures Bracketed(processingEvents)
      ensures isCancellationRequest ==> r == Success(None) && processingEvents == old(processingEvents)
      ensures !isCancellationRequest ==>
                && processingEvents == old(processingEvents) + [RequestProcessingStart, RequestProcessingFinish(finishTime - startTime)]
                && (outcome.Success? ==> r == Success(Some(outcome.value)))
                && (outcome.Failure? ==> r == Failure(outcome.error))
    {
      if isCancellationRequest {
        return Success(None);
      }
      var body := HandleActorMethodDispatch(outcome, startTime, finishTime);
      r := match body case Success(b) => Success(Some(b)) case Failure(e) => Failure(e);
    }
  }
}
