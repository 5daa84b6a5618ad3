/**
 * The service proxy factory that picks a remoting stack. It holds an
 * optional V1 and an optional V2 proxy factory; when neither exists the
 * first proxy request asks the interface's remoting provider which client it
 * uses and creates that factory, once. A factory chosen through the provider
 * on V2 also substitutes the default V2 listener name when the caller names
 * none. This is the full .NET Framework build, where the V1 stack exists.
 *
 * The provider attribute found for an interface and the default V2 listener
 * name are given as data; a proxy is represented by the factory that made it
 * and the arguments it was made with.
 */
module ServiceProxyFactories {
  import opened Wrappers

  /** The remoting client a provider attribute names. */
  datatype RemotingClient = V1Client | V2Client

  /** The remoting provider attribute found for a service interface. */
  datatype ServiceRemotingProvider = ServiceRemotingProvider(name: string, remotingClient: RemotingClient)

  /** Where a stack's remoting client factory comes from. */
  datatype ClientFactorySource = FromProvider(provider: ServiceRemotingProvider) | Supplied(factoryName: string)

  datatype RetrySettings = RetrySettings(maxRetryCount: nat)

  datatype StackFactory = StackFactory(source: ClientFactorySource, retrySettings: Option<RetrySettings>)

  datatype Stack = V1Stack | V2Stack

  /** A proxy, as the stack factory that made it and the arguments it got. */
  datatype ServiceProxy = ServiceProxy(stack: Stack, factory: StackFactory, serviceUri: string,
                                       listenerName: Option<string>, nonIService: bool)

  class ServiceProxyFactory {
    var retrySettings: Option<RetrySettings>
    var proxyFactoryV1: Option<StackFactory>
    var proxyFactoryV2: Option<StackFactory>
    var overrideListenerName: bool

    /** The listener name is overridden only on a V2 stack chosen through the provider, which
        happens only while no V1 factory exists. */
    ghost predicate Valid()
      reads this
    {
      overrideListenerName ==> proxyFactoryV2.Some? && proxyFactoryV1.None?
    }

    /** Both stacks unset: the first proxy request chooses. */
    constructor (retrySettings: Option<RetrySettings>)
      ensures Valid()
      ensures this.retrySettings == retrySettings && proxyFactoryV1.None? && proxyFactoryV2.None? && !overrideListenerName
    {
      this.retrySettings := retrySettings;
      proxyFactoryV1 := None;
      proxyFactoryV2 := None;
      overrideListenerName := false;
    }

    /** An explicit V1 stack. The retry settings go to that stack only; the factory's own field is
        left unset. */
    constructor WithV1(createServiceRemotingClientFactory: string, retrySettings: Option<RetrySettings>)
      ensures Valid()
      ensures this.retrySettings.None? && !overrideListenerName && proxyFactoryV2.None?
      ensures proxyFactoryV1 == Some(StackFactory(Supplied(createServiceRemotingClientFactory), retrySettings))
    {
      this.retrySettings := None;
      proxyFactoryV1 := Some(StackFactory(Supplied(createServiceRemotingClientFactory), retrySettings));
      proxyFactoryV2 := None;
      overrideListenerName := false;
    }

    /** An explicit V2 stack, likewise. */
    constructor WithV2(createServiceRemotingClientFactory: string, retrySettings: Option<RetrySettings>)
      ensures Valid()
      ensures this.retrySettings.None? && !overrideListenerName && proxyFactoryV1.None?
      ensures proxyFactoryV2 == Some(StackFactory(Supplied(createServiceRemotingClientFactory), retrySettings))
    {
      this.retrySettings := None;
      proxyFactoryV1 := None;
      proxyFactoryV2 := Some(StackFactory(Supplied(createServiceRemotingClientFactory), retrySettings));
      overrideListenerName := false;
    }

    /** A proxy for a remoted service interface. With no stack yet, the provider decides: a V2
        client creates the V2 stack and turns on the listener override, anything else creates the
        V1 stack. A V1 stack then serves the request with the listener name unchanged; on V2 the
        default V2 listener name replaces a missing name when the override is on. */
    method CreateServiceProxy(serviceUri: string, listenerName: Option<string>,
                              provider: ServiceRemotingProvider, defaultV2ListenerName: string)
      returns (proxy: ServiceProxy)
      requires Valid()
      modifies this
      ensures Valid()
      ensures retrySettings == old(retrySettings)
      ensures old(proxyFactoryV1).Some? || old(proxyFactoryV2).Some? ==>
                && proxyFactoryV1 == old(proxyFactoryV1) && proxyFactoryV2 == old(proxyFactoryV2)
                && overrideListenerName == old(overrideListenerName)
      ensures old(proxyFactoryV1).None? && old(proxyFactoryV2).None? && provider.remotingClient == V2Client ==>
                && proxyFactoryV1.None? && overrideListenerName
                && proxyFactoryV2 == Some(StackFactory(FromProvider(provider), retrySettings))
      ensures old(proxyFactoryV1).None? && old(proxyFactoryV2).None? && provider.remotingClient != V2Client ==>
                && proxyFactoryV2.None? && overrideListenerName == old(overrideListenerName)
                && proxyFactoryV1 == Some(StackFactory(FromProvider(provider), retrySettings))
      ensures proxyFactoryV1.Some? ==> proxy == ServiceProxy(V1Stack, proxyFactoryV1.value, serviceUri, listenerName, false)
      ensures proxyFactoryV1.None? ==>
                && proxyFactoryV2.Some?
                && proxy == ServiceProxy(V2Stack, proxyFactoryV2.value, serviceUri,
                                         if overrideListenerName && listenerName.None? then Some(defaultV2ListenerName)
                                         else listenerName,
                                         false)
    {
      if proxyFactoryV1.None? && proxyFactoryV2.None? {
        if provider.remotingClient == V2Client {
          overrideListenerName := true;
          proxyFactoryV2 := Some(StackFactory(FromProvider(provider), retrySettings));
        } else {
          proxyFactoryV1 := Some(StackFactory(FromProvider(provider), retrySettings));
        }
      }
      if proxyFactoryV1.Some? {
        return ServiceProxy(V1Stack, proxyFactoryV1.value, serviceUri, listenerName, false);
      }
      if overrideListenerName && listenerName.None? {
        return ServiceProxy(V2Stack, proxyFactoryV2.value, serviceUri, Some(defaultV2ListenerName), false);
      }
      proxy := ServiceProxy(V2Stack, proxyFactoryV2.value, serviceUri, listenerName, false);
    }

    /** A proxy for an interface that need not be a remoted service: always the V2 stack, created
        from the provider when absent, with the listener name passed through and the override flag
        untouched. */
    method CreateNonIServiceProxy(serviceUri: string, listenerName: Option<string>, provider: ServiceRemotingProvider)
      returns (proxy: ServiceProxy)
      requires Valid()
      modifies this
      ensures Valid()
      ensures retrySettings == old(retrySettings) && proxyFactoryV1 == old(proxyFactoryV1)
      ensures overrideListenerName == old(overrideListenerName)
      ensures old(proxyFactoryV2).Some? ==> proxyFactoryV2 == old(proxyFactoryV2)
      ensures old(proxyFactoryV2).None? ==> proxyFactoryV2 == Some(StackFactory(FromProvider(provider), retrySettings))
      ensures proxy == ServiceProxy(V2Stack, proxyFactoryV2.value, serviceUri, listenerName, true)
    {
      if proxyFactoryV2.None? {
        proxyFactoryV2 := Some(StackFactory(FromProvider(provider), retrySettings));
      }
      proxy := ServiceProxy(V2Stack, proxyFactoryV2.value, serviceUri, listenerName, true);
    }
  }

  /** The provider is consulted once: after a first request answered by a V2 provider, a later
      request whose provider says V1 still goes to the same V2 stack, and still gets the default
      listener name when it names none. */
  method ChoiceIsMadeOnce(v2Provider: ServiceRemotingProvider, v1Provider: ServiceRemotingProvider)
    returns (first: ServiceProxy, second: ServiceProxy, named: ServiceProxy)
    requires v2Provider.remotingClient == V2Client && v1Provider.remotingClient == V1Client
    ensures first.stack == V2Stack && second.stack == V2Stack && first.factory == second.factory
    ensures first.factory.source == FromProvider(v2Provider)
    ensures first.listenerName == Some("V2Listener") && second.listenerName == Some("V2Listener")
    ensures named.listenerName == Some("custom")
  {
    var f := new ServiceProxyFactory(None);
    first := f.CreateServiceProxy("fabric:/app/svc", None, v2Provider, "V2Listener");
    second := f.CreateServiceProxy("fabric:/app/svc", None, v1Provider, "V2Listener");
    named := f.CreateServiceProxy("fabric:/app/svc", Some("custom"), v1Provider, "V2Listener");
  }

  /** An explicit V1 factory serves every remoted-service proxy whatever the provider says, and a
      non-service proxy then builds a V2 stack without the retry settings given to the constructor. */
  method ExplicitV1Stack(settings: RetrySettings, provider: ServiceRemotingProvider)
    returns (proxy: ServiceProxy, nonService: ServiceProxy)
    requires provider.remotingClient == V2Client
    ensures proxy.stack == V1Stack && proxy.factory == StackFactory(Supplied("v1"), Some(settings)) && proxy.listenerName.None?
    ensures nonService.stack == V2Stack && nonService.factory == StackFactory(FromProvider(provider), None)
  {
    var f := new ServiceProxyFactory.WithV1("v1", Some(settings));
    proxy := f.CreateServiceProxy("fabric:/app/svc", None, provider, "V2Listener");
    nonService := f.CreateNonIServiceProxy("fabric:/app/svc", None, provider);
  }
}
