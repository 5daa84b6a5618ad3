/**
 * The diagnostics event-source provider's table of actor methods, keyed by
 * the 64-bit interface-method key and holding each method's friendly name,
 * and its classification of replica role changes. What the actor method
 * friendly-name builder reports for each actor interface type (the
 * interface id and its method descriptions) is a parameter.
 */
module EventSources {
  import opened Wrappers
  import opened DiagnosticsEvents

  newtype Int32 = n: int | -0x8000_0000 <= n < 0x8000_0000

  /** The reflection facts the provider reads from a method. */
  datatype MethodInfo = MethodInfo(declaringTypeName: string, name: string, signature: string)

  /** A method description as far as the provider uses it: its method and its 32-bit id. */
  datatype MethodDescriptionInfo = MethodDescriptionInfo(methodInfo: MethodInfo, id: Int32)

  /** One actor interface type: its id and its method descriptions. */
  datatype InterfaceMethods = InterfaceMethods(interfaceId: Int32, descriptions: seq<MethodDescriptionInfo>)

  datatype ActorMethodInfo = ActorMethodInfo(methodName: string, methodSignature: string)

  /** The `KeyNotFoundException` of a lookup with an unknown key. */
  datatype KeyNotFound = KeyNotFound(key: int)

  /** The `(uint)` cast of a 32-bit signed integer: the same bits. */
  function ToUInt32(n: Int32): (r: UInt32)
    ensures r as int % TwoTo32 == n as int % TwoTo32
  {
    if n >= 0 then n as int as UInt32 else (n as int + TwoTo32) as UInt32
  }

  /** The friendly name stored for a method: its declaring type's name, a dot, and its own name. */
  function MethodInfoFor(d: MethodDescriptionInfo): (ami: ActorMethodInfo)
    ensures ami.methodName == d.methodInfo.declaringTypeName + "." + d.methodInfo.name
    ensures ami.methodSignature == d.methodInfo.signature
  {
    ActorMethodInfo(d.methodInfo.declaringTypeName + "." + d.methodInfo.name, d.methodInfo.signature)
  }

  function KeyFor(interfaceId: Int32, d: MethodDescriptionInfo): int
  {
    GetInterfaceMethodKey(ToUInt32(interfaceId), ToUInt32(d.id))
  }

  /** The (key, info) pairs one interface's descriptions contribute, in order. */
  function Entries(descriptions: seq<MethodDescriptionInfo>, interfaceId: Int32): (r: seq<(int, ActorMethodInfo)>)
    ensures |r| == |descriptions|
    ensures forall i :: 0 <= i < |r| ==> r[i] == (KeyFor(interfaceId, descriptions[i]), MethodInfoFor(descriptions[i]))
  {
    seq(|descriptions|, i requires 0 <= i < |descriptions| => (KeyFor(interfaceId, descriptions[i]), MethodInfoFor(descriptions[i])))
  }

  /** A dictionary after indexer assignments of each pair in turn; a later assignment overwrites. */
  function StoreAll<K, V>(m: map<K, V>, entries: seq<(K, V)>): (r: map<K, V>)
    ensures m.Keys <= r.Keys
    ensures forall i :: 0 <= i < |entries| ==> entries[i].0 in r
  {
    if entries == [] then m
    else
      var e := entries[|entries| - 1];
      StoreAll(m, entries[..|entries| - 1])[e.0 := e.1]
  }

  /** The value of the last pair assigned under `key`, if any. */
  function LastUnder<K(==), V>(entries: seq<(K, V)>, key: K): (r: Option<V>)
    ensures r.None? <==> forall i :: 0 <= i < |entries| ==> entries[i].0 != key
  {
    if entries == [] then None
    else if entries[|entries| - 1].0 == key then Some(entries[|entries| - 1].1)
    else LastUnder(entries[..|entries| - 1], key)
  }

  /** The dictionary holds a key exactly when it held it before or some pair assigns it, and then
      holds the value of the last such pair, or its old value when there is none. */
  lemma {:induction false} StoreAllAt<K, V>(m: map<K, V>, entries: seq<(K, V)>, key: K)
    ensures key in StoreAll(m, entries) <==> key in m || LastUnder(entries, key).Some?
    ensures LastUnder(entries, key).Some? ==> StoreAll(m, entries)[key] == LastUnder(entries, key).value
    ensures LastUnder(entries, key).None? && key in m ==> StoreAll(m, entries)[key] == m[key]
    decreases |entries|
  {
    if entries != [] {
      StoreAllAt(m, entries[..|entries| - 1], key);
    }
  }

  /** A pair that no later pair overwrites is the last one under its key. */
  lemma {:induction false} LastUnderUnshadowed<K, V>(entries: seq<(K, V)>, i: int)
    requires 0 <= i < |entries|
    requires forall j :: i < j < |entries| ==> entries[j].0 != entries[i].0
    ensures LastUnder(entries, entries[i].0) == Some(entries[i].1)
    decreases |entries|
  {
    if i < |entries| - 1 {
      var prefix := entries[..|entries| - 1];
      assert prefix[i] == entries[i];
      LastUnderUnshadowed(prefix, i);
    }
  }

  /** The table after storing each description of one interface under its key. */
  function AddMethodInfos(infos: map<int, ActorMethodInfo>, descriptions: seq<MethodDescriptionInfo>,
                          interfaceId: Int32): (r: map<int, ActorMethodInfo>)
    ensures infos.Keys <= r.Keys
    ensures forall j :: 0 <= j < |descriptions| ==> KeyFor(interfaceId, descriptions[j]) in r
  {
    StoreAll(infos, Entries(descriptions, interfaceId))
  }

  /** Every description's friendly name is found under its own key, unless a later description
      with the same key overwrote it. */
  lemma StoredUnderOwnKey(infos: map<int, ActorMethodInfo>, descriptions: seq<MethodDescriptionInfo>,
                          interfaceId: Int32, i: int)
    requires 0 <= i < |descriptions|
    requires forall j :: i < j < |descriptions| ==> KeyFor(interfaceId, descriptions[j]) != KeyFor(interfaceId, descriptions[i])
    ensures KeyFor(interfaceId, descriptions[i]) in AddMethodInfos(infos, descriptions, interfaceId)
    ensures AddMethodInfos(infos, descriptions, interfaceId)[KeyFor(interfaceId, descriptions[i])]
         == MethodInfoFor(descriptions[i])
  {
    var entries := Entries(descriptions, interfaceId);
    assert forall j :: i < j < |entries| ==> entries[j].0 != entries[i].0 by {
      forall j | i < j < |entries|
        ensures entries[j].0 != entries[i].0
      {
        assert entries[j].0 == KeyFor(interfaceId, descriptions[j]);
      }
    }
    LastUnderUnshadowed(entries, i);
    var key := entries[i].0;
    StoreAllAt(infos, entries, key);
    assert StoreAll(infos, entries)[key] == entries[i].1;
    assert entries[i] == (KeyFor(interfaceId, descriptions[i]), MethodInfoFor(descriptions[i]));
  }

  /** A key no description maps to keeps whatever the table held under it. */
  lemma UntouchedKey(infos: map<int, ActorMethodInfo>, descriptions: seq<MethodDescriptionInfo>,
                     interfaceId: Int32, key: int)
    requires forall j :: 0 <= j < |descriptions| ==> KeyFor(interfaceId, descriptions[j]) != key
    ensures key in AddMethodInfos(infos, descriptions, interfaceId) <==> key in infos
    ensures key in infos ==> AddMethodInfos(infos, descriptions, interfaceId)[key] == infos[key]
  {
    var entries := Entries(descriptions, interfaceId);
    StoreAllAt(infos, entries, key);
  }

  /** The table built from every interface in turn, starting empty. */
  function AllMethodInfos(interfaces: seq<InterfaceMethods>): (r: map<int, ActorMethodInfo>)
    ensures forall i, j :: 0 <= i < |interfaces| && 0 <= j < |interfaces[i].descriptions| ==>
              KeyFor(interfaces[i].interfaceId, interfaces[i].descriptions[j]) in r
  {
    if interfaces == [] then map[]
    else
      var last := interfaces[|interfaces| - 1];
      AddMethodInfos(AllMethodInfos(interfaces[..|interfaces| - 1]), last.descriptions, last.interfaceId)
  }

  /** The replica roles; `NoRole` is the enumeration's `None`. */
  datatype ReplicaRole = Unknown | NoRole | Primary | IdleSecondary | ActiveSecondary

  datatype RoleChangeEvent = ReplicaChangeRoleToPrimary | ReplicaChangeRoleFromPrimary

  /** The event written for a role change: becoming primary is always reported, even from primary;
      leaving primary is reported otherwise; any other change writes nothing. */
  function OnActorChangeRole(currentRole: ReplicaRole, newRole: ReplicaRole): (r: Option<RoleChangeEvent>)
    ensures r == Some(ReplicaChangeRoleToPrimary) <==> newRole == Primary
    ensures r == Some(ReplicaChangeRoleFromPrimary) <==> newRole != Primary && currentRole == Primary
    ensures r.None? <==> newRole != Primary && currentRole != Primary
  {
    if newRole == Primary then Some(ReplicaChangeRoleToPrimary)
    else if currentRole == Primary then Some(ReplicaChangeRoleFromPrimary)
    else None
  }

  class EventSourceProvider {
    var actorMethodInfo: map<int, ActorMethodInfo>

    constructor ()
      ensures actorMethodInfo == map[]
    {
      actorMethodInfo := map[];
    }

    /** Stores the info of every description of one interface under its key, in order. */
    static method AddInterfaceMethodInfos(descriptions: seq<MethodDescriptionInfo>, interfaceId: Int32,
                                         actorMethodInfos: map<int, ActorMethodInfo>)
      returns (r: map<int, ActorMethodInfo>)
      ensures r == AddMethodInfos(actorMethodInfos, descriptions, interfaceId)
    {
      ghost var entries := Entries(descriptions, interfaceId);
      r := actorMethodInfos;
      var i := 0;
      while i < |descriptions|
        invariant 0 <= i <= |descriptions|
        invariant r == StoreAll(actorMethodInfos, entries[..i])
      {
        var d := descriptions[i];
        var ami := ActorMethodInfo(d.methodInfo.declaringTypeName + "." + d.methodInfo.name, d.methodInfo.signature);
        var key := GetInterfaceMethodKey(ToUInt32(interfaceId), ToUInt32(d.id));
        assert entries[..i + 1][..i] == entries[..i];
        assert entries[i] == (key, ami);
        r := r[key := ami];
        i := i + 1;
      }
      assert entries[..i] == entries;
    }

    /** Replaces the table with a fresh one holding the methods of every actor interface, so that
        nothing of the previous table survives. */
    method InitializeActorMethodInfo(interfaces: seq<InterfaceMethods>)
      modifies this
      ensures actorMethodInfo == AllMethodInfos(interfaces)
    {
      actorMethodInfo := map[];
      var i := 0;
      while i < |interfaces|
        invariant 0 <= i <= |interfaces|
        invariant actorMethodInfo == AllMethodInfos(interfaces[..i])
      {
        assert interfaces[..i + 1][..i] == interfaces[..i];
        actorMethodInfo := AddInterfaceMethodInfos(interfaces[i].descriptions, interfaces[i].interfaceId, actorMethodInfo);
        i := i + 1;
      }
      assert interfaces[..i] == interfaces;
    }

    /** The stored info for a key; an unknown key fails as the dictionary indexer does. */
    function GetActorMethodInfo(key: int, remotingListener: RemotingListener): (r: Result<ActorMethodInfo, KeyNotFound>)
      reads this
      ensures r.Failure? <==> key !in actorMethodInfo
      ensures r.Failure? ==> r.error == KeyNotFound(key)
      ensures r.Success? ==> r.value == actorMethodInfo[key]
    {
      if key in actorMethodInfo then Success(actorMethodInfo[key]) else Failure(KeyNotFound(key))
    }
  }

  /** Re-initialization replaces the table: a method registered by an earlier initialization under
      interface 9 is gone, and the method of interface 7 is found under its key with its friendly
      name. */
  method LookupAfterInitialize() returns (found: Result<ActorMethodInfo, KeyNotFound>,
                                         stale: Result<ActorMethodInfo, KeyNotFound>)
    ensures found == Success(ActorMethodInfo("IGreeter.Greet", "Task Greet()"))
    ensures stale == Failure(KeyNotFound(GetInterfaceMethodKey(9, 1)))
  {
    var p := new EventSourceProvider();
    var greet := MethodDescriptionInfo(MethodInfo("IGreeter", "Greet", "Task Greet()"), 1);
    p.InitializeActorMethodInfo([InterfaceMethods(9, [greet])]);
    p.InitializeActorMethodInfo([InterfaceMethods(7, [greet])]);
    assert AllMethodInfos([InterfaceMethods(7, [greet])]) == AddMethodInfos(map[], [greet], 7);
    var key := KeyFor(7, greet);
    StoredUnderOwnKey(map[], [greet], 7, 0);
    var previous := GetInterfaceMethodKey(9, 1);
    assert key != previous by {
      KeyRoundTrip(7, 1);
      KeyRoundTrip(9, 1);
    }
    UntouchedKey(map[], [greet], 7, previous);
    assert "IGreeter" + "." + "Greet" == "IGreeter.Greet";
    found := p.GetActorMethodInfo(key, V2Listener);
    stale := p.GetActorMethodInfo(previous, V2Listener);
  }
}
