/**
 * The V1 runtime's map from actor interface id to method dispatcher. It is
 * filled once, one dispatcher per interface the actor type implements, and
 * only read afterwards.
 *
 * The dispatcher the code builder creates for each interface type is given
 * as data: the constructor receives the dispatchers in interface order.
 */
module ActorMethodDispatcherMaps {
  import opened Wrappers

  /** A method dispatcher, identified by the interface it serves. */
  datatype ActorMethodDispatcher = ActorMethodDispatcher(interfaceId: int, interfaceName: string)

  /** The `ArgumentException` `Dictionary.Add` throws for an interface id already present. */
  datatype DuplicateInterfaceId = DuplicateInterfaceId(interfaceId: int)

  /** The `KeyNotFoundException` for an interface with no dispatcher. */
  datatype KeyNotFound = KeyNotFound(interfaceId: int)

  /** The interface ids of a sequence of dispatchers. */
  function Ids(ds: seq<ActorMethodDispatcher>): (ids: set<int>)
    ensures forall id :: id in ids <==> exists i :: 0 <= i < |ds| && ds[i].interfaceId == id
  {
    if ds == [] then {} else Ids(ds[..|ds| - 1]) + {ds[|ds| - 1].interfaceId}
  }

  predicate IdsDistinct(ds: seq<ActorMethodDispatcher>)
  {
    forall i, j :: 0 <= i < j < |ds| ==> ds[i].interfaceId != ds[j].interfaceId
  }

  /** The dispatchers keyed by interface id, or the first id that repeats. */
  function Index(ds: seq<ActorMethodDispatcher>): (r: Result<map<int, ActorMethodDispatcher>, DuplicateInterfaceId>)
  {
    if ds == [] then Success(map[])
    else
      match Index(ds[..|ds| - 1])
      case Failure(e) => Failure(e)
      case Success(m) =>
        var d := ds[|ds| - 1];
        if d.interfaceId in m then Failure(DuplicateInterfaceId(d.interfaceId)) else Success(m[d.interfaceId := d])
  }

  /** The ids of a non-empty sequence are distinct exactly when those of all but the last are and
      the last id is new. */
  lemma DistinctSnoc(ds: seq<ActorMethodDispatcher>)
    requires ds != []
    ensures IdsDistinct(ds) <==> IdsDistinct(ds[..|ds| - 1]) && ds[|ds| - 1].interfaceId !in Ids(ds[..|ds| - 1])
  {
    var n := |ds| - 1;
    var prefix := ds[..n];
    assert forall i :: 0 <= i < n ==> prefix[i] == ds[i];
    if !IdsDistinct(ds) {
      var i, j :| 0 <= i < j < |ds| && ds[i].interfaceId == ds[j].interfaceId;
      if j < n {
        assert prefix[i].interfaceId == prefix[j].interfaceId;
      } else {
        assert prefix[i].interfaceId == ds[n].interfaceId;
      }
    }
  }

  /** Indexing succeeds exactly when the interface ids are distinct. */
  lemma {:induction false} IndexSucceedsIffDistinct(ds: seq<ActorMethodDispatcher>)
    ensures Index(ds).Success? <==> IdsDistinct(ds)
    decreases |ds|
  {
    if ds != [] {
      var prefix := ds[..|ds| - 1];
      IndexSucceedsIffDistinct(prefix);
      DistinctSnoc(ds);
      if Index(prefix).Success? {
        IndexContents(prefix);
      }
    }
  }

  /** A successful index has exactly the interface ids as keys. */
  lemma {:induction false} IndexKeys(ds: seq<ActorMethodDispatcher>)
    requires Index(ds).Success?
    ensures Index(ds).value.Keys == Ids(ds)
    decreases |ds|
  {
    if ds != [] {
      var prefix := ds[..|ds| - 1];
      IndexKeys(prefix);
      assert Ids(ds) == Ids(prefix) + {ds[|ds| - 1].interfaceId};
    }
  }

  /** A successful index holds every dispatcher under its own id. */
  lemma {:induction false} IndexValues(ds: seq<ActorMethodDispatcher>)
    requires Index(ds).Success?
    ensures forall i :: 0 <= i < |ds| ==> ds[i].interfaceId in Index(ds).value && Index(ds).value[ds[i].interfaceId] == ds[i]
    decreases |ds|
  {
    if ds != [] {
      var n := |ds| - 1;
      var prefix := ds[..n];
      IndexValues(prefix);
      assert forall i :: 0 <= i < n ==> prefix[i] == ds[i];
    }
  }

  /** A successful index holds every dispatcher under its own id and nothing else. */
  lemma IndexContents(ds: seq<ActorMethodDispatcher>)
    requires Index(ds).Success?
    ensures Index(ds).value.Keys == Ids(ds)
    ensures forall i :: 0 <= i < |ds| ==> Index(ds).value[ds[i].interfaceId] == ds[i]
  {
    IndexKeys(ds);
    IndexValues(ds);
  }

  /** A failed index names the first id that occurs a second time. */
  lemma {:induction false} IndexFailureNamesRepeat(ds: seq<ActorMethodDispatcher>)
    requires Index(ds).Failure?
    ensures exists j :: 0 <= j < |ds| && IdsDistinct(ds[..j]) && ds[j].interfaceId in Ids(ds[..j])
                        && Index(ds).error == DuplicateInterfaceId(ds[j].interfaceId)
    decreases |ds|
  {
    var n := |ds| - 1;
    var prefix := ds[..n];
    if Index(prefix).Failure? {
      IndexFailureNamesRepeat(prefix);
      var j :| 0 <= j < n && IdsDistinct(prefix[..j]) && prefix[j].interfaceId in Ids(prefix[..j])
               && Index(prefix).error == DuplicateInterfaceId(prefix[j].interfaceId);
      assert Index(ds) == Index(prefix);
      assert prefix[..j] == ds[..j] && prefix[j] == ds[j];
    } else {
      IndexSucceedsIffDistinct(prefix);
      IndexKeys(prefix);
      assert ds[..n] == prefix && ds[n].interfaceId in Ids(prefix);
      assert Index(ds).error == DuplicateInterfaceId(ds[n].interfaceId);
    }
  }

  class ActorMethodDispatcherMap {
    const dispatchers: map<int, ActorMethodDispatcher>

    constructor FromMap(m: map<int, ActorMethodDispatcher>)
      ensures dispatchers == m
    {
      dispatchers := m;
    }

    /** Builds the map by adding each interface's dispatcher in turn; a repeated interface id
        makes the construction fail. */
    static method Create(interfaceDispatchers: seq<ActorMethodDispatcher>)
      returns (r: Result<ActorMethodDispatcherMap, DuplicateInterfaceId>)
      ensures r.Failure? <==> Index(interfaceDispatchers).Failure?
      ensures r.Failure? ==> r.error == Index(interfaceDispatchers).error
      ensures r.Success? ==> fresh(r.value) && r.value.dispatchers == Index(interfaceDispatchers).value
    {
      var m: map<int, ActorMethodDispatcher> := map[];
      var i := 0;
      while i < |interfaceDispatchers|
        invariant 0 <= i <= |interfaceDispatchers|
        invariant Index(interfaceDispatchers[..i]) == Success(m)
      {
        assert interfaceDispatchers[..i + 1][..i] == interfaceDispatchers[..i];
        var d := interfaceDispatchers[i];
        if d.interfaceId in m {
          IndexFailurePersists(interfaceDispatchers, i + 1);
          return Failure(DuplicateInterfaceId(d.interfaceId));
        }
        m := m[d.interfaceId := d];
        i := i + 1;
      }
      assert interfaceDispatchers[..i] == interfaceDispatchers;
      var created := new ActorMethodDispatcherMap.FromMap(m);
      r := Success(created);
    }

    /** The dispatcher of an interface, whatever method is asked for. */
    function GetDispatcher(interfaceId: int, methodId: int): (r: Result<ActorMethodDispatcher, KeyNotFound>)
      ensures r.Success? <==> interfaceId in dispatchers
      ensures r.Success? ==> r.value == dispatchers[interfaceId]
      ensures r.Failure? ==> r.error == KeyNotFound(interfaceId)
    {
      if interfaceId in dispatchers then Success(dispatchers[interfaceId]) else Failure(KeyNotFound(interfaceId))
    }
  }

  /** Once a prefix fails to index, every longer prefix fails with the same error. */
  lemma {:induction false} IndexFailurePersists(ds: seq<ActorMethodDispatcher>, n: nat)
    requires n <= |ds| && Index(ds[..n]).Failure?
    ensures Index(ds) == Index(ds[..n])
    decreases |ds| - n
  {
    if n < |ds| {
      assert ds[..n + 1][..n] == ds[..n];
      IndexFailurePersists(ds, n + 1);
    } else {
      assert ds[..n] == ds;
    }
  }

  /** Of a map built from distinct interface ids, a lookup succeeds exactly for those ids and
      returns the dispatcher supplied for it. */
  lemma LookupAfterCreate(ds: seq<ActorMethodDispatcher>, m: ActorMethodDispatcherMap, interfaceId: int, methodId: int)
    requires Index(ds).Success? && m.dispatchers == Index(ds).value
    ensures m.GetDispatcher(interfaceId, methodId).Success? <==> exists i :: 0 <= i < |ds| && ds[i].interfaceId == interfaceId
    ensures forall i :: 0 <= i < |ds| && ds[i].interfaceId == interfaceId ==> m.GetDispatcher(interfaceId, methodId) == Success(ds[i])
  {
    IndexContents(ds);
  }
}
