/** `Container`: a registry from interfaces to the services that implement
    them. A Python dictionary remembers the order in which keys were first
    inserted, and `get_observers` walks its values in that order, so the
    registry keeps that order beside the mapping. */
module Container {
  import opened Wrappers
  import opened Lists

  /** The interfaces services are registered under. */
  datatype Interface =
    | PacketFactoryInterface
    | TcpStateInterface
    | ObserverInterface
    | LoggerInterface
    | OtherInterface(name: string)

  /** `KeyError` raised by `resolve` for an interface nobody registered. */
  datatype ResolveError = ServiceNotFound(missing: Interface)

  /** The positions in `keys` whose service passes `isObserver`: all of
      them, each once, in increasing order. */
  ghost function ObserverPositions<V>(keys: seq<Interface>, services: map<Interface, V>, isObserver: V -> bool): (p: seq<nat>)
    requires forall k :: k in keys ==> k in services
    ensures forall j :: 0 <= j < |p| ==> p[j] < |keys| && isObserver(services[keys[p[j]]])
    ensures forall a, b :: 0 <= a < b < |p| ==> p[a] < p[b]
    ensures forall i :: 0 <= i < |keys| && isObserver(services[keys[i]]) ==> i in p
  {
    if keys == [] then []
    else
      var n := |keys| - 1;
      ObserverPositions(keys[..n], services, isObserver) + (if isObserver(services[keys[n]]) then [n] else [])
  }

  /** The services of `keys`, in that order, that pass `isObserver`: one
      entry for each observer position, and nothing else. */
  function ObserversIn<V>(keys: seq<Interface>, services: map<Interface, V>, isObserver: V -> bool): (r: seq<V>)
    requires forall k :: k in keys ==> k in services
    ensures |r| == |ObserverPositions(keys, services, isObserver)| <= |keys|
    ensures forall j :: 0 <= j < |r| ==> r[j] == services[keys[ObserverPositions(keys, services, isObserver)[j]]]
  {
    if keys == [] then []
    else
      var n := |keys| - 1;
      var v := services[keys[n]];
      ObserversIn(keys[..n], services, isObserver) + (if isObserver(v) then [v] else [])
  }

  class Container<V> {
    /** The registered interfaces, in the order of their first registration. */
    var order: seq<Interface>
    var services: map<Interface, V>

    ghost predicate Valid()
      reads this
    {
      NoDup(order) && (forall k :: k in order <==> k in services)
    }

    constructor()
      ensures Valid() && services == map[] && order == []
    {
      order, services := [], map[];
    }

    /** Registers `implementation` under `iface`, replacing any earlier one;
        a replaced entry keeps its place in the order. */
    method Register(iface: Interface, implementation: V)
      requires Valid()
      modifies this
      ensures Valid()
      ensures services == old(services)[iface := implementation]
      ensures order == if iface in old(services) then old(order) else old(order) + [iface]
      ensures Resolve(iface) == Ok(implementation)
      ensures forall k :: k != iface ==> Resolve(k) == old(Resolve(k))
    {
      if iface !in services {
        AppendAbsentNoDup(order, iface);
        order := order + [iface];
      }
      services := services[iface := implementation];
    }

    /** The service registered under `iface`, or `KeyError`. */
    function Resolve(iface: Interface): (r: Result<V, ResolveError>)
      reads this
      ensures r.Err? <==> iface !in services
      ensures r.Err? ==> r.error == ServiceNotFound(iface)
      ensures r.Ok? ==> r.value == services[iface]
    {
      if iface !in services then Err(ServiceNotFound(iface)) else Ok(services[iface])
    }

    function GetPacketFactory(): (r: Result<V, ResolveError>)
      reads this
      ensures r == Resolve(PacketFactoryInterface)
    {
      Resolve(PacketFactoryInterface)
    }

    function GetTcpState(): (r: Result<V, ResolveError>)
      reads this
      ensures r == Resolve(TcpStateInterface)
    {
      Resolve(TcpStateInterface)
    }

    function GetLogger(): (r: Result<V, ResolveError>)
      reads this
      ensures r == Resolve(LoggerInterface)
    {
      Resolve(LoggerInterface)
    }

    /** The registered services that are observers, in registration order;
        `isObserver` stands for the `isinstance(…, IObserver)` test. */
    function GetObservers(isObserver: V -> bool): (r: seq<V>)
      requires Valid()
      reads this
      ensures |r| <= |services|
      ensures |r| == |ObserverPositions(order, services, isObserver)|
      ensures forall j :: 0 <= j < |r| ==> r[j] == services[order[ObserverPositions(order, services, isObserver)[j]]]
      ensures forall i :: 0 <= i < |r| ==> isObserver(r[i]) && exists k :: k in services && services[k] == r[i]
      ensures forall k :: k in services && isObserver(services[k]) ==> services[k] in r
    {
      DistinctKeysCount(order, services);
      ObserversIn(order, services, isObserver)
    }
  }

  /** A list of distinct keys, all in the map, is no longer than the map. */
  lemma DistinctKeysCount<V>(keys: seq<Interface>, services: map<Interface, V>)
    requires NoDup(keys) && forall k :: k in keys <==> k in services
    ensures |keys| == |services|
  {
    var s := set k | k in keys;
    assert s == services.Keys;
    DistinctSeqCard(keys);
  }

  lemma {:induction false} DistinctSeqCard<T>(keys: seq<T>)
    requires NoDup(keys)
    ensures |set k | k in keys| == |keys|
  {
    if keys != [] {
      var rest := keys[1..];
      assert NoDup(rest) by {
        forall i, j | 0 <= i < j < |rest| ensures rest[i] != rest[j] {
          assert rest[i] == keys[i + 1] && rest[j] == keys[j + 1];
        }
      }
      DistinctSeqCard(rest);
      assert keys[0] !in rest by {
        forall i | 0 <= i < |rest| ensures rest[i] != keys[0] {
          assert rest[i] == keys[i + 1];
        }
      }
      assert (set k | k in keys) == (set k | k in rest) + {keys[0]};
    }
  }
}
