/** `ServiceContainer` of rustdi/src/container.rs: a table from type identity
    to the bound `Service`. Binding inserts in place (the last bind for a type
    wins); resolving looks the type up and dispatches on the variant, failing
    with `Err(())` when the type was never bound. */
module Containers {
  import opened Results
  import opened TypeKeys
  import opened Services

  /** `services.get::<KeyType<S>>()` turned into a `Result`, over any kind of
      binding. */
  function LookupIn<B>(services: map<TypeKey, B>, k: TypeKey): (r: Result<B, ()>)
    ensures r.Ok? <==> k in services
    ensures r.Ok? ==> r.value == services[k]
  {
    if k in services then Ok(services[k]) else Err(())
  }

  /** Look up, then `read`: fails exactly for an unbound type, and otherwise
      gives a guard onto the bound service. */
  function ImmutableRefIn<V>(services: map<TypeKey, Service<V>>, k: TypeKey): (r: Result<ReadGuard<V>, ()>)
    ensures r.Ok? <==> k in services
    ensures r.Ok? ==> r.value.Origin() == Some(services[k])
  {
    match LookupIn(services, k)
    case Ok(service) => service.Read()
    case Err(_) => Err(())
  }

  /** Look up, then `write`: succeeds exactly for a type bound to a
      lock-protected service, with a write guard onto that service's cell. */
  function MutableRefIn<V>(services: map<TypeKey, Service<V>>, k: TypeKey): (r: Result<WriteGuard<V>, ()>)
    ensures r.Ok? <==> k in services && services[k].Mutable()
    ensures r.Ok? ==> r.value.Origin() == services[k]
  {
    match LookupIn(services, k)
    case Ok(service) => service.Write()
    case Err(_) => Err(())
  }

  /** After binding `s` under `k`, every resolution of `k` sees `s` and every
      other type resolves as before. */
  lemma BindThenResolve<V>(services: map<TypeKey, Service<V>>, k: TypeKey, s: Service<V>, other: TypeKey)
    ensures LookupIn(services[k := s], k) == Ok(s)
    ensures ImmutableRefIn(services[k := s], k) == s.Read()
    ensures MutableRefIn(services[k := s], k) == s.Write()
    ensures other != k ==> LookupIn(services[k := s], other) == LookupIn(services, other)
    ensures other != k ==> ImmutableRefIn(services[k := s], other) == ImmutableRefIn(services, other)
    ensures other != k ==> MutableRefIn(services[k := s], other) == MutableRefIn(services, other)
  {
  }

  /** A mutable reference is refused for an `Arc` binding and granted for the
      two lock-protected ones. */
  lemma MutableRefLegality<V>(services: map<TypeKey, Service<V>>, k: TypeKey)
    requires k in services
    ensures services[k].SingletonArc? ==> MutableRefIn(services, k).Err?
    ensures services[k].SingletonRwLock? ==> MutableRefIn(services, k) == Ok(WriteRwLock(services[k].lock))
    ensures services[k].SingletonMutex? ==> MutableRefIn(services, k) == Ok(WriteMutex(services[k].lock))
  {
  }

  class ServiceContainer<V> {
    var services: map<TypeKey, Service<V>>

    /** `ServiceContainer::new`: nothing is bound. */
    constructor ()
      ensures services == map[]
    {
      services := map[];
    }

    method BindSingletonArc(k: TypeKey, service: V)
      modifies this
      ensures services == old(services)[k := SingletonArc(service)]
    {
      services := services[k := SingletonArc(service)];
    }

    method BindSingletonRwLock(k: TypeKey, service: Cell<V>)
      modifies this
      ensures services == old(services)[k := SingletonRwLock(service)]
    {
      services := services[k := SingletonRwLock(service)];
    }

    method BindSingletonMutex(k: TypeKey, service: Cell<V>)
      modifies this
      ensures services == old(services)[k := SingletonMutex(service)]
    {
      services := services[k := SingletonMutex(service)];
    }

    /** `resolve`: the bound service itself. Takes `&self`: no modifies clause. */
    method Resolve(k: TypeKey) returns (r: Result<Service<V>, ()>)
      ensures r == LookupIn(services, k)
    {
      if k in services {
        r := Ok(services[k]);
      } else {
        r := Err(());
      }
    }

    /** `resolve_immutable_ref` (which calls `read`, spelled `immutable_ref`
        at the call site). */
    method ResolveImmutableRef(k: TypeKey) returns (r: Result<ReadGuard<V>, ()>)
      ensures r == ImmutableRefIn(services, k)
    {
      if k in services {
        r := services[k].Read();
      } else {
        r := Err(());
      }
    }

    /** `resolve_mutable_ref` (which calls `write`, spelled `mutable_ref` at
        the call site). */
    method ResolveMutableRef(k: TypeKey) returns (r: Result<WriteGuard<V>, ()>)
      ensures r == MutableRefIn(services, k)
    {
      if k in services {
        r := services[k].Write();
      } else {
        r := Err(());
      }
    }
  }

  /** A fresh container resolves nothing, in any mode. */
  method ResolveOnFresh<V>(k: TypeKey) returns (service: Result<Service<V>, ()>, read: Result<ReadGuard<V>, ()>, write: Result<WriteGuard<V>, ()>)
    ensures service.Err? && read.Err? && write.Err?
  {
    var c := new ServiceContainer<V>();
    service := c.Resolve(k);
    read := c.ResolveImmutableRef(k);
    write := c.ResolveMutableRef(k);
  }

  /** Binding the same type twice: the second binding replaces the first,
      whatever variants the two are. */
  method Rebind<V>(k: TypeKey, first: V, second: Cell<V>) returns (service: Result<Service<V>, ()>, write: Result<WriteGuard<V>, ()>)
    ensures service == Ok(SingletonMutex(second))
    ensures write == Ok(WriteMutex(second))
  {
    var c := new ServiceContainer<V>();
    c.BindSingletonArc(k, first);
    c.BindSingletonMutex(k, second);
    service := c.Resolve(k);
    write := c.ResolveMutableRef(k);
  }

  /** The manual test of rustdi_examples/src/main.rs: bind a config as an
      `Arc` and a state behind an `RwLock`; change the state through a
      mutable reference; a later immutable reference shows the change. The
      config cannot be written, the point of the `invalid_handler` call that
      closes rustdi/examples/demo.rs. */
  method ManualResolution<V>(configKey: TypeKey, config: V, stateKey: TypeKey, state: V, updated: V)
    returns (seen: V, configWrite: Result<WriteGuard<V>, ()>)
    requires configKey != stateKey
    ensures seen == updated
    ensures configWrite.Err?
  {
    var c := new ServiceContainer<V>();
    c.BindSingletonArc(configKey, config);
    var cell := new Cell(state);
    c.BindSingletonRwLock(stateKey, cell);
    var w := c.ResolveMutableRef(stateKey);
    AssignThrough(w.value, updated);
    var r := c.ResolveImmutableRef(stateKey);
    DerefIsOriginValue(r.value, SingletonRwLock(cell));
    seen := r.value.Deref();
    configWrite := c.ResolveMutableRef(configKey);
  }
}
