/** rustdi/src/ioc.rs, the earlier single-file form of the container. Its
    `Service`, guards, `read` and `write` are those of `Services`; its
    container binds the same way and resolves through `resolve_read` and
    `resolve_write`, which dispatch exactly as `resolve_immutable_ref` and
    `resolve_mutable_ref` do. */
module SupersededIoc {
  import opened Results
  import opened TypeKeys
  import opened Services
  import opened Containers

  class ServiceContainer<V> {
    var services: map<TypeKey, Service<V>>

    constructor ()
      ensures services == map[]
    {
      services := map[];
    }

    method BindSingletonArc(k: TypeKey, service: V)
      modifies this
      ensures services == old(services)[k := SingletonArc(service)]
    {
      services := services[k := SingletonArc(service)];
    }

    method BindSingletonRwLock(k: TypeKey, service: Cell<V>)
      modifies this
      ensures services == old(services)[k := SingletonRwLock(service)]
    {
      services := services[k := SingletonRwLock(service)];
    }

    method BindSingletonMutex(k: TypeKey, service: Cell<V>)
      modifies this
      ensures services == old(services)[k := SingletonMutex(service)]
    {
      services := services[k := SingletonMutex(service)];
    }

    /** `resolve`: the stored binding, or `Err(())` when there is none. */
    method Resolve(k: TypeKey) returns (r: Result<Service<V>, ()>)
      ensures r.Ok? <==> k in services
      ensures r.Ok? ==> r.value == services[k]
    {
      if k in services {
        r := Ok(services[k]);
      } else {
        r := Err(());
      }
    }

    /** `resolve_read`: `Err(())` for an unbound type, otherwise `read` of the
        binding, a guard onto it. */
    method ResolveRead(k: TypeKey) returns (r: Result<ReadGuard<V>, ()>)
      ensures r == ImmutableRefIn(services, k)
      ensures r.Ok? <==> k in services
    {
      if k in services {
        r := services[k].Read();
      } else {
        r := Err(());
      }
    }

    /** `resolve_write`: `Err(())` for an unbound type or an `Arc` binding,
        otherwise a write guard onto the binding's cell. */
    method ResolveWrite(k: TypeKey) returns (r: Result<WriteGuard<V>, ()>)
      ensures r == MutableRefIn(services, k)
      ensures r.Ok? <==> k in services && services[k].Mutable()
    {
      if k in services {
        r := services[k].Write();
      } else {
        r := Err(());
      }
    }
  }

  /** The manual test of rustdi/examples/demo.rs: an `Arc` config and an
      `RwLock` client; what is written through `resolve_write` is what
      `resolve_read` then shows. The config cannot be written, the point of
      the `invalid_handler` call that closes the demo. */
  method Demo<V>(configKey: TypeKey, config: V, clientKey: TypeKey, client: V, updated: V)
    returns (seen: V, configWrite: Result<WriteGuard<V>, ()>)
    requires configKey != clientKey
    ensures seen == updated
    ensures configWrite.Err?
  {
    var c := new ServiceContainer<V>();
    c.BindSingletonArc(configKey, config);
    var cell := new Cell(client);
    c.BindSingletonRwLock(clientKey, cell);
    var w := c.ResolveWrite(clientKey);
    AssignThrough(w.value, updated);
    var r := c.ResolveRead(clientKey);
    DerefIsOriginValue(r.value, SingletonRwLock(cell));
    seen := r.value.Deref();
    configWrite := c.ResolveWrite(configKey);
  }
}
