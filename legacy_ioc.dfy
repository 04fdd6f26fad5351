/** src/ioc.rs, the oldest container. A singleton (`ServiceSingleton`: `Bare`,
    `RwLock`, `Mutex`) is the `Service` of `Services` (`SingletonArc`,
    `SingletonRwLock`, `SingletonMutex`); a binding is either such a singleton
    or a `Factory` value, and only singletons can be borrowed. */
module LegacyIoc {
  import opened Results
  import opened TypeKeys
  import opened Services
  import opened Containers

  /** What `bind_singleton` accepts through `Into`: `Arc<T>`,
      `Arc<RwLock<T>>` or `Arc<Mutex<T>>`. */
  datatype Handle<V> = ArcValue(value: V) | ArcRwLock(cell: Cell<V>) | ArcMutex(cell: Cell<V>)

  /** The three `From` conversions. */
  function FromHandle<V>(h: Handle<V>): (s: Service<V>)
    ensures IntoHandle(s) == h
  {
    match h
    case ArcValue(v) => SingletonArc(v)
    case ArcRwLock(c) => SingletonRwLock(c)
    case ArcMutex(c) => SingletonMutex(c)
  }

  /** The handle a singleton was built from. */
  function IntoHandle<V>(s: Service<V>): Handle<V> {
    match s
    case SingletonArc(v) => ArcValue(v)
    case SingletonRwLock(c) => ArcRwLock(c)
    case SingletonMutex(c) => ArcMutex(c)
  }

  /** Every singleton comes from exactly one handle: `From` is a bijection
      that keeps the shared value or the lock it is given. */
  lemma FromIsBijective<V>(s: Service<V>, h: Handle<V>)
    ensures FromHandle(IntoHandle(s)) == s
    ensures FromHandle(h) == s <==> IntoHandle(s) == h
    ensures h.ArcValue? <==> FromHandle(h).SingletonArc?
    ensures !h.ArcValue? ==> FromHandle(h).lock == h.cell
  {
  }

  /** `ServiceValue`: a singleton, or a `ServiceFactory` holding its value. */
  datatype ServiceValue<V> = Singleton(singleton: Service<V>) | Factory(product: V)

  /** `resolve_read`: succeeds exactly for a singleton binding, with a guard
      onto that singleton; unbound types and factories give `Err(())`. */
  function ResolveReadIn<V>(services: map<TypeKey, ServiceValue<V>>, k: TypeKey): (r: Result<ReadGuard<V>, ()>)
    ensures r.Ok? <==> k in services && services[k].Singleton?
    ensures r.Ok? ==> r.value.Origin() == Some(services[k].singleton)
  {
    if k in services && services[k].Singleton? then services[k].singleton.Read() else Err(())
  }

  /** `resolve_write`: succeeds exactly for a lock-protected singleton
      binding, with a write guard onto its cell. */
  function ResolveWriteIn<V>(services: map<TypeKey, ServiceValue<V>>, k: TypeKey): (r: Result<WriteGuard<V>, ()>)
    ensures r.Ok? <==> k in services && services[k].Singleton? && services[k].singleton.Mutable()
    ensures r.Ok? ==> r.value.Origin() == services[k].singleton
  {
    if k in services && services[k].Singleton? then services[k].singleton.Write() else Err(())
  }

  /** A factory binding is found by `resolve` but cannot be borrowed. */
  lemma FactoryIsNeverBorrowed<V>(services: map<TypeKey, ServiceValue<V>>, k: TypeKey)
    requires k in services && services[k].Factory?
    ensures LookupIn(services, k) == Ok(services[k])
    ensures ResolveReadIn(services, k).Err?
    ensures ResolveWriteIn(services, k).Err?
  {
  }

  /** A `Bare` singleton reads but does not write. */
  lemma BareReadsButDoesNotWrite<V>(services: map<TypeKey, ServiceValue<V>>, k: TypeKey, v: V)
    requires k in services && services[k] == Singleton(SingletonArc(v))
    ensures ResolveReadIn(services, k) == Ok(ReadArc(v))
    ensures ResolveWriteIn(services, k).Err?
  {
  }

  class ServiceContainer<V> {
    var services: map<TypeKey, ServiceValue<V>>

    constructor ()
      ensures services == map[]
    {
      services := map[];
    }

    /** `bind_singleton`: the handle converted by `From` and stored as a
        `Singleton`, replacing any earlier binding of the type. */
    method BindSingleton(k: TypeKey, service: Handle<V>)
      modifies this
      ensures services == old(services)[k := Singleton(FromHandle(service))]
    {
      services := services[k := Singleton(FromHandle(service))];
    }

    method Resolve(k: TypeKey) returns (r: Result<ServiceValue<V>, ()>)
      ensures r == LookupIn(services, k)
    {
      if k in services {
        r := Ok(services[k]);
      } else {
        r := Err(());
      }
    }

    method ResolveRead(k: TypeKey) returns (r: Result<ReadGuard<V>, ()>)
      ensures r == ResolveReadIn(services, k)
    {
      if k in services {
        match services[k]
        case Singleton(s) => r := s.Read();
        case Factory(_) => r := Err(());
      } else {
        r := Err(());
      }
    }

    method ResolveWrite(k: TypeKey) returns (r: Result<WriteGuard<V>, ()>)
      ensures r == ResolveWriteIn(services, k)
    {
      if k in services {
        match services[k]
        case Singleton(s) => r := s.Write();
        case Factory(_) => r := Err(());
      } else {
        r := Err(());
      }
    }
  }

  /** src/main.rs: an `RwLock` client is bound, and a value written through
      `resolve_write` is read back by `resolve_read`. */
  method UpdateClient<V>(k: TypeKey, client: V, updated: V) returns (seen: V)
    ensures seen == updated
  {
    var c := new ServiceContainer<V>();
    var cell := new Cell(client);
    c.BindSingleton(k, ArcRwLock(cell));
    var w := c.ResolveWrite(k);
    AssignThrough(w.value, updated);
    var r := c.ResolveRead(k);
    DerefIsOriginValue(r.value, SingletonRwLock(cell));
    seen := r.value.Deref();
  }
}
