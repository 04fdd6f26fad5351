/** A bound singleton (`Service<T>` in rustdi/src/service.rs) and the guards
    that `read` and `write` hand out for it.

    `Arc<T>` is modelled by the value it shares. `Arc<RwLock<T>>` and
    `Arc<Mutex<T>>` are modelled by one shared mutable `Cell`: every clone of
    the `Arc` is the same cell, and locking is left out (access is sequential). */
module Services {
  import opened Results

  /** The value inside a lock, shared by every handle onto it. */
  class Cell<V> {
    var value: V

    constructor (v: V)
      ensures value == v
    {
      value := v;
    }
  }

  datatype Service<V> =
    | SingletonArc(shared: V)
    | SingletonRwLock(lock: Cell<V>)
    | SingletonMutex(lock: Cell<V>)
  {
    /** Only the two lock-protected variants can hand out a write guard. */
    predicate Mutable() {
      !SingletonArc?
    }

    /** The heap the service refers to: its cell, if it has one. */
    function Footprint(): set<object> {
      if SingletonArc? then {} else {lock}
    }

    /** The value the service holds right now. */
    function Current(): V
      reads Footprint()
    {
      match this
      case SingletonArc(v) => v
      case SingletonRwLock(c) => c.value
      case SingletonMutex(c) => c.value
    }

    /** `read`: never fails, and the guard is onto this very service
        (the cloned handle, or the locked cell). */
    function Read(): (r: Result<ReadGuard<V>, ()>)
      ensures r.Ok? && r.value.Origin() == Some(this)
    {
      match this
      case SingletonArc(v) => Ok(ReadArc(v))
      case SingletonRwLock(c) => Ok(ReadRwLock(c))
      case SingletonMutex(c) => Ok(ReadMutex(c))
    }

    /** `write`: `Err(())` on `SingletonArc`; otherwise a write guard onto the
        service's own cell. */
    function Write(): (r: Result<WriteGuard<V>, ()>)
      ensures r.Ok? <==> Mutable()
      ensures r.Ok? ==> r.value.Origin() == this
    {
      match this
      case SingletonArc(_) => Err(())
      case SingletonRwLock(c) => Ok(WriteRwLock(c))
      case SingletonMutex(c) => Ok(WriteMutex(c))
    }
  }

  /** `ServiceReadGuard`, with the extra `Ref` case that a layered resolver
      builds around a borrowed reference. */
  datatype ReadGuard<V> =
    | ReadArc(handle: V)
    | ReadRwLock(lock: Cell<V>)
    | ReadMutex(lock: Cell<V>)
    | ReadRef(target: V)
  {
    function Footprint(): set<object> {
      if ReadRwLock? || ReadMutex? then {lock} else {}
    }

    /** `deref`: the value the guard gives read access to, which is the
        current value of the service it was taken from, or the borrowed
        value itself. */
    function Deref(): (d: V)
      reads Footprint()
      ensures Origin().Some? ==> d == Origin().value.Current()
      ensures ReadRef? ==> d == target
    {
      match this
      case ReadArc(v) => v
      case ReadRwLock(c) => c.value
      case ReadMutex(c) => c.value
      case ReadRef(v) => v
    }

    /** The service this guard was taken from; none for a borrowed reference. */
    function Origin(): Option<Service<V>> {
      match this
      case ReadArc(v) => Some(SingletonArc(v))
      case ReadRwLock(c) => Some(SingletonRwLock(c))
      case ReadMutex(c) => Some(SingletonMutex(c))
      case ReadRef(_) => None
    }
  }

  /** `ServiceWriteGuard`: only the lock-protected variants have one. */
  datatype WriteGuard<V> =
    | WriteRwLock(lock: Cell<V>)
    | WriteMutex(lock: Cell<V>)
  {
    /** `deref` on a write guard: the current value of the locked service it
        was taken from. */
    function Deref(): (d: V)
      reads lock
      ensures d == Origin().Current()
    {
      lock.value
    }

    function Origin(): Service<V> {
      match this
      case WriteRwLock(c) => SingletonRwLock(c)
      case WriteMutex(c) => SingletonMutex(c)
    }
  }

  /** `*guard.deref_mut() = v`: the only way to change a service's value. It
      changes the guarded cell and nothing else. */
  method AssignThrough<V>(g: WriteGuard<V>, v: V)
    modifies g.lock
    ensures g.Deref() == v
  {
    g.lock.value := v;
  }

  /** A read guard dereferences to the current value of the service it was
      taken from. */
  lemma DerefIsOriginValue<V>(g: ReadGuard<V>, s: Service<V>)
    requires g.Origin() == Some(s)
    ensures g.Footprint() == s.Footprint()
    ensures g.Deref() == s.Current()
  {
    match g
    case ReadArc(v) =>
    case ReadRwLock(c) =>
    case ReadMutex(c) =>
  }

  /** `read` succeeds on every variant and its guard shows the stored value;
      a guard onto an `Arc` holds no lock and refers to no cell. */
  lemma ReadSeesCurrent<V>(s: Service<V>)
    ensures s.Read().Ok?
    ensures s.Read().value.Deref() == s.Current()
    ensures s.SingletonArc? ==> s.Read().value.Footprint() == {}
  {
    DerefIsOriginValue(s.Read().value, s);
  }

  /** On a lock-protected service the read guard and the write guard are onto
      the same cell, so what one writes the other sees. */
  lemma GuardsShareTheCell<V>(s: Service<V>)
    requires s.Mutable()
    ensures s.Write().Ok?
    ensures s.Write().value.lock == s.lock
    ensures s.Read().value.Footprint() == {s.lock}
    ensures s.Write().value.Deref() == s.Current()
  {
  }

  /** The write-then-read sequence of the demo programs: a value assigned
      through a write guard is what a later read guard dereferences to. */
  method WriteThenRead<V>(s: Service<V>, v: V) returns (seen: V)
    requires s.Mutable()
    modifies s.lock
    ensures seen == v && s.Current() == v
  {
    var w := s.Write();
    AssignThrough(w.value, v);
    var r := s.Read();
    ReadSeesCurrent(s);
    seen := r.value.Deref();
  }
}
