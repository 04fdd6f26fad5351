/** The older `#[inject]` of src/lib.rs: only reference parameters are
    accepted, the wrapper takes the src/ioc.rs container itself, resolves each
    parameter with `resolve_read` or `resolve_write` and `unwrap`s it, so a
    failed resolution panics instead of being returned; the wrapper returns
    unit. */
module LegacyInject {
  import opened Results
  import opened TypeKeys
  import opened Services
  import opened LegacyIoc
  import Inject

  datatype ResolveType = ImmutableBorrow | MutableBorrow

  datatype Param = Param(key: TypeKey, mode: ResolveType)

  /** The classification of one parameter; `None` where the macro panics.
      An accepted parameter is spelled `&T` or `&mut T` for its type, and
      every such spelling is accepted. */
  function Classify(arg: Inject.FnArg): (r: Option<Param>)
    ensures r.Some? ==> Inject.Spelling(Upgrade(r.value)) == arg
    ensures r.None? <==> forall p :: Inject.Spelling(Upgrade(p)) != arg
  {
    match arg
    case Captured(Reference(mutable, PathType(false, path))) =>
      Some(Param(path, if mutable then MutableBorrow else ImmutableBorrow))
    case _ => None
  }

  /** The same parameter in the later macro's terms. */
  function Upgrade(p: Param): Inject.Param {
    Inject.Param(p.key, if p.mode == MutableBorrow then Inject.MutableBorrow else Inject.ImmutableBorrow)
  }

  /** The older macro accepts exactly the later macro's borrowed parameters,
      with the same type and mutability, and rejects owned ones. */
  lemma ClassifyIsTheBorrowingPart(arg: Inject.FnArg)
    ensures Classify(arg).Some? ==> Inject.Classify(arg) == Some(Upgrade(Classify(arg).value))
    ensures Classify(arg).None? <==>
      (Inject.Classify(arg).None? || Inject.Classify(arg).value.mode == Inject.OwnedValue)
  {
  }

  /** `&*resolver.resolve_read::<T>()` or `&mut *resolver.resolve_write::<T>()`,
      before the `unwrap`. */
  function ResolveParam<V>(services: map<TypeKey, ServiceValue<V>>, p: Param): (res: Result<Inject.Resolved<V>, ()>)
    ensures p.mode == ImmutableBorrow ==> (res.Ok? <==> p.key in services && services[p.key].Singleton?)
    ensures p.mode == MutableBorrow ==>
      (res.Ok? <==> p.key in services && services[p.key].Singleton? && services[p.key].singleton.Mutable())
    ensures res.Ok? ==> (res.value.Shared? <==> p.mode == ImmutableBorrow)
    ensures res.Ok? ==> (res.value.Exclusive? <==> p.mode == MutableBorrow)
    ensures res.Ok? && p.mode == ImmutableBorrow ==> res.value.guard.Origin() == Some(services[p.key].singleton)
    ensures res.Ok? && p.mode == MutableBorrow ==> res.value.writeGuard.Origin() == services[p.key].singleton
  {
    match p.mode
    case ImmutableBorrow =>
      (match ResolveReadIn(services, p.key) case Ok(g) => Ok(Inject.Shared(g)) case Err(e) => Err(e))
    case MutableBorrow =>
      (match ResolveWriteIn(services, p.key) case Ok(g) => Ok(Inject.Exclusive(g)) case Err(e) => Err(e))
  }

  /** How a call of the generated wrapper ends: the original function is
      called with these arguments and the wrapper returns `()`, or the
      `unwrap` of the resolution of parameter `at` panics. */
  datatype Completion<V> = Returned(args: seq<Inject.Resolved<V>>) | Panicked(at: nat)

  /** The generated wrapper over the container's current bindings. It
      returns exactly when every parameter resolves, passing each parameter's
      resolution; otherwise it panics at the first parameter that fails. */
  function Wrapper<V>(services: map<TypeKey, ServiceValue<V>>, ps: seq<Param>): (c: Completion<V>)
    ensures c.Returned? <==> forall i :: 0 <= i < |ps| ==> ResolveParam(services, ps[i]).Ok?
    ensures c.Returned? ==> |c.args| == |ps|
    ensures c.Returned? ==> forall i :: 0 <= i < |ps| ==> ResolveParam(services, ps[i]) == Ok(c.args[i])
    ensures c.Panicked? ==> c.at < |ps| && ResolveParam(services, ps[c.at]).Err?
    ensures c.Panicked? ==> forall j :: 0 <= j < c.at ==> ResolveParam(services, ps[j]).Ok?
  {
    if ps == [] then Returned([])
    else
      match ResolveParam(services, ps[0])
      case Err(_) => Panicked(0)
      case Ok(a) =>
        match Wrapper(services, ps[1..])
        case Panicked(i) =>
          assert ps[i + 1] == ps[1..][i];
          assert forall j :: 1 <= j < i + 1 ==> ps[j] == ps[1..][j - 1];
          Panicked(i + 1)
        case Returned(rest) =>
          assert forall j :: 1 <= j < |ps| ==> ps[j] == ps[1..][j - 1];
          Returned([a] + rest)
  }

  /** A handler taking `&mut T` for a type bound as a `Bare` singleton, or
      any reference to a factory-bound type, panics there. */
  lemma UnwritableParameterPanics<V>(services: map<TypeKey, ServiceValue<V>>, ps: seq<Param>, i: nat)
    requires i < |ps|
    requires ps[i].key in services
    requires services[ps[i].key].Factory? ||
      (ps[i].mode == MutableBorrow && services[ps[i].key].Singleton? && services[ps[i].key].singleton.SingletonArc?)
    ensures Wrapper(services, ps).Panicked?
    ensures Wrapper(services, ps).at <= i
  {
    assert ResolveParam(services, ps[i]).Err?;
  }
}
