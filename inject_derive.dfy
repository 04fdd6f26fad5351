/** The `#[inject]` attribute of rustdi_derive/src/lib.rs, over an abstract
    description of a function's parameter list instead of `syn` syntax trees.

    Each parameter is classified into a `ResolveType`; a shape outside the
    three accepted ones makes the macro panic. The generated wrapper takes a
    `Resolver`, resolves the parameters one after another in declaration
    order with the operation their mode names (`?` stops at the first
    failure), and calls the original function only when all succeeded. */
module Inject {
  import opened Results
  import opened TypeKeys
  import opened Services
  import opened Resolvers

  datatype ResolveType = ImmutableBorrow | MutableBorrow | OwnedValue

  /** A parameter's type: `&T` / `&mut T`, a path `T` (`qualified` when it
      carries a `<T as Trait>::` self type), or anything else. */
  datatype TypeShape =
    | Reference(mutable: bool, elem: TypeShape)
    | PathType(qualified: bool, path: TypeKey)
    | OtherType

  /** A function parameter: a captured `pattern: Type` or one of the other
      kinds of argument `syn` distinguishes. */
  datatype FnArg = Captured(ty: TypeShape) | SelfRef | SelfValue | Inferred | Ignored

  /** A classified parameter: the type to resolve and how. */
  datatype Param = Param(key: TypeKey, mode: ResolveType)

  /** The parameter written for a classified type: `&T`, `&mut T` or `T`. */
  function Spelling(p: Param): FnArg {
    match p.mode
    case ImmutableBorrow => Captured(Reference(false, PathType(false, p.key)))
    case MutableBorrow => Captured(Reference(true, PathType(false, p.key)))
    case OwnedValue => Captured(PathType(false, p.key))
  }

  /** The classification of one parameter; `None` where the macro panics. */
  function Classify(arg: FnArg): (r: Option<Param>)
    ensures r.Some? ==> Spelling(r.value) == arg
  {
    match arg
    case Captured(Reference(mutable, PathType(false, path))) =>
      Some(Param(path, if mutable then MutableBorrow else ImmutableBorrow))
    case Captured(Reference(_, _)) => None
    case Captured(PathType(false, path)) => Some(Param(path, OwnedValue))
    case _ => None
  }

  /** The macro accepts exactly the three simple spellings, and reads each
      back as the parameter it spells. */
  lemma ClassifyAcceptsExactly(arg: FnArg, p: Param)
    ensures Classify(arg) == Some(p) <==> arg == Spelling(p)
  {
    if arg == Spelling(p) {
      match p.mode
      case ImmutableBorrow =>
      case MutableBorrow =>
      case OwnedValue =>
    }
  }

  /** The whole parameter list, classified; `None` when any parameter makes
      the macro panic. */
  function ClassifyAll(args: seq<FnArg>): (r: Option<seq<Param>>)
    ensures r.Some? <==> forall i :: 0 <= i < |args| ==> Classify(args[i]).Some?
    ensures r.Some? ==> |r.value| == |args|
    ensures r.Some? ==> forall i :: 0 <= i < |args| ==> Classify(args[i]) == Some(r.value[i])
  {
    if args == [] then Some([])
    else
      match (Classify(args[0]), ClassifyAll(args[1..]))
      case (Some(p), Some(ps)) =>
        assert forall i :: 1 <= i < |args| ==> args[i] == args[1..][i - 1];
        Some([p] + ps)
      case (Some(_), None) =>
        assert forall i :: 0 <= i < |args[1..]| ==> args[1..][i] == args[i + 1];
        None
      case (None, _) => None
  }

  /** What the wrapper passes for one parameter: `&*guard`, `&mut *guard` or
      the owned value. */
  datatype Resolved<V> = Shared(guard: ReadGuard<V>) | Exclusive(writeGuard: WriteGuard<V>) | Moved(value: V)

  /** The one resolution the wrapper issues for a parameter, by its mode: it
      succeeds exactly when the resolver's operation for that mode does, and
      the argument is of the kind the mode asks for. */
  function ResolveParam<V, E>(r: Resolver<V, E>, p: Param): (res: Result<Resolved<V>, E>)
    ensures p.mode == ImmutableBorrow ==> (res.Ok? <==> r.immutableRef(p.key).Ok?)
    ensures p.mode == MutableBorrow ==> (res.Ok? <==> r.mutableRef(p.key).Ok?)
    ensures p.mode == OwnedValue ==> (res.Ok? <==> r.ownedValue(p.key).Ok?)
    ensures res.Ok? ==> (res.value.Shared? <==> p.mode == ImmutableBorrow)
    ensures res.Ok? ==> (res.value.Exclusive? <==> p.mode == MutableBorrow)
    ensures res.Ok? ==> (res.value.Moved? <==> p.mode == OwnedValue)
    ensures p.mode == ImmutableBorrow && res.Ok? ==> res.value.guard == r.immutableRef(p.key).value
    ensures p.mode == ImmutableBorrow && res.Err? ==> res.error == r.immutableRef(p.key).error
    ensures p.mode == MutableBorrow && res.Ok? ==> res.value.writeGuard == r.mutableRef(p.key).value
    ensures p.mode == MutableBorrow && res.Err? ==> res.error == r.mutableRef(p.key).error
    ensures p.mode == OwnedValue && res.Ok? ==> res.value.value == r.ownedValue(p.key).value
    ensures p.mode == OwnedValue && res.Err? ==> res.error == r.ownedValue(p.key).error
  {
    match p.mode
    case ImmutableBorrow =>
      (match r.immutableRef(p.key) case Ok(g) => Ok(Shared(g)) case Err(e) => Err(e))
    case MutableBorrow =>
      (match r.mutableRef(p.key) case Ok(g) => Ok(Exclusive(g)) case Err(e) => Err(e))
    case OwnedValue =>
      (match r.ownedValue(p.key) case Ok(v) => Ok(Moved(v)) case Err(e) => Err(e))
  }

  /** Every parameter resolves. */
  predicate AllResolve<V, E>(r: Resolver<V, E>, ps: seq<Param>) {
    forall i :: 0 <= i < |ps| ==> ResolveParam(r, ps[i]).Ok?
  }

  /** The arguments of a successful call, parameter by parameter. */
  function ArgsOf<V, E>(r: Resolver<V, E>, ps: seq<Param>): seq<Resolved<V>>
    requires AllResolve(r, ps)
  {
    seq(|ps|, i requires 0 <= i < |ps| && AllResolve(r, ps) => ResolveParam(r, ps[i]).value)
  }

  /** The argument list, evaluated left to right with `?`: the first failing
      resolution's error, or every parameter's resolution. */
  function ResolveAll<V, E>(r: Resolver<V, E>, ps: seq<Param>): (res: Result<seq<Resolved<V>>, E>)
    ensures res.Ok? ==> |res.value| == |ps|
    ensures res.Ok? ==> forall i :: 0 <= i < |ps| ==> ResolveParam(r, ps[i]) == Ok(res.value[i])
    ensures res.Err? ==> exists i :: 0 <= i < |ps| && ResolveParam(r, ps[i]) == Err(res.error) && AllResolve(r, ps[..i])
  {
    if ps == [] then Ok([])
    else
      match ResolveParam(r, ps[0])
      case Err(e) =>
        assert AllResolve(r, ps[..0]);
        Err(e)
      case Ok(a) =>
        match ResolveAll(r, ps[1..])
        case Err(e) =>
          FailureShifts(r, ps, e);
          Err(e)
        case Ok(rest) =>
          assert forall i :: 1 <= i < |ps| ==> ps[i] == ps[1..][i - 1];
          Ok([a] + rest)
  }

  /** A failure in the tail after a successful first resolution is a first
      failure of the whole list, one position further on. */
  lemma FailureShifts<V, E>(r: Resolver<V, E>, ps: seq<Param>, e: E)
    requires ps != [] && ResolveParam(r, ps[0]).Ok?
    requires exists j :: 0 <= j < |ps[1..]| && ResolveParam(r, ps[1..][j]) == Err(e) && AllResolve(r, ps[1..][..j])
    ensures exists i :: 0 <= i < |ps| && ResolveParam(r, ps[i]) == Err(e) && AllResolve(r, ps[..i])
  {
    var j :| 0 <= j < |ps[1..]| && ResolveParam(r, ps[1..][j]) == Err(e) && AllResolve(r, ps[1..][..j]);
    assert ps[..j + 1] == [ps[0]] + ps[1..][..j];
    assert ps[j + 1] == ps[1..][j];
  }

  /** The resolutions the wrapper performs, in order: all of the parameters
      when they all resolve, otherwise those up to and including the first
      that fails, and none after it. */
  function Attempted<V, E>(r: Resolver<V, E>, ps: seq<Param>): (calls: seq<Param>)
    ensures |calls| <= |ps| && calls == ps[..|calls|]
    ensures AllResolve(r, ps) ==> calls == ps
    ensures !AllResolve(r, ps) ==>
      0 < |calls| && ResolveParam(r, calls[|calls| - 1]).Err? && AllResolve(r, calls[..|calls| - 1])
  {
    if ps == [] then []
    else if ResolveParam(r, ps[0]).Err? then [ps[0]]
    else
      var rest := Attempted(r, ps[1..]);
      assert AllResolve(r, ps[1..]) ==> AllResolve(r, ps) by {
        if AllResolve(r, ps[1..]) {
          forall i | 0 <= i < |ps| ensures ResolveParam(r, ps[i]).Ok? {
            if i > 0 { assert ps[i] == ps[1..][i - 1]; }
          }
        }
      }
      assert !AllResolve(r, ps[1..]) ==> ([ps[0]] + rest)[..|rest|] == [ps[0]] + rest[..|rest| - 1];
      [ps[0]] + rest
  }

  /** The wrapper consults only the resolutions `Attempted` lists: a resolver
      that answers those parameters the same way gives the same trace, the
      same argument list or error, and the same wrapper result, however it
      answers the parameters after the first failure. */
  lemma {:induction false} OnlyAttemptedMatter<V, E, T>(r: Resolver<V, E>, r2: Resolver<V, E>, ps: seq<Param>,
                                                         original: seq<Resolved<V>> -> T)
    requires forall p :: p in Attempted(r, ps) ==> ResolveParam(r2, p) == ResolveParam(r, p)
    ensures Attempted(r2, ps) == Attempted(r, ps)
    ensures ResolveAll(r2, ps) == ResolveAll(r, ps)
    ensures Wrapper(r2, ps, original) == Wrapper(r, ps, original)
  {
    if ps != [] {
      assert ps[0] in Attempted(r, ps);
      if ResolveParam(r, ps[0]).Ok? {
        forall p | p in Attempted(r, ps[1..])
          ensures ResolveParam(r2, p) == ResolveParam(r, p)
        {
          assert p in Attempted(r, ps);
        }
        OnlyAttemptedMatter(r, r2, ps[1..], original);
      }
    }
  }

  /** The generated wrapper: `Ok` of the original function applied to the
      resolved arguments when every resolution succeeds; otherwise the first
      failing resolution's error, without calling the original function. */
  function Wrapper<V, E, T>(r: Resolver<V, E>, ps: seq<Param>, original: seq<Resolved<V>> -> T): (res: Result<T, E>)
    ensures res.Ok? <==> AllResolve(r, ps)
    ensures res.Ok? ==> res.value == original(ArgsOf(r, ps))
    ensures res.Err? ==>
      exists i :: 0 <= i < |ps| && ResolveParam(r, ps[i]) == Err(res.error) && AllResolve(r, ps[..i])
  {
    match ResolveAll(r, ps)
    case Ok(args) =>
      assert args == ArgsOf(r, ps);
      Ok(original(args))
    case Err(e) => Err(e)
  }
}
