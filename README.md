# rustdi binding and resolution engine, in Dafny

This project models the dependency-injection registry of `rustdi`. A
container maps a type identity to a bound singleton. The singleton is a
shared value (`Arc<T>`), a value behind a reader-writer lock
(`Arc<RwLock<T>>`) or a value behind a mutex (`Arc<Mutex<T>>`). Binding
inserts into the map in place, and the last bind for a type wins.
Resolution looks the type up and dispatches on the variant. `read` always
gives a read guard onto the stored value. `write` gives a write guard for
the two lock-protected variants and `Err(())` for `Arc`.

The model also covers:
- the five-case `ResolveError` taxonomy and its messages;
- the `Resolver` capability;
- the example router's request-layered resolver and route table;
- the two versions of the `#[inject]` attribute, as the classification of
  parameter shapes and the meaning of the wrapper each one generates;
- the two historical container files.

Modelling choices:
- A Rust type identity (`TypeId`, a `TypeMap` key) is a `TypeKey`. Equal
  keys mean the same type.
- One type parameter `V` stands for the value of every bound type.
- `Arc<T>` is modelled by the value it shares.
- The state behind `Arc<RwLock<T>>` or `Arc<Mutex<T>>` is one `Cell`
  object. Every clone of the `Arc` refers to that same cell.
- Guards are datatypes. A read guard holds a value or a cell, plus a `Ref`
  case for a borrowed reference. A write guard holds a cell.
- `Origin()` maps a guard back to the service it was taken from. The
  contracts of `read` and `write` are stated through it.
- `deref_mut` is `AssignThrough`, a method that changes the guarded cell
  and nothing else.
- A resolver is a datatype of three total functions, one per resolution
  mode. Traits are not used.

The model follows the code:
- Resolution in `rustdi/src/container.rs` and in both `ioc.rs` files fails
  with `Err(())`; no container returns a `ResolveError`.
- A poisoned lock is not reported as an error: the code calls `unwrap()` on
  the lock.
- No container in rustdi/src/container.rs, rustdi/src/ioc.rs or src/ioc.rs
  has a factory binding or `resolve_owned_value`. `src/ioc.rs` has a
  `Factory` value, and it can never be borrowed.
- `container.rs` calls `immutable_ref()` and `mutable_ref()`, but
  `service.rs` defines them as `read` and `write`. The model treats them as
  the same operations.
- `router.rs` builds `ServiceReadGuard::Ref`, which `service.rs` does not
  declare. The model adds that case to the read guard.

One file per source file, plus results.dfy, which holds the two helper
modules `Results` and `TypeKeys`; the other modules are `Services`
(service.dfy), `Containers` (container.dfy), `ResolveErrors`
(resolve_error.dfy), `Resolvers` (traits.dfy), `Routing` (router.dfy),
`Inject` (inject_derive.dfy), `SupersededIoc` (superseded_ioc.dfy),
`LegacyIoc` (legacy_ioc.dfy), `LegacyInject` (legacy_inject.dfy).

## Model

| member | source | states |
|---|---|---|
| `Services.Service.Read` | rustdi/src/service.rs:19-25 | `read` succeeds on every variant; the guard's origin is this very service (the cloned handle or the same locked cell), so reading changes neither the variant nor the value |
| `Services.Service.Write` | rustdi/src/service.rs:27-33 | `write` fails exactly on `SingletonArc`; on `SingletonRwLock`/`SingletonMutex` it gives a write guard whose origin is this service, hence onto its cell |
| `Services.AssignThrough` | rustdi/src/service.rs:67-73 | assigning through `deref_mut` makes the guard dereference to the new value and changes only the guarded cell |
| `Services.DerefIsOriginValue` | rustdi/src/service.rs:44-50 | a read guard taken from a service refers to the same heap as that service and dereferences to its current value |
| `Services.ReadSeesCurrent` | rustdi/src/service.rs:19-50 | `read` then `deref` gives the stored value for every variant; an `Arc` guard refers to no cell (no lock, nothing to mutate) |
| `Services.ReadGuard.Deref` | rustdi/src/service.rs:41-51 | the value a read guard gives access to: the current value of the service it was taken from (the shared value, or the locked cell's contents), or the borrowed value for a `Ref` guard |
| `Services.WriteGuard.Deref` | rustdi/src/service.rs:57-66 | the value a write guard gives access to: the current contents of the locked service it was taken from |
| `Services.GuardsShareTheCell` | rustdi/src/service.rs:22-31 | on a lock-protected service the write guard and the read guard are onto the service's one cell, and the write guard derefs to its value |
| `Services.WriteThenRead` | rustdi/examples/demo.rs:54-61 | a value assigned through a write guard is what a later read guard dereferences to |
| `Containers.LookupIn` | rustdi/src/container.rs:43-48 | the lookup succeeds exactly for a bound type and then yields the bound service; it is generic in the kind of binding, so it is also `resolve` of src/ioc.rs:119-124, which yields a singleton or a factory |
| `Containers.ImmutableRefIn` | rustdi/src/container.rs:50-55 | fails exactly for an unbound type; otherwise the guard's origin is the bound service |
| `Containers.MutableRefIn` | rustdi/src/container.rs:57-62 | succeeds exactly for a type bound to a lock-protected service, with a write guard onto that service |
| `Containers.BindThenResolve` | rustdi/src/container.rs:25-38 | after binding `s` under `k`, every resolution of `k` sees `s` (the last bind wins) and every other type resolves as before |
| `Containers.MutableRefLegality` | rustdi/src/container.rs:57-62 | a mutable reference to an `Arc`-bound type fails; for RwLock and Mutex bindings it is the matching write guard onto the bound cell |
| `Containers.ServiceContainer.constructor` | rustdi/src/container.rs:18-20 | a new container has no bindings |
| `Containers.ServiceContainer.BindSingletonArc` | rustdi/src/container.rs:25-28 | the map afterwards is the old map with `k` now bound to `SingletonArc(service)`, nothing else changed |
| `Containers.ServiceContainer.BindSingletonRwLock` | rustdi/src/container.rs:30-33 | the same, binding `SingletonRwLock(service)` |
| `Containers.ServiceContainer.BindSingletonMutex` | rustdi/src/container.rs:35-38 | the same, binding `SingletonMutex(service)` |
| `Containers.ServiceContainer.Resolve` | rustdi/src/container.rs:43-48 | answers as `LookupIn` on the current map; no modifies clause, so the map is unchanged |
| `Containers.ServiceContainer.ResolveImmutableRef` | rustdi/src/container.rs:50-55 | answers as `ImmutableRefIn` on the current map, without changing it |
| `Containers.ServiceContainer.ResolveMutableRef` | rustdi/src/container.rs:57-62 | answers as `MutableRefIn` on the current map, without changing it |
| `Containers.ResolveOnFresh` | rustdi/src/container.rs:18-20 | on a freshly constructed container `resolve`, `resolve_immutable_ref` and `resolve_mutable_ref` all fail |
| `Containers.Rebind` | rustdi/src/container.rs:25-38 | binding a type a second time replaces the first binding, even one of another variant |
| `Containers.ManualResolution` | rustdi_examples/src/main.rs:58-78 | with a config bound as `Arc` and a state behind `RwLock`, a change made through `resolve_mutable_ref` is seen by a later `resolve_immutable_ref`; the config cannot be written (shown by the `invalid_handler` call at the end of rustdi/examples/demo.rs, lines 80-83) |
| `ResolveErrors.ErrorSetIsClosed` | rustdi/src/resolve_error.rs:5-11 | every error is one of exactly five distinct cases |
| `ResolveErrors.MessagesAreDistinct` | rustdi/src/resolve_error.rs:14-24 | `Display::fmt`, modelled by `ResolveErrors.Message` (the verbatim message of each case), is total and injective: different cases print different messages |
| `ResolveErrors.MeaningRoundTrip` | rustdi/src/resolve_error.rs:17-21 | each case means one situation (missing service, poisoned lock, mutable ref of an immutable service, owned value of a mutable or of an immutable singleton), and that situation is reported by that case only |
| `ResolveErrors.ImmutableRefNeverRefused` | rustdi/src/resolve_error.rs:17-21 | no case reports a refused immutable reference, whatever the service's mutability; a refused mutable reference has a case exactly when the service is immutable (`MutImmutable`) |
| `Routing.RequestTypeIsOverridden` | rustdi_examples/src/router.rs:40-42 | asking for the request's own type gives exactly the `Ref` guard onto the request, the same whatever the inner resolver |
| `Routing.RequestResolver.ResolveImmutableRef` | rustdi_examples/src/router.rs:37-45 | for the request's own type, a `Ref` guard that comes from no service and dereferences to the request itself; for every other type, the inner resolver's answer |
| `Routing.OtherRequestsDelegate` | rustdi_examples/src/router.rs:47-53 | `Routing.RequestResolver.ResolveMutableRef` and `Routing.RequestResolver.ResolveOwnedValue` are exactly the inner resolver's answers for every type, the request's own included (the error type is the inner one's) |
| `Routing.RequestParameterResolves` | rustdi_examples/src/router.rs:23-24 | an injected handler's `&Request` parameter always resolves, to the request being handled |
| `Routing.LayerIsTransparent` | rustdi_examples/src/router.rs:37-53 | for parameters that do not borrow the request, resolving them all through the request layer equals resolving them through the inner resolver |
| `Routing.Router.constructor` | rustdi_examples/src/router.rs:62-64 | a new router has no routes and keeps the given resolver |
| `Routing.Router.Add` | rustdi_examples/src/router.rs:66-70 | the handler is stored under `(method, path)`, replacing any earlier one there; other routes unchanged |
| `Routing.Router.Lookup` | rustdi_examples/src/router.rs:72-74 | a handler is returned exactly for a `(method, path)` that was added, and it is that route's handler |
| `Routing.Router.HandleRequest` | rustdi_examples/src/router.rs:76-84 | no route: nothing happens; a match: that handler's result, on a resolver layering the request over the shared resolver, is unwrapped (`Ok` handled, `Err` panics) |
| `Routing.ReaddReplaces` | rustdi_examples/src/router.rs:66-84 | after adding two handlers under the same key a matching request runs the second; the same path under another method is not routed |
| `Inject.Classify` | rustdi_derive/src/lib.rs:27-43 | an accepted parameter is exactly the spelling (`&T`, `&mut T`, `T`) of its classification |
| `Inject.ClassifyAcceptsExactly` | rustdi_derive/src/lib.rs:27-43 | `&mut T` is `MutableBorrow`, `&T` is `ImmutableBorrow`, plain `T` is `OwnedValue`, and every other shape (reference to a non-simple type, non-captured argument, qualified path, other type) is rejected |
| `Inject.ResolveParam` | rustdi_derive/src/lib.rs:60-66 | a parameter is resolved with the resolver operation of its mode (`resolve_immutable_ref`, `resolve_mutable_ref`, `resolve_owned_value`) and succeeds exactly when that operation does; the argument is that operation's guard or value, wrapped as a shared guard, a write guard or a moved value as the mode asks, and a failure carries that operation's error |
| `Inject.ClassifyAll` | rustdi_derive/src/lib.rs:25-44 | the list is accepted exactly when every parameter is, and then it is each parameter's classification in order |
| `Inject.ResolveAll` | rustdi_derive/src/lib.rs:60-73 | on success, one resolution per parameter in order with its mode's operation; on failure, the error of a parameter all of whose predecessors resolved (the first failure) |
| `Inject.Attempted` | rustdi_derive/src/lib.rs:60-73 | the trace of the `?` chain is a prefix of the parameters: all of them when all succeed, otherwise up to and including the first failing one and none after |
| `Inject.OnlyAttemptedMatter` | rustdi_derive/src/lib.rs:60-73 | `ResolveAll` and `Wrapper` depend only on the resolutions in `Attempted`: two resolvers agreeing on those give the same trace, argument list or error, and wrapper result, so nothing after the first failure is consulted |
| `Inject.Wrapper` | rustdi_derive/src/lib.rs:69-75 | `Ok(original(args))` exactly when every resolution succeeds, with the arguments resolved parameter by parameter; otherwise the first failure's error and the original is not applied |
| `SupersededIoc.ServiceContainer.constructor` | rustdi/src/ioc.rs:90-92 | a new container has no bindings |
| `SupersededIoc.ServiceContainer.BindSingletonArc` | rustdi/src/ioc.rs:94-97 | the old map with `k` bound to `SingletonArc(service)` |
| `SupersededIoc.ServiceContainer.BindSingletonRwLock` | rustdi/src/ioc.rs:99-102 | the old map with `k` bound to `SingletonRwLock(service)` |
| `SupersededIoc.ServiceContainer.BindSingletonMutex` | rustdi/src/ioc.rs:104-107 | the old map with `k` bound to `SingletonMutex(service)` |
| `SupersededIoc.ServiceContainer.Resolve` | rustdi/src/ioc.rs:109-114 | the stored binding for a bound type, `Err` otherwise |
| `SupersededIoc.ServiceContainer.ResolveRead` | rustdi/src/ioc.rs:116-121 | fails exactly for an unbound type, otherwise a guard onto the binding |
| `SupersededIoc.ServiceContainer.ResolveWrite` | rustdi/src/ioc.rs:123-128 | succeeds exactly for a type bound to a lock-protected service |
| `SupersededIoc.Demo` | rustdi/examples/demo.rs:45-61 | a value written through `resolve_write` is seen by a later `resolve_read`; the `Arc` config cannot be written (shown by the `invalid_handler` call at the end of rustdi/examples/demo.rs, lines 80-83) |
| `LegacyIoc.FromHandle` | src/ioc.rs:22-30 | `From` inverts `IntoHandle`: `Arc<T>` becomes `Bare`, `Arc<RwLock<T>>` becomes `RwLock`, `Arc<Mutex<T>>` becomes `Mutex` |
| `LegacyIoc.FromIsBijective` | src/ioc.rs:22-30 | the conversions are a bijection that keeps the shared value or the given lock |
| `LegacyIoc.ResolveReadIn` | src/ioc.rs:126-131 | succeeds exactly for a singleton binding, with a guard onto that singleton |
| `LegacyIoc.ResolveWriteIn` | src/ioc.rs:133-138 | succeeds exactly for a lock-protected singleton binding |
| `LegacyIoc.FactoryIsNeverBorrowed` | src/ioc.rs:127-137 | a `Factory` binding is found by `resolve` but `resolve_read` and `resolve_write` fail on it |
| `LegacyIoc.BareReadsButDoesNotWrite` | src/ioc.rs:32-46 | a `Bare` singleton reads (cloning the handle) and does not write |
| `LegacyIoc.ServiceContainer.constructor` | src/ioc.rs:110-112 | a new container has no bindings |
| `LegacyIoc.ServiceContainer.BindSingleton` | src/ioc.rs:114-117 | the converted handle is stored as a `Singleton`, replacing any earlier binding of the type |
| `LegacyIoc.ServiceContainer.Resolve` | src/ioc.rs:119-124 | answers as `Containers.LookupIn` on the current map, without changing it |
| `LegacyIoc.ServiceContainer.ResolveRead` | src/ioc.rs:126-131 | answers as `ResolveReadIn` on the current map, without changing it |
| `LegacyIoc.ServiceContainer.ResolveWrite` | src/ioc.rs:133-138 | answers as `ResolveWriteIn` on the current map, without changing it |
| `LegacyIoc.UpdateClient` | src/main.rs:26-35 | after binding a client behind an `RwLock`, a value written through `resolve_write` is read back through `resolve_read` |
| `LegacyInject.Classify` | src/lib.rs:26-43 | an accepted parameter is spelled `&T` or `&mut T` for its type and mode, and every such spelling is accepted; everything else panics |
| `LegacyInject.ClassifyIsTheBorrowingPart` | src/lib.rs:26-43 | the older macro accepts exactly the borrowed parameters the later one accepts, with the same type and mutability, and rejects non-references and references to non-simple types |
| `LegacyInject.ResolveParam` | src/lib.rs:52-57 | before the `unwrap`: a `&T` parameter resolves exactly when its type is bound to a singleton, a `&mut T` parameter exactly when it is bound to a lock-protected singleton; the argument is a shared or a write guard, as the mode asks, onto that bound singleton |
| `LegacyInject.Wrapper` | src/lib.rs:52-65 | the wrapper returns (unit) exactly when every parameter resolves with `resolve_read`/`resolve_write` by its mode, passing those resolutions in order; otherwise the `unwrap` of the first failing parameter panics |
| `LegacyInject.UnwritableParameterPanics` | src/lib.rs:52-57 | a `&mut` parameter of a `Bare`-bound type, or any parameter of a factory-bound type, makes the wrapper panic at or before that parameter |

## Left out

- Locking: blocking, concurrent readers and writers, thread interleaving and lock poisoning (the `unwrap()` on `read()`, `write()` and `lock()`) are not modelled; the model keeps no lock state, so a lock-protected value is a cell that any guard reads or writes without waiting, and the `Poisoned` case exists only in the error taxonomy.
- Type identity: `TypeMap`, `TypeId`, the `Key` impls and the `transmute` in the router are replaced by an abstract `TypeKey` and one value type `V`; that equal keys name the same type is taken as given.
- Guard lifetimes: a guard releasing its lock at the end of its scope is not modelled; guards are plain handles.
- Read guards have no mutation path because `ReadGuard` has only the function `Deref`; this is a fact about the model's interface, not a stated contract.
- `bind_factory` and `resolve_owned_value` (called from the example programs) are not defined in any of the three container files and are not modelled; in the resolver capability `ownedValue` is just one of the three answers.
- A resolver is represented by the three functions it answers with; `Inject` (traits.rs) has no implementation and is not modelled.
- Macro machinery: `syn` parsing, `quote!` generation, the renaming of the original function to `*_orig` and the debug `println!` calls are not modelled; parameters are an abstract `FnArg` shape; the wrapper's `Ok` type is the original function's return type `T` (unit when none is declared), a type-level fact with nothing to prove.
- `Inject.Wrapper` and `LegacyInject.Wrapper`: every guard the generated call takes stays alive until the original function returns, so a handler with two parameters of one `Mutex`-bound type, or with `&T` and `&mut T` of one `RwLock`-bound type, never gets past the second lock (it deadlocks or panics); the model has no lock state and returns normally there, so this outcome is not modelled.
- `Inject.Wrapper`: the original function is a pure function of its resolved arguments; its effects (for instance a write through a `&mut` argument) are not part of the wrapper's result.
- `LegacyInject`: the classification of a whole parameter list is not restated; like the later macro's `ClassifyAll`, one rejected parameter makes the macro panic.
- `Routing.Router.HandleRequest`: the request's method and URI path are passed beside the request value instead of being read from an HTTP request; the `hyper` server, `main`, logging and responses are not modelled.
- Handlers are total functions from the layered resolver to `Result<(), ResolveError>`; their own effects are not modelled.
- The demo and example programs are used only as scenarios (`WriteThenRead`, `ManualResolution`, `Demo`, `UpdateClient`, `ReaddReplaces`); the thread that src/main.rs spawns for the write is modelled as a call that finishes before the read.
