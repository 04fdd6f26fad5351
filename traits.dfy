/** The `Resolver` capability of rustdi/src/traits.rs: the three resolution
    operations, each keyed by the requested type, with the implementation's
    own error type `E`. A resolver is modelled by the three answers it gives. */
module Resolvers {
  import opened Results
  import opened TypeKeys
  import opened Services

  datatype Resolver<V, E> = Resolver(
    immutableRef: TypeKey -> Result<ReadGuard<V>, E>,
    mutableRef: TypeKey -> Result<WriteGuard<V>, E>,
    ownedValue: TypeKey -> Result<V, E>)
}
