/** Result and Option, with Rust's constructor names. */
module Results {

  datatype Result<T, E> = Ok(value: T) | Err(error: E)

  datatype Option<T> = None | Some(value: T)
}

/** The identity of a Rust type (`TypeId`, or the `KeyType<S>` of a `TypeMap`).
    Two keys are equal exactly when they name the same type. */
module TypeKeys {

  datatype TypeKey = TypeOf(path: string)
}
