/** Optional values (a Go nil pointer) and results that carry an error
    (a Go `Errorf` / `log.Fatalln` path turned into a value). */
module Wrappers {

  datatype Option<+T> = None | Some(value: T)

  datatype Result<+T, +E> = Ok(value: T) | Err(error: E)
}
