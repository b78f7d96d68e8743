/** Optional values and results with an error, the shapes the TypeScript code
    expresses with `null`/`undefined` and with thrown errors. */
module Wrappers {
  datatype Option<+T> = None | Some(value: T)

  datatype Result<+T, +E> = Ok(value: T) | Err(error: E)
}
