/** Optional values and failure outcomes, standing for the source's nullable
    references and thrown exceptions. */
module Wrappers {

  datatype Option<+T> = None | Some(value: T)

  /** The error a .NET call throws where the model follows it. */
  datatype Error =
    | DuplicateKey(key: string)   // ToDictionary met the same key twice (ArgumentException)

  datatype Outcome<+R> = Ok(value: R) | Fail(error: Error)
}
