/** Failure-carrying results, and a sequence fact, shared by the model.  `Option` stands for a value the C++ code may
    leave uninitialised; `Result` stands for a Python function that may raise. */
module Wrappers {

  datatype Option<+T> = None | Some(value: T)

  /** The Python exceptions the modelled helpers can raise. */
  datatype PyError =
    | ValueError(message: string)
    | KeyError(key: string)
    | IndexError
    | AssertionError

  datatype Result<+T> = Ok(value: T) | Err(error: PyError)

  /** Extending a prefix by one element; stated for any element type, so that using it does not
      unfold the definitions of the elements. */
  lemma PrefixSnoc<T>(s: seq<T>, n: nat)
    requires n < |s|
    ensures s[..n + 1] == s[..n] + [s[n]]
  {
  }
}
