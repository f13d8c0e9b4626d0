/** Option and an indexing helper that reproduces JavaScript's out-of-range array read. */
module Wrappers {

  datatype Option<+T> = None | Some(value: T)

  /** `s[i]` as a JavaScript array read: `undefined` (None) past the end. */
  function At<T>(s: seq<T>, i: nat): Option<T>
  {
    if i < |s| then Some(s[i]) else None
  }
}
