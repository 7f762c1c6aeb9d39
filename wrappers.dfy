/** Option and Result, standing in for Python's `None` and for raised exceptions. */
module Wrappers {

  datatype Option<+T> = None | Some(value: T)

  datatype Result<+T, +E> = Ok(value: T) | Err(error: E)

  /** Python truthiness of an optional integer id: `None` and `0` are both falsy. */
  predicate Truthy(id: Option<int>) {
    id.Some? && id.value != 0
  }

  /** Python truthiness of an optional string: `None` and `""` are both falsy. */
  predicate NonEmpty(s: Option<string>) {
    s.Some? && s.value != ""
  }

  /** A prefix one longer is the prefix and the next element. */
  lemma SliceSnoc<T>(s: seq<T>, j: nat)
    requires j < |s|
    ensures s[..j + 1] == s[..j] + [s[j]]
  {
  }
}
