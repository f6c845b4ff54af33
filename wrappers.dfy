/** The optional value returned by a bounds-checked vector lookup. */
module Wrappers {

  datatype Option<T> = None | Some(value: T)

  /** A bounds-checked lookup: `Some(s[i])` when `i` is an index of `s`, else `None`. */
  function Get<T>(s: seq<T>, i: nat): Option<T>
  {
    if i < |s| then Some(s[i]) else None
  }
}
