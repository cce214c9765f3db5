/** Optional values, with the two combinators of Rust's `Option` that the
    program chains to resolve its settings. */
module Wrappers {

  datatype Option<+T> = None | Some(value: T) {

    /** Rust's `Option::or`: this value when present, otherwise `other`. */
    function Or(other: Option<T>): Option<T> {
      match this
      case Some(_) => this
      case None => other
    }

    /** Rust's `Option::unwrap_or`: the carried value, or `default` when absent. */
    function UnwrapOr(default: T): T {
      match this
      case Some(v) => v
      case None => default
    }
  }
}
