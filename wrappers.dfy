/** Absent-or-present values: the model's rendering of TypeScript's `T | null`
    (and of a form value that was never set). */
module Wrappers {
  datatype Option<+T> = None | Some(value: T) {
    function GetOr(default: T): T {
      match this
      case Some(v) => v
      case None => default
    }
  }

  /** A nullable number in a JavaScript truth test: set, and not 0. */
  predicate Truthy(id: Option<int>) {
    id.Some? && id.value != 0
  }
}
