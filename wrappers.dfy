/** Absence of a value: JavaScript's `undefined`/`null` results of `find`, `findIndex`, property reads. */
module Wrappers {
  datatype Option<+T> = None | Some(value: T)
}
