/** The JavaScript `undefined`/`null` result of a lookup, made explicit. */
module Wrappers {
  datatype Option<+T> = None | Some(value: T)
}
