/** The Some/None datatype used wherever the source has a value that may be absent
    (a regular-expression match that returns null, a JSON.parse that throws, a
    missing request field or HTTP status). */
module Wrappers {
  datatype Option<+T> = None | Some(value: T)
}
