/** Absent-or-present values (`T | null`, an optional property). */
module Wrappers {
  datatype Option<+T> = None | Some(value: T)
}
