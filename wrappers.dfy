/** Optional values: SQL NULL, Python None, or "nothing chosen". */
module Wrappers {

  datatype Option<+T> = None | Some(value: T)
}
