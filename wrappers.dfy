/** A value that may be missing: JavaScript's `undefined`/`null` results
    (a failed `find`, optional query data, a file input left empty). */
module Wrappers {

  datatype Option<+T> = None | Some(value: T)
}
