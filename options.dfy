/** The optional value used wherever the source returns `undefined` for
    "not found" (`Array.prototype.find`, a missing object key). */
module Options {

  datatype Option<+T> = None | Some(value: T)
}
