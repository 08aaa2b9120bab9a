/** The optional value used for JavaScript's `undefined`/`null` and for results that may be missing. */
module Options {

  datatype Option<+T> = None | Some(value: T)
}
