/**
 * A value that may be absent. It is used for the cursor, where the guard
 * treats `null` and `undefined` alike, and for the publication date, where
 * `None` stands for the declared `null`.
 */
module Options {

  datatype Option<+T> = None | Some(value: T)
}
