/** The optional-value wrapper used for nullable fields and "no match" results. */
module Options {

  datatype Option<+T> = None | Some(value: T)
}
