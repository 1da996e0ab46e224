/** The optional-value wrapper used for absent annotations and absent properties. */
module Options {
  datatype Option<T> = None | Some(value: T)
}
