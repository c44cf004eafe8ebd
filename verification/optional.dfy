/** An optional value: the model's counterpart of a Python argument or result that may be `None`. */
module Optional {

  datatype Option<T> = Some(value: T) | None
}
