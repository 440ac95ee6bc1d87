/** Values that may be absent (`null`, `undefined`, a nil pointer) and
    operations that may fail (a Go `error` return, a rejected promise). */
module Optional {

  datatype Option<+T> = None | Some(value: T)

  datatype Result<+T, +E> = Ok(value: T) | Err(error: E)
}
