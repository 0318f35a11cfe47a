/** Swift's optional type `T?`: either no value (`nil`) or exactly one value. */
module Optional {
  datatype Option<T> = None | Some(value: T)
}
