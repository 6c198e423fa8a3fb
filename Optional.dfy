/** An optional value: an absent optional field, or a part of the page that
    is not rendered. */
module Optional {
  datatype Option<T> = None | Some(value: T)
}
