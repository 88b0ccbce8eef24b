/** The optional value used wherever the source returns NULL or a sentinel
    for "absent". */
module Options {
  datatype Option<T> = None | Some(value: T)
}
