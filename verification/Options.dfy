/** A value that may be absent: a NULL column, a missing row, an unset watermark. */
module Options {

  datatype Option<+T> = None | Some(value: T)
}
