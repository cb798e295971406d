/** The source's nullable values (`T | null`, `0 | 1 | null`), made explicit. */
module Common {

  datatype Option<+T> = None | Some(value: T)

}
