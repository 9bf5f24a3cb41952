/** Values that travel between the server and the page as JSON. */
module Json {

  /** A cell of a record as the page sees it. Reading an array element past its
      end gives JavaScript's `undefined`, which is `Undefined` here. */
  datatype Value = Number(n: real) | Text(s: string) | Undefined

  datatype Option<T> = None | Some(value: T)
}
