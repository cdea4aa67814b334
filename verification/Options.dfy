/** The conventional optional value, used where the C++ and C sources hold what may be null. */
module Options {
  datatype Option<+T> = None | Some(value: T)

  /** The elements an optional value holds: none or one. */
  function Elements<T>(o: Option<T>): set<T> {
    match o
    case None => {}
    case Some(v) => {v}
  }
}
