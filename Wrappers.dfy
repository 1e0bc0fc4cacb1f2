/** The optional value used for a number that may fail to parse and a name that may be absent. */
module Wrappers {

  datatype Option<+T> = None | Some(value: T)

  /** The values an option holds, as a sequence of length zero or one. */
  function ToSeq<T>(o: Option<T>): seq<T> {
    match o
    case None => []
    case Some(v) => [v]
  }
}
