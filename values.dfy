/** Values shared by the backtester model: optional and failing results, and the
    loosely typed values found in configuration dictionaries and feature params. */
module Values {

  /** The result of a lookup that may find nothing (Python's `None`). */
  datatype Option<+T> = None | Some(value: T)

  /** The result of a computation that may raise. */
  datatype Result<+R, +E> = Success(value: R) | Failure(error: E)

  /** A value that may sit in a configuration or parameter dictionary:
      a string, a number, a flag or a nested dictionary. */
  datatype ParamValue =
    | Text(s: string)
    | Int(i: int)
    | Real(r: real)
    | Flag(b: bool)
    | Dict(entries: map<string, ParamValue>)

  /** A dictionary with string keys, as written by the user of the toolbox. */
  type ConfigDict = map<string, ParamValue>
}
