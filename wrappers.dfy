/** Small result types shared by the modules of the model. */
module Wrappers {

  /** Python's `None`, or a value. */
  datatype Option<T> = None | Some(value: T)
  {
    /** `d.get(key, default)` style fallback. */
    function GetOr(default: T): T
    {
      match this
      case Some(v) => v
      case None => default
    }
  }

  /** How a handler invocation ended: normally, or with an uncaught Python
      exception.  An exception ends the thread that ran the handler, with the
      state as it was at the point of the raise. */
  datatype Outcome = Returned | RaisedKeyError | RaisedValueError | RaisedAttributeError | RaisedNameError
}
