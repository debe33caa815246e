/** Small value wrappers shared by every module of the model. */
module Wrappers {

  /** Python's `None` versus a present value. */
  datatype Option<+T> = None | Some(value: T)

  /** A raised exception (its `str(e)`) versus a returned value. */
  datatype Result<+T> = Ok(value: T) | Err(error: string)

  /** What `d.get(key, default)` can see in a Python dict: the key is absent,
      the key is present and maps to `None`, or it maps to a value. Absent and
      `None` behave differently once a default is supplied. */
  datatype Entry<+T> = Missing | Null | Value(v: T) {

    /** `d.get(key)`: absent and `None` both read as `None`. */
    function Get(): Option<T> {
      match this
      case Value(v) => Some(v)
      case _ => None
    }

    /** `d.get(key, default)`: only an absent key yields the default. */
    function GetOr(default: T): Option<T> {
      match this
      case Missing => Some(default)
      case Null => None
      case Value(v) => Some(v)
    }
  }
}
