/** Option and Result values standing for Python's `None` and for a call that
    either returns or raises an exception carrying a message. */
module Wrappers {

  datatype Option<+T> = None | Some(value: T) {
    /** `x or default` for an optional value that is never falsy itself. */
    function GetOr(default: T): T {
      match this
      case Some(v) => v
      case None => default
    }
  }

  datatype Result<+R, +E> = Success(value: R) | Failure(error: E) {
    predicate IsFailure() {
      Failure?
    }

    function PropagateFailure<U>(): Result<U, E>
      requires Failure?
    {
      Failure(error)
    }

    function Extract(): R
      requires Success?
    {
      value
    }
  }

  /** Python truthiness of an optional string: `None` and `""` are falsy. */
  predicate TruthyStr(s: Option<string>) {
    s.Some? && s.value != ""
  }

  /** Python truthiness of an optional int: `None` and `0` are falsy. */
  predicate TruthyInt(n: Option<int>) {
    n.Some? && n.value != 0
  }

  /** Python truthiness of an optional float: `None` and `0.0` are falsy. */
  predicate TruthyReal(x: Option<real>) {
    x.Some? && x.value != 0.0
  }

  /** Python truthiness of an optional bool. */
  predicate TruthyBool(b: Option<bool>) {
    b.Some? && b.value
  }

  /** `s or default` on an optional string. */
  function StrOr(s: Option<string>, default: string): string
  {
    if TruthyStr(s) then s.value else default
  }
}
