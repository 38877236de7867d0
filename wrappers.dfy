/**
 * Small value wrappers shared by every module.
 *
 * `Option` stands for a value that may be missing.  `Field` models a key of a
 * JSON object as JavaScript sees it: the key is missing (`undefined`), present
 * with `null`, or present with a value.  The code being modelled treats the
 * first two alike in some places (`??`, truthiness tests) and not in others
 * (`!== undefined`), so the distinction is kept.
 */
module Wrappers {

  datatype Option<+T> = None | Some(value: T) {
    /** The wrapped value, or `default` when there is none. */
    function GetOr(default: T): T {
      match this
      case Some(v) => v
      case None => default
    }
  }

  datatype Field<+T> = Missing | Null | Value(value: T) {
    /** JavaScript's `field ?? fallback`: both `undefined` and `null` fall back. */
    function OrElse(fallback: T): T {
      match this
      case Value(v) => v
      case _ => fallback
    }
  }
}
