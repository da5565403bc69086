/** Option values for JavaScript's `undefined`/`null`, and the field updates of an object spread. */
module Wrappers {

  /** A value that may be absent (`undefined` or `null` in the source). */
  datatype Option<+T> = None | Some(value: T) {

    /** The `??` operator: the value when present, otherwise the default. */
    function GetOr(default: T): T {
      match this
      case Some(v) => v
      case None => default
    }
  }

  /** One key of a `Partial<...>` object spread over a record: absent (keep the old value) or present. */
  datatype Update<+T> = Keep | Put(value: T) {

    /** The value the key has after `{ ...current, ...patch }`. */
    function Over(current: T): T {
      match this
      case Put(v) => v
      case Keep => current
    }
  }
}
