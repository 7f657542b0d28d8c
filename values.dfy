/** JavaScript values the wall code produces that a plain Dafny value does not cover. */
module Values {

  /** A reference or result that may be `null` or `undefined` (None). */
  datatype Option<+T> = None | Some(value: T)

  /** A JavaScript number: a finite value, or one of +Infinity, -Infinity and NaN (NonFinite),
      which is what a division by zero yields. */
  datatype Number = Finite(value: real) | NonFinite
}
