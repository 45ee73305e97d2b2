/** Result carriers and the little arithmetic that every model shares. */
module Prelude {
  datatype Option<+T> = None | Some(value: T)

  datatype Result<+T, +E> = Ok(value: T) | Err(error: E)

  /** A numeric JSON field: not there, null, of some other type or not finite, or a number. */
  datatype Field = Missing | Null | Unreadable | Num(v: real)

  /** `get` with no default gives none. */
  predicate Absent(f: Field) {
    f.Missing? || f.Null?
  }

  function Abs(x: real): real {
    if x < 0.0 then -x else x
  }

  function Min(x: real, y: real): real {
    if x <= y then x else y
  }

  lemma Ratio(x: real, y: real)
    requires y > 0.0
    ensures x / y * y == x && y * (x / y) == x
    ensures x > 0.0 <==> x / y > 0.0
    ensures -x / y == -(x / y)
  {
    if x > 0.0 { PositiveRatio(x, y); }
    if x < 0.0 { PositiveRatio(-x, y); }
  }

  lemma PositiveRatio(x: real, y: real)
    requires x > 0.0 && y > 0.0
    ensures x / y > 0.0
  {
  }
}
