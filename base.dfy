/** Small vocabulary shared by the whole model: JavaScript's nullable values,
    the constant Math.PI, how JavaScript arithmetic reads a null, and what is
    assumed of the host's Math.cos. */
module Base {

  /** A JavaScript value that may be `null`. */
  datatype Option<+T> = None | Some(value: T)

  /** Math.PI as a decimal. */
  const Pi: real := 3.141592653589793

  /** The number JavaScript arithmetic reads from a number-or-null:
      `null` takes part in `+` and `-` as 0. */
  function ToNumber(v: Option<real>): real
  {
    match v
    case Some(n) => n
    case None => 0.0
  }

  /** What is known of the host's cosine: its values lie in [-1, 1]. */
  ghost predicate CosBounded(cos: real -> real)
  {
    forall x :: -1.0 <= cos(x) <= 1.0
  }

  /** The host's cosine repeats after a full turn. */
  ghost predicate CosPeriodic(cos: real -> real)
  {
    forall x :: cos(x + 2.0 * Pi) == cos(x)
  }
}
