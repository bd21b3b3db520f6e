/** Reals extended with the two infinities, for fields the source
    initialises to `Infinity` or `-Infinity`. */
module Extended {
  datatype Extended = NegInfinity | Finite(value: real) | PosInfinity

  /** Strict `<` between a finite number and an extended one. */
  predicate Below(d: real, e: Extended)
  {
    match e
    case NegInfinity => false
    case Finite(v) => d < v
    case PosInfinity => true
  }

  /** Non-strict `<=` on extended reals. */
  predicate AtMost(a: Extended, b: Extended)
  {
    match (a, b)
    case (NegInfinity, _) => true
    case (_, PosInfinity) => true
    case (Finite(x), Finite(y)) => x <= y
    case _ => false
  }

}
