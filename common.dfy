/** Values shared by every module: optional values, results, and the
    `Math.min`/`Math.max`/`Math.floor`/`Math.round` helpers the sources use. */
module Common {

  /** A value that may be absent (`undefined` in the sources). */
  datatype Option<T> = None | Some(value: T) {
    /** `x ?? d` */
    function GetOr(d: T): T {
      if Some? then value else d
    }
  }

  /** A computation that either produces a value or raises an error. */
  datatype Result<T, E> = Ok(value: T) | Err(error: E)

  function Max(a: int, b: int): int { if a >= b then a else b }
  function Min(a: int, b: int): int { if a <= b then a else b }
  function Abs(a: int): int { if a >= 0 then a else -a }

  function MaxR(a: real, b: real): real { if a >= b then a else b }
  function MinR(a: real, b: real): real { if a <= b then a else b }

  /** `Math.round`: rounds half-way values up (towards +infinity). */
  function Round(x: real): int { (x + 0.5).Floor }

  /** The sum of a sequence of reals, left to right as `reduce` does. */
  function SumR(xs: seq<real>): real {
    if xs == [] then 0.0 else SumR(xs[..|xs| - 1]) + xs[|xs| - 1]
  }

  /** The sum of a sequence of integers. */
  function Sum(xs: seq<int>): int {
    if xs == [] then 0 else Sum(xs[..|xs| - 1]) + xs[|xs| - 1]
  }

  lemma SumAppend(xs: seq<int>, x: int)
    ensures Sum(xs + [x]) == Sum(xs) + x
  {
    assert (xs + [x])[..|xs|] == xs;
  }

  lemma SumRAppend(xs: seq<real>, x: real)
    ensures SumR(xs + [x]) == SumR(xs) + x
  {
    assert (xs + [x])[..|xs|] == xs;
  }
}
