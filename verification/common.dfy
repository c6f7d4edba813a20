/** Types shared by the Sibyll and Pythia 6 adapters: wrappers for
    Python's `None` and exceptions, Python's `abs`, and the
    index pairs of a particle stack's lineage arrays. */
module Common {

  /** A value that may be absent (Python's `None`). */
  datatype Option<+T> = None | Some(value: T)

  /** The value of a call, or the exception it raised. */
  datatype Result<+R, +E> = Success(value: R) | Failure(error: E)

  /** Python's `abs` on integers. */
  function Abs(x: int): (r: int)
    ensures r >= 0 && (r == x || r == -x)
  {
    if x < 0 then -x else x
  }

  /** One row of a mother (or daughter) index array: the first and the
      second related particle. */
  datatype IndexPair = IndexPair(first: int, second: int)
}
