/** Small shared vocabulary: optional values, results with an error, and the
    absolute value the selection cuts compare against. */
module Common {

  datatype Option<+T> = None | Some(value: T)

  datatype Result<+T, +E> = Ok(value: T) | Err(error: E)

  /** Absolute value of a real, as `TMath::Abs` computes it. */
  function Abs(x: real): (r: real)
    ensures r >= 0.0
  {
    if x < 0.0 then -x else x
  }
}
