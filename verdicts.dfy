/** The outcome of a recogniser. The Python `is_sign_*` functions return a
    bool and print why they rejected; the model keeps the reason, and `Accepted` is the bool. */
module Verdicts {

  datatype Verdict =
    | Match
    | TooManyTouchPoints
    | DurationTooLong
    | OutsideRectangle
    | SplitFailed
    | DistanceTooLarge

  /** The bool the recogniser returns. */
  predicate Accepted(v: Verdict)
  {
    v.Match?
  }
}
