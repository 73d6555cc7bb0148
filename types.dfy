/** Shared value types of the tracking backend. */
module Types {

  datatype Option<T> = None | Some(value: T)

  /** Which physical eye a capture unit or estimator serves. */
  datatype EyeId = Left | Right {
    /** The integer value of the enumeration member (LEFT = 0, RIGHT = 1). */
    function Value(): (v: int)
      ensures v == 0 <==> this == Left
      ensures v == 1 <==> this == Right
    {
      match this
      case Left => 0
      case Right => 1
    }
  }
}
