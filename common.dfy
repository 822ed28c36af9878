/** Small value types shared by every module of the auction client model. */
module Common {

  /** The conventional optional value; stands for `T | null` and `T | undefined`. */
  datatype Option<+T> = None | Some(value: T) {
    function GetOr(default: T): T {
      match this
      case Some(v) => v
      case None => default
    }
  }

  /**
   * A JavaScript `number`. Finite values are held as exact reals; NaN and the
   * two infinities are not told apart because every guard of the client
   * treats them alike.
   */
  datatype JsNumber = Finite(value: real) | NonFinite

  function Max(a: int, b: int): int { if a < b then b else a }

  function Min(a: int, b: int): int { if a < b then a else b }

  function MaxReal(a: real, b: real): real { if a < b then b else a }

  /** Number of stroops in one lumen (XLM). */
  const StroopsPerXlm: int := 10_000_000
}
