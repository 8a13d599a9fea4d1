/** Values shared by every part of the model: optional values, results of
    operations that can throw, frames and image sizes. */
module Base {

  datatype Option<+T> = None | Some(value: T)

  /** The outcome of an operation that either returns a value or throws. */
  datatype Result<+T, +E> = Ok(value: T) | Err(error: E)

  /** A frame is identified by the video it is taken from and its position
      on that video's timeline, in milliseconds. The pixels themselves are
      never modelled: every comparison of two frames is an oracle. */
  datatype Frame = Frame(video: string, offsetMs: real)

  /** Width and height of a decoded image, in pixels. */
  datatype Dims = Dims(width: nat, height: nat)

  /** A decoded picture: the frame it shows, the crop filter it was
      extracted with (`-vf crop=W:H:X:Y`, when there was one) and the size it
      has after any resizing. */
  datatype Image = Image(frame: Frame, crop: Option<string>, size: Dims)

  /** The JavaScript values a similarity score or a stored best can take: a
      finite number, `Infinity`, or `undefined` (which compares false with
      every number). */
  datatype JsValue = Num(n: real) | Infinity | Undefined

  /** `x < v` for a finite number `x`. */
  predicate JsLess(x: real, v: JsValue) {
    match v
    case Num(n) => x < n
    case Infinity => true
    case Undefined => false
  }

  /** `x > v` for a finite number `x`. */
  predicate JsGreater(x: real, v: JsValue) {
    match v
    case Num(n) => x > n
    case Infinity => false
    case Undefined => false
  }

  /** `Math.round` for a finite number: the nearest integer, halves going up. */
  function Round(x: real): (r: int)
    ensures x - 1.0 / 2.0 < r as real <= x + 1.0 / 2.0
  {
    (x + 1.0 / 2.0).Floor
  }

  /** `parseInt` applied to a finite number written in plain decimal notation:
      the fractional part is dropped, so the value moves toward zero. */
  function TruncTowardZero(x: real): (r: int)
    ensures 0.0 <= x ==> 0 <= r && r as real <= x < r as real + 1.0
    ensures x < 0.0 ==> r <= 0 && r as real - 1.0 < x <= r as real
  {
    if x >= 0.0 then x.Floor else -((-x).Floor)
  }
}
