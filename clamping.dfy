/** `Comparable.clamped(to:)` from MTAudioTap/ClosedRange+Extensions.swift,
    over integers: `min(max(self, lowerBound), upperBound)`. */
module Clamping {

  /** Swift's `max(x, y)`: `y` when `y >= x`, otherwise `x`. */
  function Max(x: int, y: int): int
  {
    if y >= x then y else x
  }

  /** Swift's `min(x, y)`: `y` when `y < x`, otherwise `x`. */
  function Min(x: int, y: int): int
  {
    if y < x then y else x
  }

  /** The value moved into the closed range `lower ... upper`. A Swift
      `ClosedRange` cannot be built with `lower > upper`. */
  function Clamped(value: int, lower: int, upper: int): (r: int)
    requires lower <= upper
    ensures lower <= r <= upper
    ensures lower <= value <= upper ==> r == value
    ensures value < lower ==> r == lower
    ensures upper < value ==> r == upper
  {
    Min(Max(value, lower), upper)
  }

  /** Clamping an already clamped value changes nothing. */
  lemma ClampedIsIdempotent(value: int, lower: int, upper: int)
    requires lower <= upper
    ensures Clamped(Clamped(value, lower, upper), lower, upper) == Clamped(value, lower, upper)
  {
  }
}
