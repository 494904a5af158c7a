/**
 * The few toolkit geometry operations the plugin panel's layout uses, with the
 * clamping behaviour of the toolkit's integer rectangle.
 */
module Juce {

  /** An integer rectangle: position and a non-negative size. */
  datatype Rect = Rect(x: int, y: int, w: nat, h: nat)

  function Min(a: int, b: int): int { if a <= b then a else b }

  /**
   * Cuts a strip of at most `amount` off the top of `b`: returns the strip and
   * what is left below it (the toolkit clamps the strip to `b`'s height).
   */
  function RemoveFromTop(b: Rect, amount: nat): (Rect, Rect)
  {
    var cut: nat := Min(amount, b.h);
    (Rect(b.x, b.y, b.w, cut), Rect(b.x, b.y + cut, b.w, b.h - cut))
  }

  /** The same rectangle with a different width. */
  function WithWidth(b: Rect, w: nat): Rect { Rect(b.x, b.y, w, b.h) }
}
