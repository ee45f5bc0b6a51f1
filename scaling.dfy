/**
 * The fit-to-canvas sizing rule of the preview: an image taller or wider
 * than the canvas is shrunk by one ratio on both axes, chosen so that the
 * axis that overflows most lands on the canvas edge.  Arithmetic is exact
 * over `real`; the rounding is Python's `round` (ties to even).
 */
module Scaling {
  import opened Layout
  import opened PyNumbers

  /** Height and width of an image, in that order, as the application stores them. */
  datatype Size = Size(h: nat, w: nat)

  /** The resize branch is taken when either dimension exceeds the canvas. */
  predicate Overflows(h: nat, w: nat)
    ensures Overflows(h, w) <==> HeightRatio(h) > 1.0 || WidthRatio(w) > 1.0
  {
    h > CanvasHeight || w > CanvasWidth
  }

  /** `h_ratio`: how many canvas heights the image is tall. */
  function HeightRatio(h: nat): (r: real)
    ensures r * CanvasHeight as real == h as real
    ensures r > 1.0 <==> h > CanvasHeight
  {
    h as real / CanvasHeight as real
  }

  /** `w_ratio`: how many canvas widths the image is wide. */
  function WidthRatio(w: nat): (r: real)
    ensures r * CanvasWidth as real == w as real
    ensures r > 1.0 <==> w > CanvasWidth
  {
    w as real / CanvasWidth as real
  }

  /** Python's `max(h_ratio, w_ratio)`: the first argument unless the second is larger. */
  function ScalingRatio(h: nat, w: nat): (r: real)
    ensures r == HeightRatio(h) || r == WidthRatio(w)
    ensures r >= HeightRatio(h) && r >= WidthRatio(w)
    ensures Overflows(h, w) <==> r > 1.0
  {
    if WidthRatio(w) > HeightRatio(h) then WidthRatio(w) else HeightRatio(h)
  }

  /** Dividing a non-negative quantity by a ratio above one does not increase it. */
  lemma DivisionShrinks(x: real, r: real)
    requires 0.0 <= x && 1.0 < r
    ensures x / r <= x
  {
  }

  /**
   * The exact height the resize aims at, before rounding: inside the canvas
   * and no taller than the original.
   */
  function ExactHeight(h: nat, w: nat): (e: real)
    requires Overflows(h, w)
    ensures 0.0 <= e <= CanvasHeight as real
    ensures e <= h as real
  {
    DivisionShrinks(h as real, ScalingRatio(h, w));
    QuotientAtMost(h as real, HeightRatio(h), ScalingRatio(h, w), CanvasHeight as real);
    h as real / ScalingRatio(h, w)
  }

  /** The exact width the resize aims at: inside the canvas and no wider than the original. */
  function ExactWidth(h: nat, w: nat): (e: real)
    requires Overflows(h, w)
    ensures 0.0 <= e <= CanvasWidth as real
    ensures e <= w as real
  {
    DivisionShrinks(w as real, ScalingRatio(h, w));
    QuotientAtMost(w as real, WidthRatio(w), ScalingRatio(h, w), CanvasWidth as real);
    w as real / ScalingRatio(h, w)
  }

  /** The exact target keeps the aspect ratio of the original. */
  lemma ExactKeepsAspect(h: nat, w: nat)
    requires Overflows(h, w)
    ensures ExactHeight(h, w) * w as real == ExactWidth(h, w) * h as real
  {
  }

  /**
   * `(new_h, new_w)` computed by the resize branch: it fits the canvas on both
   * axes, and each dimension is within half a pixel of the exact value.
   */
  function ScaledSize(h: nat, w: nat): (s: Size)
    requires Overflows(h, w)
    ensures s.h <= CanvasHeight && s.w <= CanvasWidth
    ensures ExactHeight(h, w) - 0.5 <= s.h as real <= ExactHeight(h, w) + 0.5
    ensures ExactWidth(h, w) - 0.5 <= s.w as real <= ExactWidth(h, w) + 0.5
  {
    Size(RoundHalfEven(ExactHeight(h, w)), RoundHalfEven(ExactWidth(h, w)))
  }

  /** A quantity q·c divided by some r ≥ q is at most c. */
  lemma QuotientAtMost(x: real, q: real, r: real, c: real)
    requires 0.0 <= x && 0.0 < c && 0.0 < r && q <= r && q * c == x
    ensures x / r <= c
  {
    assert x <= r * c by {
      assert r * c - x == (r - q) * c;
    }
    var y := x / r;
    assert y * r == x;
    assert (c - y) * r == c * r - x;
  }

  /** Dividing x by its own ratio x / c gives back c. */
  lemma DivideByOwnRatio(x: real, c: real)
    requires 0.0 < x && 0.0 < c
    ensures x / (x / c) == c
  {
    var q := x / c;
    assert q * c == x && 0.0 < q;
    var y := x / q;
    assert y * q == x;
    assert (y - c) * q == 0.0;
  }

  /** The axis with the larger overflow ratio lands exactly on the canvas edge. */
  lemma ScaledBindingAxis(h: nat, w: nat)
    requires Overflows(h, w)
    ensures HeightRatio(h) >= WidthRatio(w) ==> ScaledSize(h, w).h == CanvasHeight
    ensures HeightRatio(h) < WidthRatio(w) ==> ScaledSize(h, w).w == CanvasWidth
  {
    if HeightRatio(h) >= WidthRatio(w) {
      // the ratio is h_ratio = h / 700, so h is divided by its own ratio
      assert ScalingRatio(h, w) == h as real / CanvasHeight as real;
      DivideByOwnRatio(h as real, CanvasHeight as real);
    } else {
      assert ScalingRatio(h, w) == w as real / CanvasWidth as real;
      DivideByOwnRatio(w as real, CanvasWidth as real);
    }
  }

  /** Resizing only ever shrinks: neither dimension grows. */
  lemma ScaledNeverUpscales(h: nat, w: nat)
    requires Overflows(h, w)
    ensures ScaledSize(h, w).h <= h && ScaledSize(h, w).w <= w
  {
    RoundHalfEvenBelow(ExactHeight(h, w), h);
    RoundHalfEvenBelow(ExactWidth(h, w), w);
  }

  /**
   * The image library refuses to resize to a zero height or width, which is
   * what rounding gives once an exact dimension is at most one half.
   */
  predicate ResizeRejected(h: nat, w: nat)
    ensures ResizeRejected(h, w) <==>
      Overflows(h, w) && (ExactHeight(h, w) <= 0.5 || ExactWidth(h, w) <= 0.5)
  {
    Overflows(h, w) && (ScaledSize(h, w).h == 0 || ScaledSize(h, w).w == 0)
  }

  /**
   * A tall, narrow image: 2000 high and 500 wide is shrunk to 700 by 175.
   * The text origin `(new_h, new_w)` is used as `(x, y)`, so x = 700 lies
   * beyond the 500-pixel width of the original the text is drawn on.
   */
  lemma TallNarrowImage()
    ensures Overflows(2000, 500)
    ensures ScaledSize(2000, 500) == Size(700, 175)
    ensures ScaledSize(2000, 500).h > 500
  {
  }

  /**
   * A one-pixel-high strip 1501 wide rounds to height 0: `new_h`/`new_w`
   * become 0 and 750, and the resize that follows is refused.
   */
  lemma ThinStripRoundsToZero()
    ensures ScaledSize(1, 1501) == Size(0, 750)
    ensures ResizeRejected(1, 1501)
  {
  }
}
