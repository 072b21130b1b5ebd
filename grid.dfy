/**
 * The side rounding of `do_init`: the requested width and height are rounded
 * down to a multiple of `f = 2**(num_resolutions - 1)`, the downsampling
 * factor of the drawer, so that they divide into whole tokens.
 */
module Grid {
  import opened Args
  import opened Arith

  function Pow2(k: nat): (r: nat)
    ensures r >= 1
  {
    if k == 0 then 1 else 2 * Pow2(k - 1)
  }

  /** `f`, for a drawer with `numResolutions` resolutions. */
  function GridFactor(numResolutions: int): (f: nat)
    requires numResolutions >= 1
    ensures f >= 1
  {
    Pow2(numResolutions - 1)
  }

  /** `toksX = size // f`: Python's floor division, Dafny's for a positive divisor. */
  function Tokens(side: int, numResolutions: int): int
    requires numResolutions >= 1
  {
    side / GridFactor(numResolutions)
  }

  /**
   * `sideX = toksX * f`: a multiple of `f`, at most the requested side, and
   * less than `f` below it.
   */
  function GridSide(side: int, numResolutions: int): (r: int)
    requires numResolutions >= 1
    ensures r % GridFactor(numResolutions) == 0
    ensures r <= side < r + GridFactor(numResolutions)
  {
    var f := GridFactor(numResolutions);
    MultipleMod(side / f, f);
    Tokens(side, numResolutions) * f
  }

  /** No larger multiple of `f` fits: the rounding is the largest one at most the side. */
  lemma GridSideLargest(side: int, numResolutions: int, m: int)
    requires numResolutions >= 1
    requires m % GridFactor(numResolutions) == 0 && m <= side
    ensures m <= GridSide(side, numResolutions)
  {
    var f := GridFactor(numResolutions);
    var t := side / f;
    assert m == f * (m / f) + m % f;
    assert side == f * t + side % f;
    if m / f > t {
      MulAtLeast(m / f - t, f);
    }
  }

  /** Both sides of an image size, as `do_init` rounds them. */
  function GridSize(size: Size, numResolutions: int): (r: Size)
    requires numResolutions >= 1
    ensures r.width % GridFactor(numResolutions) == 0 && r.height % GridFactor(numResolutions) == 0
    ensures r.width <= size.width < r.width + GridFactor(numResolutions)
    ensures r.height <= size.height < r.height + GridFactor(numResolutions)
  {
    Size(GridSide(size.width, numResolutions), GridSide(size.height, numResolutions))
  }

  /**
   * With a five-resolution drawer (f = 16) the small widescreen size 200x112
   * becomes 192x112, and the normal widescreen size 400x224 stays as it is.
   */
  lemma GridSizeExamples()
    ensures GridFactor(5) == 16
    ensures GridSize(Size(200, 112), 5) == Size(192, 112)
    ensures GridSize(Size(400, 224), 5) == Size(400, 224)
  {
    assert Pow2(4) == 16;
  }
}
