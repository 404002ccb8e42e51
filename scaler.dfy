/**
 * The uniform fit-within scaler of the BJK scoreboard. The layout is authored
 * for a fixed 892 x 512 design box; for a target width and height the box is
 * scaled by the smaller of the two axis ratios, with the transform origin at
 * the top-left corner. Arithmetic is exact (`real`), not IEEE floating point.
 */
module LayoutScaler {

  /** The design size the layout was authored for. */
  const BaseWidth: real := 892.0
  const BaseHeight: real := 512.0

  /** The target size used when the caller gives none. */
  const DefaultWidth: real := 892.0
  const DefaultHeight: real := 512.0

  /** A width and a height, anchored at the top-left corner. */
  datatype Box = Box(width: real, height: real)

  /** The scale factor together with the box the scaled design occupies. */
  datatype Layout = Layout(scale: real, box: Box)

  /** Two boxes sharing a top-left corner: `inner` lies entirely inside `outer`. */
  predicate Contains(outer: Box, inner: Box)
  {
    inner.width <= outer.width && inner.height <= outer.height
  }

  /** The two boxes have the same width-to-height proportion. */
  predicate SameAspect(a: Box, b: Box)
  {
    a.width * b.height == a.height * b.width
  }

  /** The smaller of two numbers, as `Math.min` gives it. */
  function Min(a: real, b: real): (m: real)
    ensures m <= a && m <= b
    ensures m == a || m == b
  {
    if a <= b then a else b
  }

  /**
   * The uniform scale for a target of `width` by `height`: the smaller of
   * the horizontal and vertical ratios, so it is the limiting axis's ratio.
   */
  function Scale(width: real, height: real): (s: real)
    ensures s <= width / BaseWidth && s <= height / BaseHeight
    ensures s == width / BaseWidth || s == height / BaseHeight
  {
    var scaleX := width / BaseWidth;
    var scaleY := height / BaseHeight;
    Min(scaleX, scaleY)
  }

  /** The design box after a uniform scale: its proportion is the design's. */
  function ScaledBox(scale: real): (b: Box)
    ensures SameAspect(b, Box(BaseWidth, BaseHeight))
  {
    Box(BaseWidth * scale, BaseHeight * scale)
  }

  /**
   * The layout for a target size: the scaled design fits inside the target,
   * touches it on at least one axis, and keeps the design's proportion. The
   * factor is the uniform scale for the target, and the box is the design box
   * under that factor; for a target with positive sides it is a proper box.
   */
  function FitLayout(width: real, height: real): (l: Layout)
    ensures l.scale == Scale(width, height) && l.box == ScaledBox(l.scale)
    ensures Contains(Box(width, height), l.box)
    ensures l.box.width == width || l.box.height == height
    ensures SameAspect(l.box, Box(BaseWidth, BaseHeight))
    ensures width > 0.0 && height > 0.0 ==> l.scale > 0.0 && l.box.width > 0.0 && l.box.height > 0.0
  {
    var scale := Scale(width, height);
    Layout(scale, ScaledBox(scale))
  }

  /**
   * No uniform scale larger than `Scale` fits: a factor fits the target
   * exactly when it is at most `Scale(width, height)`.
   */
  lemma ScaleIsLargestFit(width: real, height: real, t: real)
    ensures Contains(Box(width, height), ScaledBox(t)) <==> t <= Scale(width, height)
  {
  }

  /** The scale is positive exactly when both target sides are. */
  lemma ScalePositive(width: real, height: real)
    ensures Scale(width, height) > 0.0 <==> width > 0.0 && height > 0.0
  {
  }

  /** A target that is no smaller on either axis never gets a smaller scale. */
  lemma ScaleMonotone(w1: real, h1: real, w2: real, h2: real)
    requires w1 <= w2 && h1 <= h2
    ensures Scale(w1, h1) <= Scale(w2, h2)
  {
  }

  /** Enlarging the target uniformly by `k` enlarges the scale by `k`. */
  lemma ScaleHomogeneous(width: real, height: real, k: real)
    requires k > 0.0
    ensures Scale(k * width, k * height) == k * Scale(width, height)
  {
  }

  /**
   * The default 892 x 512 target and the 896 x 512 target the page uses both
   * give scale 1 (for the latter the vertical ratio is the limiting one); a
   * 1200 x 600 target is limited vertically at 600/512.
   */
  lemma ScaleExamples()
    ensures Scale(DefaultWidth, DefaultHeight) == 1.0
    ensures Scale(896.0, 512.0) == 1.0
    ensures Scale(1200.0, 600.0) == 600.0 / 512.0
    ensures FitLayout(1200.0, 600.0).box == Box(1045.3125, 600.0)
  {
  }
}
