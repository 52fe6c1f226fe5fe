/** `mux`: fuse the left and right (eye box, pupil point) pairs into one gaze
    ratio, exactly as the source computes it. */
module GazeFuser {
  import opened Common

  /** A gaze ratio: pupil position as a fraction of the eye box. */
  datatype Ratio = Ratio(x: real, y: real)

  /** One eye's ratio: `(px / w, py / h)`. */
  function SideRatio(eye: Box, p: Point): (r: Ratio)
    ensures r.x * eye.w as real == p.x as real && r.y * eye.h as real == p.y as real
  {
    Ratio(p.x as real / eye.w as real, p.y as real / eye.h as real)
  }

  /** `v` lies between `p` and `q`, whichever is larger. */
  predicate Between(v: real, p: real, q: real) {
    (p <= v <= q) || (q <= v <= p)
  }

  /** The mediant `(a + c) / (b + d)` lies between `a / b` and `c / d`. */
  lemma MediantBetween(a: real, b: real, c: real, d: real)
    requires b > 0.0 && d > 0.0
    ensures Between((a + c) / (b + d), a / b, c / d)
  {
    var p, q, m := a / b, c / d, (a + c) / (b + d);
    assert a == p * b && c == q * d;
    assert a + c == m * (b + d);
    if p <= q {
      assert p * b + p * d <= a + c <= q * b + q * d;
      assert p * (b + d) <= m * (b + d) <= q * (b + d);
    } else {
      assert q * b + q * d <= a + c <= p * b + p * d;
      assert q * (b + d) <= m * (b + d) <= p * (b + d);
    }
  }

  /** `mux(left, right, left_pupil, right_pupil)`. With one pupil missing it is
      that other side's ratio. With both, the horizontal value is the sum of the
      pupil x offsets over the sum of the widths (so it lies between the two
      sides' ratios), and the vertical value adds the RIGHT pupil's y twice and
      divides by the sum of the heights. The caller guarantees a pupil exists,
      and a pupil exists only for a side whose eye box exists. */
  function Mux(left: Option<Box>, right: Option<Box>, leftPupil: Option<Point>, rightPupil: Option<Point>): (r: Ratio)
    requires leftPupil.Some? || rightPupil.Some?
    requires leftPupil.Some? ==> left.Some?
    requires rightPupil.Some? ==> right.Some?
    ensures leftPupil.None? ==> r == SideRatio(right.value, rightPupil.value)
    ensures leftPupil.Some? && rightPupil.None? ==> r == SideRatio(left.value, leftPupil.value)
    ensures leftPupil.Some? && rightPupil.Some? ==>
              Between(r.x, SideRatio(left.value, leftPupil.value).x, SideRatio(right.value, rightPupil.value).x)
  {
    if leftPupil.None? then SideRatio(right.value, rightPupil.value)
    else if rightPupil.None? then SideRatio(left.value, leftPupil.value)
    else
      var l, r, lp, rp := left.value, right.value, leftPupil.value, rightPupil.value;
      MediantBetween(lp.x as real, l.w as real, rp.x as real, r.w as real);
      Ratio((rp.x + lp.x) as real / (r.w + l.w) as real,
            (rp.y + rp.y) as real / (r.h + l.h) as real)
  }

  /** With both pupils present the left pupil's y offset plays no part. */
  lemma MuxVerticalIgnoresLeftPupil(left: Box, right: Box, lp1: Point, lp2: Point, rp: Point)
    requires lp1.x == lp2.x
    ensures Mux(Some(left), Some(right), Some(lp1), Some(rp)) ==
            Mux(Some(left), Some(right), Some(lp2), Some(rp))
  {
  }

  /** With both pupils present and eye boxes of equal height, the vertical value
      is the right eye's vertical ratio alone. */
  lemma MuxVerticalEqualHeights(left: Box, right: Box, lp: Point, rp: Point)
    requires left.h == right.h
    ensures Mux(Some(left), Some(right), Some(lp), Some(rp)).y == SideRatio(right, rp).y
  {
  }

  /** With both pupils present and eye boxes of equal width, the horizontal value
      is the mean of the two horizontal ratios. */
  lemma MuxHorizontalEqualWidths(left: Box, right: Box, lp: Point, rp: Point)
    requires left.w == right.w
    ensures Mux(Some(left), Some(right), Some(lp), Some(rp)).x ==
            (SideRatio(left, lp).x + SideRatio(right, rp).x) / 2.0
  {
  }

  /** Fractions, not percentages: one visible left pupil at (20, 30) in a 40 by
      60 box gives (0.5, 0.5). With both eyes in 40 by 40 boxes, the left pupil at
      three quarters of its height and the right one at a quarter, the fused
      vertical value is a quarter: the right eye's alone. */
  lemma MuxExamples()
    ensures Mux(Some(Rect(0, 0, 40, 60)), None, Some(Point(20, 30)), None) == Ratio(0.5, 0.5)
    ensures Mux(Some(Rect(0, 0, 40, 40)), Some(Rect(50, 0, 40, 40)), Some(Point(20, 30)), Some(Point(20, 10)))
              == Ratio(0.5, 0.25)
  {
  }
}
