/** Measurement and geometry of ThunderLoadingView: `getMeasuredSize`, the desired
    size of `onMeasure`, the size check and backdrop bounds of `onSizeChanged`, the
    bolt outline of `initPath` and the clip band of `onDraw`. */
module Layout {
  import opened JavaCasts
  import opened Wrappers

  /** The decoded mode of a `MeasureSpec`. */
  datatype MeasureMode = Exactly | AtMost | Unspecified

  /** A decoded `MeasureSpec`: the parent's mode and size. */
  datatype MeasureSpec = MeasureSpec(mode: MeasureMode, size: int)

  /** `getMeasuredSize`: the size to report for one axis. */
  function MeasuredSize(spec: MeasureSpec, desired: int): (r: int)
    ensures spec.mode == Exactly ==> r == spec.size
    ensures spec.mode == AtMost ==> r <= desired && r <= spec.size && (r == desired || r == spec.size)
    ensures spec.mode == Unspecified ==> r == desired
  {
    match spec.mode
    case Exactly => spec.size
    case _ =>
      var result := desired;
      if spec.mode == AtMost && spec.size < result then spec.size else result
  }

  /** Under an upper bound the reported size is the smaller of the two: it never
      exceeds the desired size, and it is the desired size whenever that fits. */
  lemma AtMostIsMin(size: int, desired: int)
    ensures MeasuredSize(MeasureSpec(AtMost, size), desired) == if desired <= size then desired else size
  {
  }

  /** The view's padding, in pixels. */
  datatype Padding = Padding(left: int, top: int, right: int, bottom: int)

  /** `onMeasure`'s desired size on one axis: the backdrop's minimum side plus the
      padding on both ends, truncated to an int. */
  function DesiredSize(minSide: real, before: int, after: int): (r: int)
    ensures minSide >= 0.0 ==> r >= before + after
    ensures minSide + before as real + after as real >= 0.0 ==>
      r as real <= minSide + before as real + after as real < r as real + 1.0
  {
    Trunc(minSide + before as real + after as real)
  }

  /** A point, in pixels. */
  datatype Point = Point(x: real, y: real)

  /** An axis-aligned rectangle (`RectF`), in pixels. */
  datatype Rect = Rect(left: real, top: real, right: real, bottom: real)

  /** `initPath(ratio)`: the bolt's six corners, in dp (35, 0), (0, 35), (17.5, 35),
      (5, 60), (40, 25), (22.5, 25), that is: the top, the left tip, the inner
      corner, the bottom tip, the right tip and the upper inner corner; the path
      closes back to the first. Each is scaled by `ratio` (dp converted with
      `density`) and moved to the padding origin. */
  function BoltPath(ratio: real, density: real, pad: Padding): (p: seq<Point>)
    requires ratio > 0.0 && density > 0.0
    ensures |p| == 6
    ensures forall i :: 0 <= i < |p| ==>
      pad.left as real <= p[i].x <= pad.left as real + 40.0 * (density * ratio) &&
      pad.top as real <= p[i].y <= pad.top as real + 60.0 * (density * ratio)
    ensures p[1].x == pad.left as real && p[4].x == pad.left as real + 40.0 * (density * ratio)
    ensures p[0].y == pad.top as real && p[3].y == pad.top as real + 60.0 * (density * ratio)
  {
    var l, t, k := pad.left as real, pad.top as real, density * ratio;
    [Point(35.0 * k + l, 0.0 + t), Point(0.0 + l, 35.0 * k + t), Point(17.5 * k + l, 35.0 * k + t),
     Point(5.0 * k + l, 60.0 * k + t), Point(40.0 * k + l, 25.0 * k + t), Point(22.5 * k + l, 25.0 * k + t)]
  }

  /** The error `onSizeChanged` raises for a box smaller than the backdrop. */
  datatype LayoutError = TooSmall

  /** `onSizeChanged`: a box narrower or lower than the (truncated) backdrop minimum
      is rejected; otherwise the backdrop occupies a `minWidth` by `minHeight`
      rectangle at the padding origin. */
  function BackdropBounds(w: int, h: int, minWidth: real, minHeight: real, pad: Padding)
    : (r: Result<Rect, LayoutError>)
    ensures r.Failure? <==> w < Trunc(minWidth) || h < Trunc(minHeight)
    ensures r.Success? ==>
      r.value.left == pad.left as real && r.value.top == pad.top as real &&
      r.value.right - r.value.left == minWidth && r.value.bottom - r.value.top == minHeight
  {
    if w < Trunc(minWidth) || h < Trunc(minHeight) then Failure(TooSmall)
    else Success(Rect(pad.left as real, pad.top as real, minWidth + pad.left as real, minHeight + pad.top as real))
  }

  /** The clip rectangle of `onDraw` for a reveal window `top`..`bottom` over a
      bolt `boltWidth` wide (in the bolt's translated coordinates). */
  function ClipBand(top: int, bottom: int, boltWidth: real, pad: Padding): (r: Rect)
    ensures r.left == pad.left as real && r.top == pad.top as real + top as real
    ensures r.right - r.left == boltWidth
    ensures r.bottom - r.top == (bottom - top) as real
  {
    Rect(pad.left as real, (top + pad.top) as real, boltWidth + pad.left as real, (bottom + pad.top) as real)
  }

  /** The band spans the outline's width and lies within its vertical extent. */
  predicate BandInsideOutline(band: Rect, p: seq<Point>)
    requires |p| == 6
  {
    band.left == p[1].x && band.right == p[4].x && p[0].y <= band.top <= band.bottom <= p[3].y
  }

  /** When the window lies within the bolt's height, the clipped band lies within the
      bolt path's vertical extent, so the cover colour repaints only part of the bolt. */
  lemma {:induction false} ClipBandWithinBolt(top: int, bottom: int, ratio: real, density: real, pad: Padding)
    requires ratio > 0.0 && density > 0.0
    requires 0 <= top <= bottom && bottom as real <= 60.0 * (density * ratio)
    ensures BandInsideOutline(ClipBand(top, bottom, 40.0 * (density * ratio), pad), BoltPath(ratio, density, pad))
  {
    var p := BoltPath(ratio, density, pad);
    assert p[0].y == pad.top as real && p[3].y == pad.top as real + 60.0 * (density * ratio);
  }
}
