/** The ThunderLoadingView object: the fields its lifecycle callbacks and its
    animation runnable update in place, each method tied to the pure definitions
    of SizeConfig, ScanAnimator and Layout. Everything platform-specific (drawing,
    the message queue, display metrics, `MeasureSpec` packing) is passed in or
    returned instead. */
module ThunderView {
  import opened JavaCasts
  import opened Wrappers
  import opened SizeConfig
  import opened ScanAnimator
  import opened Layout

  /** Which constructor created the view: the one for code, or the one the layout
      inflater calls, with the `thunder_size` attribute (None when not set). */
  datatype Origin = FromCode | FromLayout(thunderSize: Option<int>)

  class ThunderLoadingView {
    /** Display density, pixels per dp (what `dp2px` multiplies by). */
    const density: real

    var size: Size             // mSize
    var gap: int               // mGap
    var viewMinWidth: real     // mViewMinWidth
    var viewMinHeight: real    // mViewMinHeight
    var defaultWidth: real     // mDefaultWidth
    var defaultHeight: real    // mDefaultHeight
    var scanTop: int           // mScanTop
    var scanBottom: int        // mScanBottom
    var flag: bool             // flag: true while the window shrinks
    var path: seq<Point>       // mThunderPath; empty until the first onSizeChanged
    var bounds: Option<Rect>   // mBounds; None until onSizeChanged accepts a box

    /** The derived dimensions as they stand. */
    function Dims(): (d: Dimensions)
      reads this
    {
      Dimensions(viewMinWidth, viewMinHeight, defaultWidth, defaultHeight, gap)
    }

    /** The reveal window as it stands. */
    function Scan(): (w: Window)
      reads this
    {
      Window(scanTop, scanBottom, flag)
    }

    /** The dimensions are those `initConfig` derives from the current tier. */
    ghost predicate Configured()
      reads this
    {
      density > 0.0 && Dims() == Config(size, density)
    }

    constructor (density: real, origin: Origin)
      requires density > 0.0
      ensures this.density == density
      ensures size == match origin case FromCode => Medium case FromLayout(a) => ParsedSize(a, Medium)
      ensures Configured()
      ensures Scan() == Init
      ensures path == [] && bounds == None
    {
      this.density := density;
      size := Medium;
      gap := 10;
      defaultWidth := BaseBoltWidth * density;
      defaultHeight := BaseBoltHeight * density;
      viewMinWidth := BaseViewSize * density;
      viewMinHeight := BaseViewSize * density;
      scanTop, scanBottom, flag := 0, 0, false;
      path := [];
      bounds := None;
      new;
      if origin.FromLayout? {
        ParseAttributes(origin.thunderSize);
      }
      InitConfig();
    }

    /** `parseAttributes`: reads the tier from the `thunder_size` attribute, which
        reads as 0 when absent. */
    method ParseAttributes(attr: Option<int>)
      modifies this`size
      ensures size == ParsedSize(attr, old(size))
    {
      var code := if attr.Some? then attr.value else 0;
      if code == 0 {
        size := Small;
      } else if code == 1 {
        size := Medium;
      } else if code == 2 {
        size := Large;
      }
    }

    /** `initConfig`: derives the dimensions and the step from the current tier. */
    method InitConfig()
      requires density > 0.0
      modifies this`viewMinWidth, this`viewMinHeight, this`defaultWidth, this`defaultHeight, this`gap
      ensures Configured()
    {
      var k := density * Factor(size);
      viewMinWidth := BaseViewSize * k;
      viewMinHeight := viewMinWidth;
      defaultWidth := BaseBoltWidth * k;
      defaultHeight := BaseBoltHeight * k;
      match size {
        case Large => gap := 7;
        case Medium => gap := 5;
        case Small => gap := 3;
      }
    }

    /** `setSize`: replaces the tier and re-derives the dimensions; the reveal window,
        the built path and the bounds stay as they are. */
    method SetSize(s: Size)
      requires density > 0.0
      modifies this`size, this`viewMinWidth, this`viewMinHeight, this`defaultWidth, this`defaultHeight, this`gap
      ensures size == s && Configured()
      ensures Scan() == old(Scan()) && path == old(path) && bounds == old(bounds)
    {
      size := s;
      InitConfig();
    }

    /** `AnimRunnable.run`: one tick of the scan. Returns whether it asked for a redraw
        and how it rescheduled itself. */
    method Tick() returns (redraw: bool, next: Schedule)
      modifies this`scanTop, this`scanBottom, this`flag
      ensures TickOutcome(Scan(), redraw, next) == Step(old(Scan()), gap, defaultHeight)
      ensures old(Configured()) && Ordered(old(Scan()), defaultHeight) ==> Ordered(Scan(), defaultHeight)
    {
      ghost var before := Scan();
      if !flag {
        scanBottom := scanBottom + gap;
        if scanBottom as real >= defaultHeight {
          scanBottom := Trunc(defaultHeight);
          flag := true;
        }
        redraw, next := true, Immediate;
      } else {
        scanTop := scanTop + gap;
        if scanTop as real >= defaultHeight {
          scanTop, scanBottom := 0, 0;
          flag := false;
          redraw, next := true, Delayed(IdleDelay);
        } else {
          redraw, next := true, Immediate;
        }
      }
      if Configured() && Ordered(before, defaultHeight) {
        StepKeepsOrder(before, gap, defaultHeight);
      }
    }

    /** `onMeasure`: the measured width and height, each the parent's spec applied to
        the backdrop minimum plus padding. */
    method OnMeasure(widthSpec: MeasureSpec, heightSpec: MeasureSpec, pad: Padding)
      returns (width: int, height: int)
      ensures width == MeasuredSize(widthSpec, DesiredSize(viewMinWidth, pad.left, pad.right))
      ensures height == MeasuredSize(heightSpec, DesiredSize(viewMinHeight, pad.top, pad.bottom))
    {
      var desiredWidth := Trunc(viewMinWidth + pad.left as real + pad.right as real);
      var desiredHeight := Trunc(viewMinHeight + pad.top as real + pad.bottom as real);
      width := MeasuredSize(widthSpec, desiredWidth);
      height := MeasuredSize(heightSpec, desiredHeight);
    }

    /** `initPath`: builds the outline one `moveTo`/`lineTo` at a time. */
    method InitPath(ratio: real, pad: Padding)
      requires ratio > 0.0 && density > 0.0
      modifies this`path
      ensures path == BoltPath(ratio, density, pad)
    {
      var l, t, k := pad.left as real, pad.top as real, density * ratio;
      path := [Point(35.0 * k + l, 0.0 + t)];
      path := path + [Point(0.0 + l, 35.0 * k + t)];
      path := path + [Point(17.5 * k + l, 35.0 * k + t)];
      path := path + [Point(5.0 * k + l, 60.0 * k + t)];
      path := path + [Point(40.0 * k + l, 25.0 * k + t)];
      path := path + [Point(22.5 * k + l, 25.0 * k + t)];
    }

    /** `onSizeChanged` for a `w` by `h` box: rebuilds the path first, then rejects a
        box below the backdrop minimum, and otherwise places the backdrop at the
        padding origin. */
    method OnSizeChanged(w: int, h: int, pad: Padding) returns (r: Result<Rect, LayoutError>)
      requires Configured()
      modifies this`path, this`bounds
      ensures path == BoltPath(Factor(size), density, pad)
      ensures r == BackdropBounds(w, h, viewMinWidth, viewMinHeight, pad)
      ensures r.Success? ==> bounds == Some(r.value)
      ensures r.Failure? ==> bounds == old(bounds)
    {
      InitPath(Factor(size), pad);
      if w < Trunc(viewMinWidth) || h < Trunc(viewMinHeight) {
        return Failure(TooSmall);
      }
      var rect := Rect(pad.left as real, pad.top as real,
                       viewMinWidth + pad.left as real, viewMinHeight + pad.top as real);
      bounds := Some(rect);
      r := Success(rect);
    }
  }

  /** Setting the same tier twice leaves the view as setting it once does. */
  method SetSizeTwice(v: ThunderLoadingView, s: Size)
    requires v.density > 0.0
    modifies v
    ensures v.size == s && v.Configured()
    ensures v.Scan() == old(v.Scan()) && v.path == old(v.path) && v.bounds == old(v.bounds)
  {
    v.SetSize(s);
    v.SetSize(s);
  }

  /** At density 1, each phase of the scan lasts 10 ticks for Small and 9 for Medium
      and Large, so a cycle is 20, 18 and 18 ticks. */
  lemma PhaseTicksAtUnitDensity(s: Size)
    ensures var d := Config(s, 1.0);
      TicksToReach(0, d.gap, d.boltHeight) == (match s case Small => 10 case Medium => 9 case Large => 9)
  {
    var d := Config(s, 1.0);
    match s {
      case Small => TicksToReachUnique(0, d.gap, d.boltHeight, 10);
      case Medium => TicksToReachUnique(0, d.gap, d.boltHeight, 9);
      case Large => TicksToReachUnique(0, d.gap, d.boltHeight, 9);
    }
  }

  /** For a configured tier, the vertical band `onDraw` clips to after any number of
      ticks from the initial window lies within the bolt outline's extent. */
  lemma ReachableBandWithinBolt(s: Size, density: real, pad: Padding, n: nat)
    requires density > 0.0
    ensures var d := Config(s, density);
      var w := Run(Init, d.gap, d.boltHeight, n).0;
      BandInsideOutline(ClipBand(w.top, w.bottom, d.boltWidth, pad), BoltPath(Factor(s), density, pad))
  {
    var d := Config(s, density);
    var ratio := Factor(s);
    var w := Run(Init, d.gap, d.boltHeight, n).0;
    ReachableBounded(d.gap, d.boltHeight, n);
    assert w.bottom as real <= 60.0 * (density * ratio);
    ClipBandWithinBolt(w.top, w.bottom, ratio, density, pad);
  }
}
