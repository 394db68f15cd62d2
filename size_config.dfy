/** The size tier of the indicator and the dimensions derived from it
    (`Size`, `parseAttributes` and `initConfig` in ThunderLoadingView.java). */
module SizeConfig {
  import opened Wrappers

  /** The three tiers of the `Size` enum. */
  datatype Size = Small | Medium | Large

  /** The scale factor each tier carries. */
  function Factor(s: Size): (f: real)
    ensures 0.0 < f <= 1.0
  {
    match s
    case Small => 0.5
    case Medium => 0.75
    case Large => 1.0
  }

  /** The scan step, in pixels per tick, that `initConfig` assigns to each tier. */
  function GapOf(s: Size): (g: int)
  {
    match s
    case Large => 7
    case Medium => 5
    case Small => 3
  }

  // Base dimensions in dp; `dp2px` multiplies by the display density.
  const BaseBoltWidth: real := 40.0   // DEFAULT_WIDTH
  const BaseBoltHeight: real := 60.0  // DEFAULT_HEIGHT
  const BaseViewSize: real := 70.0    // DEFAULT_VIEW_SIZE

  /** The value of the `thunder_size` layout attribute that selects each tier. */
  function Code(s: Size): (c: int)
  {
    match s
    case Small => 0
    case Medium => 1
    case Large => 2
  }

  /** The tier an attribute value selects, if any (the `switch` of `parseAttributes`). */
  function SizeOfCode(code: int): (r: Option<Size>)
    ensures r.Some? <==> 0 <= code <= 2
    ensures r.Some? ==> Code(r.value) == code
  {
    if code == 0 then Some(Small)
    else if code == 1 then Some(Medium)
    else if code == 2 then Some(Large)
    else None
  }

  /** `parseAttributes`: `attr` is the `thunder_size` attribute (None when the layout
      does not set it), `current` the field's value before the call. An absent
      attribute reads as 0 and so selects Small; an unknown value keeps `current`. */
  function ParsedSize(attr: Option<int>, current: Size): (r: Size)
    ensures attr.None? ==> r == Small
    ensures attr.Some? && 0 <= attr.value <= 2 ==> Code(r) == attr.value
    ensures attr.Some? && !(0 <= attr.value <= 2) ==> r == current
  {
    var code := match attr case Some(v) => v case None => 0;
    match SizeOfCode(code)
    case Some(s) => s
    case None => current
  }

  /** Every tier is selected by its own code, whatever the field held before. */
  lemma ParsedSizeOfCode(s: Size, current: Size)
    ensures ParsedSize(Some(Code(s)), current) == s
  {
  }

  /** The dimensions `initConfig` derives from a tier, in pixels. */
  datatype Dimensions = Dimensions(
    viewMinWidth: real,   // mViewMinWidth: side of the rounded backdrop
    viewMinHeight: real,  // mViewMinHeight
    boltWidth: real,      // mDefaultWidth
    boltHeight: real,     // mDefaultHeight: the scan's travel
    gap: int)             // mGap: the scan's step

  /** `initConfig` for tier `s` on a display of the given density (pixels per dp). */
  function Config(s: Size, density: real): (d: Dimensions)
    requires density > 0.0
    ensures d.viewMinWidth == d.viewMinHeight
    ensures 0.0 < d.boltWidth <= d.viewMinWidth && 0.0 < d.boltHeight <= d.viewMinHeight
    ensures d.viewMinWidth == BaseViewSize * (density * Factor(s))
    ensures d.boltWidth == BaseBoltWidth * (density * Factor(s))
    ensures d.boltHeight == BaseBoltHeight * (density * Factor(s))
    ensures d.gap == GapOf(s) > 0
  {
    // dp2px(base) * factor, with the product density * factor taken once
    var k := density * Factor(s);
    Dimensions(BaseViewSize * k, BaseViewSize * k, BaseBoltWidth * k, BaseBoltHeight * k, GapOf(s))
  }

  /** A larger tier is at least as large in every dimension and steps at least as far. */
  lemma ConfigMonotone(s1: Size, s2: Size, density: real)
    requires density > 0.0
    requires Factor(s1) <= Factor(s2)
    ensures Config(s1, density).viewMinWidth <= Config(s2, density).viewMinWidth
    ensures Config(s1, density).boltWidth <= Config(s2, density).boltWidth
    ensures Config(s1, density).boltHeight <= Config(s2, density).boltHeight
    ensures Config(s1, density).gap <= Config(s2, density).gap
  {
  }
}
