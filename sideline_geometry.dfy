/**
 * The arithmetic of SidebarService: where the sideline handle sits
 * horizontally, and the vertical band that its resting position is
 * clamped into.
 *
 * Coordinates are those of WindowManager.LayoutParams for a centred
 * window: y = 0 is the middle of the screen, negative y is above it.
 * Kotlin's 32-bit `Int` is modelled by unbounded integers.
 */
module SidelineGeometry {

  /** Width of the resting handle. */
  const SIDELINE_WIDTH := 100
  /** Width of the handle while it is being dragged. */
  const SIDELINE_MOVE_WIDTH := 200
  /** Handle length when SLIDER_LENGTH is unset. */
  const DEFAULT_SIDELINE_HEIGHT := 200
  const OFFSET_PORTRAIT := 20
  const OFFSET_LANDSCAPE := 0

  /**
   * What the service reads from the platform on each call: the current
   * orientation, `SystemBarUtils.getStatusBarHeight` and the
   * `navigation_bar_height` dimension.
   */
  datatype DeviceConfig = DeviceConfig(portrait: bool, statusBarHeight: nat, navigationBarHeight: nat)

  /** Kotlin's `a / b` on `Int`: the quotient truncated toward zero. */
  function Quot(a: int, b: int): (q: int)
    requires b > 0
    ensures 0 <= a ==> 0 <= a - q * b < b
    ensures a < 0 ==> -b < a - q * b <= 0
  {
    if a >= 0 then a / b else -((-a) / b)
  }

  /**
   * Kotlin reads `-screenHeight / 6` as `(-screenHeight) / 6`; with
   * truncating division that is `-(screenHeight / 6)`.
   */
  lemma QuotOfNegation(a: int, b: int)
    requires b > 0
    ensures Quot(-a, b) == -Quot(a, b)
  {
  }

  /** The `offset` property: the handle's inset from the screen edge. */
  function Offset(portrait: bool): int {
    if portrait then OFFSET_PORTRAIT else OFFSET_LANDSCAPE
  }

  /** The side a touch at `positionX` snaps to: 1 for right, -1 for left. */
  function SideFor(positionX: int, screenWidth: int): int {
    if positionX > Quot(screenWidth, 2) then 1 else -1
  }

  /** `layoutParams.x` for a handle on `side`. */
  function SidelineX(side: int, screenWidth: int, portrait: bool): int {
    side * (Quot(screenWidth, 2) - Offset(portrait))
  }

  /** The navigation bar only takes height away in portrait. */
  function NavbarHeight(cfg: DeviceConfig): int {
    if cfg.portrait then cfg.navigationBarHeight else 0
  }

  /** `minVal` of constrainY: the top of the band, just below the status bar. */
  function MinY(screenHeight: int, sliderLength: int, cfg: DeviceConfig): int {
    -(Quot(screenHeight, 2) - cfg.statusBarHeight - Quot(sliderLength, 2))
  }

  /** `maxVal` of constrainY: the bottom of the band, above the navigation bar in portrait. */
  function MaxY(screenHeight: int, sliderLength: int, cfg: DeviceConfig): int {
    Quot(screenHeight, 2) - NavbarHeight(cfg) - Quot(sliderLength, 2)
  }

  /** `coerceIn(minVal, maxVal)` throws unless the band is non-empty. */
  predicate ClampDefined(screenHeight: int, sliderLength: int, cfg: DeviceConfig) {
    MinY(screenHeight, sliderLength, cfg) <= MaxY(screenHeight, sliderLength, cfg)
  }

  function Dist(a: int, b: int): nat {
    if a <= b then b - a else a - b
  }

  /** Kotlin's `v.coerceIn(lo, hi)`. */
  function CoerceIn(v: int, lo: int, hi: int): (r: int)
    requires lo <= hi
    ensures lo <= r <= hi
    ensures lo <= v <= hi ==> r == v
  {
    if v < lo then lo else if v > hi then hi else v
  }

  /** The clamped value is the point of `[lo, hi]` nearest to `v`. */
  lemma CoerceInIsNearest(v: int, lo: int, hi: int, z: int)
    requires lo <= hi && lo <= z <= hi
    ensures Dist(CoerceIn(v, lo, hi), v) <= Dist(z, v)
  {
  }

  /** `constrainY`: clamp y into the band that avoids the system bars. */
  function ConstrainY(y: int, screenHeight: int, sliderLength: int, cfg: DeviceConfig): (r: int)
    requires ClampDefined(screenHeight, sliderLength, cfg)
    ensures MinY(screenHeight, sliderLength, cfg) <= r <= MaxY(screenHeight, sliderLength, cfg)
    ensures MinY(screenHeight, sliderLength, cfg) <= y <= MaxY(screenHeight, sliderLength, cfg) ==> r == y
    ensures y < MinY(screenHeight, sliderLength, cfg) ==> r == MinY(screenHeight, sliderLength, cfg)
    ensures y > MaxY(screenHeight, sliderLength, cfg) ==> r == MaxY(screenHeight, sliderLength, cfg)
  {
    CoerceIn(y, MinY(screenHeight, sliderLength, cfg), MaxY(screenHeight, sliderLength, cfg))
  }

  /** Clamping a clamped value changes nothing. */
  lemma ConstrainYIdempotent(y: int, screenHeight: int, sliderLength: int, cfg: DeviceConfig)
    requires ClampDefined(screenHeight, sliderLength, cfg)
    ensures ConstrainY(ConstrainY(y, screenHeight, sliderLength, cfg), screenHeight, sliderLength, cfg)
         == ConstrainY(y, screenHeight, sliderLength, cfg)
  {
  }

  /**
   * Orientation moves only the bottom of the band: the top always leaves
   * room for the status bar, and the bottom leaves room for the navigation
   * bar in portrait and for nothing in landscape.
   */
  lemma BandByOrientation(screenHeight: int, sliderLength: int, sb: nat, nav: nat)
    ensures MinY(screenHeight, sliderLength, DeviceConfig(true, sb, nav))
         == MinY(screenHeight, sliderLength, DeviceConfig(false, sb, nav))
         == Quot(sliderLength, 2) + sb - Quot(screenHeight, 2)
    ensures MaxY(screenHeight, sliderLength, DeviceConfig(false, sb, nav))
         == Quot(screenHeight, 2) - Quot(sliderLength, 2)
    ensures MaxY(screenHeight, sliderLength, DeviceConfig(true, sb, nav))
         == MaxY(screenHeight, sliderLength, DeviceConfig(false, sb, nav)) - nav
  {
  }

  /**
   * A release point inside the navigation-bar strip stays where it is in
   * landscape, and is pulled up to the top of the navigation bar in portrait.
   */
  lemma NavigationBarStripOnlyInPortrait(y: int, screenHeight: int, sliderLength: int, sb: nat, nav: nat)
    requires ClampDefined(screenHeight, sliderLength, DeviceConfig(true, sb, nav))
    requires MaxY(screenHeight, sliderLength, DeviceConfig(true, sb, nav)) < y
    requires y <= MaxY(screenHeight, sliderLength, DeviceConfig(false, sb, nav))
    ensures ConstrainY(y, screenHeight, sliderLength, DeviceConfig(false, sb, nav)) == y
    ensures ConstrainY(y, screenHeight, sliderLength, DeviceConfig(true, sb, nav))
         == MaxY(screenHeight, sliderLength, DeviceConfig(true, sb, nav)) < y
  {
  }
}
