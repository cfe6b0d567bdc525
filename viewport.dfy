/**
 * Material-UI's viewport width buckets and the two breakpoint tests the map
 * components use. The library's source is not part of this model: its
 * documented default (inclusive comparison on the order xs < sm < md < lg < xl)
 * is assumed here.
 */
module Viewport {
  datatype Width = Xs | Sm | Md | Lg | Xl

  /** Position of a bucket in the order xs < sm < md < lg < xl. */
  function Rank(w: Width): nat {
    match w
    case Xs => 0
    case Sm => 1
    case Md => 2
    case Lg => 3
    case Xl => 4
  }

  /** `isWidthDown(breakpoint, width)`: the width is at or below the breakpoint. */
  predicate IsWidthDown(breakpoint: Width, width: Width) {
    Rank(width) <= Rank(breakpoint)
  }

  /** `isWidthUp(breakpoint, width)`: the width is at or above the breakpoint. */
  predicate IsWidthUp(breakpoint: Width, width: Width) {
    Rank(width) >= Rank(breakpoint)
  }

  /**
   * `setZoomMap`, written identically in both map components: zoom 5 on
   * small screens, 6 otherwise.
   */
  function ZoomMap(width: Width): (zoom: int)
    ensures zoom == 5 || zoom == 6
    ensures zoom == 5 <==> width == Xs || width == Sm
  {
    if IsWidthDown(Sm, width) && IsWidthUp(Xs, width) then 5 else 6
  }
}
