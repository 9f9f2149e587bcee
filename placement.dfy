/** Where the dock panel puts itself and what it tells its neighbours: the
    panel's place on the screen, the application menu's place next to it,
    the strut it reserves, the border zone in which the pointer does not
    start the zoom, the extents `initLayoutVars` computes, and the moves
    that turn an item's geometry in one panel frame into its geometry in
    the other when an animation starts. All coordinates are integers and
    every division is C++'s truncating one. */
module Placement {
  import opened Arith
  import opened Zoom
  import opened Items

  datatype Point = Point(x: int, y: int)

  /** A rectangle: a screen, or the panel window. */
  datatype Rect = Rect(x: int, y: int, width: int, height: int)

  /** A width and a height: the panel background. */
  datatype Extent = Extent(width: int, height: int)

  /** The panel's thickness in auto-hide mode (`kAutoHideSize`). */
  const AutoHideSize := 1

  /** `numAnimationSteps_` and `animationSpeed_` as `initLayoutVars` sets them. */
  const NumAnimationSteps := 20
  const AnimationSpeed := 16

  /** The timer interval of the animation, `32 - animationSpeed_`: for every
      speed in the documented range 0..31 it is a positive number of
      milliseconds, and the higher the speed the shorter the interval. */
  function TickInterval(speed: int): (ms: int)
    requires 0 <= speed <= 31
    ensures 1 <= ms <= 32
  {
    32 - speed
  }

  lemma TickIntervalFaster(a: int, b: int)
    requires 0 <= a < b <= 31
    ensures TickInterval(b) < TickInterval(a)
    ensures TickInterval(AnimationSpeed) == 16
  {
  }

  /** The place `resize(w, h)` gives a panel of size `w` x `h`, relative to
      the screen's top-left corner: flush with the screen edge it is docked
      to and centred along that edge, up to C++'s rounding of the halving. */
  function DockOrigin(position: Position, screenWidth: int, screenHeight: int, w: int, h: int): (p: Point)
    ensures position == Top ==> p.y == 0
    ensures position == Bottom ==> p.y + h == screenHeight
    ensures position == Left ==> p.x == 0
    ensures position == Right ==> p.x + w == screenWidth
    ensures OrientationOf(position) == Horizontal ==> Abs(screenWidth - w - 2 * p.x) <= 1
    ensures OrientationOf(position) == Vertical ==> Abs(screenHeight - h - 2 * p.y) <= 1
  {
    match position
    case Top => Point(CDiv(screenWidth - w, 2), 0)
    case Bottom => Point(CDiv(screenWidth - w, 2), screenHeight - h)
    case Left => Point(0, CDiv(screenHeight - h, 2))
    case Right => Point(screenWidth - w, CDiv(screenHeight - h, 2))
  }

  /** `applicationMenuPosition`: the menu opens against the side of the
      minimized panel that faces the rest of the screen, aligned with the
      panel's first corner. */
  function MenuPosition(position: Position, minX: int, minY: int, minWidth: int, minHeight: int,
                        menuWidth: int, menuHeight: int): (p: Point)
    ensures position == Top ==> p.x == minX && p.y == minY + minHeight
    ensures position == Bottom ==> p.x == minX && p.y + menuHeight == minY
    ensures position == Left ==> p.y == minY && p.x == minX + minWidth
    ensures position == Right ==> p.y == minY && p.x + menuWidth == minX
  {
    match position
    case Top => Point(minX, minY + minHeight)
    case Bottom => Point(minX, minY - menuHeight)
    case Left => Point(minX + minWidth, minY)
    case Right => Point(minX - menuWidth, minY)
  }

  /** The menu never overlaps the minimized panel whose corner is at
      `(minX, minY)`. */
  lemma MenuBesidePanel(position: Position, minX: int, minY: int, minWidth: int, minHeight: int,
                        menuWidth: int, menuHeight: int)
    ensures var p := MenuPosition(position, minX, minY, minWidth, minHeight, menuWidth, menuHeight);
      p.y >= minY + minHeight || p.y + menuHeight <= minY || p.x >= minX + minWidth || p.x + menuWidth <= minX
  {
  }

  /** `applicationSubMenuPosition`: on a top panel a sub-menu is moved up
      no further than the panel's lower edge, so that it ends with the menu
      when it can; on a bottom panel it is moved up until it ends above the
      panel; on a side panel it stays where the menu put it. It never moves
      sideways or down. */
  function SubMenuPosition(position: Position, minY: int, minHeight: int, menuHeight: int,
                           subMenu: Rect): (p: Point)
    ensures p.x == subMenu.x && p.y <= subMenu.y
    ensures position == Top && p.y != subMenu.y ==>
      p.y >= minY + minHeight && p.y + subMenu.height >= minY + minHeight + menuHeight
    ensures position == Bottom ==> p.y + subMenu.height <= minY
    ensures position == Bottom && p.y != subMenu.y ==> p.y + subMenu.height == minY
    ensures OrientationOf(position) == Vertical ==> p == Point(subMenu.x, subMenu.y)
  {
    match position
    case Top =>
      Point(subMenu.x, Min(subMenu.y, Max(minY + minHeight, minY + minHeight + menuHeight - subMenu.height)))
    case Bottom => Point(subMenu.x, Min(subMenu.y, minY - subMenu.height))
    case _ => Point(subMenu.x, subMenu.y)
  }

  /** The width `setStrut()` reserves at the screen edge: the minimized
      panel's thickness while always visible, one pixel for auto-hide and
      for windows-can-cover, and nothing otherwise. */
  function StrutWidth(visibility: Visibility, orientation: Orientation, minWidth: int, minHeight: int): (w: int)
    ensures visibility == AlwaysVisible ==> w == (if orientation == Horizontal then minHeight else minWidth)
    ensures visibility == AutoHide || visibility == WindowsCanCover ==> w == 1
    ensures visibility == WindowsCanCoverQuiet || visibility == WindowsGoBelow ==> w == 0
  {
    match visibility
    case AlwaysVisible => if orientation == Horizontal then minHeight else minWidth
    case AutoHide => 1
    case WindowsCanCover => 1
    case _ => 0
  }

  /** Only the quiet modes leave the screen edge free to maximized windows. */
  lemma StrutReservesSpace(visibility: Visibility, orientation: Orientation, minWidth: int, minHeight: int)
    requires minWidth > 0 && minHeight > 0
    ensures StrutWidth(visibility, orientation, minWidth, minHeight) > 0 <==>
      !(visibility == WindowsCanCoverQuiet || visibility == WindowsGoBelow)
  {
  }

  /** How far the pointer at `(x, y)` in a panel window of `width` x
      `height` is from the window's side that faces away from the screen
      edge. */
  function InnerDistance(position: Position, x: int, y: int, width: int, height: int): int
  {
    match position
    case Top => height - y
    case Bottom => y
    case Left => width - x
    case Right => x
  }

  /** The test of `mouseMoveEvent` that ignores a pointer entering through
      the panel's inner border: it is within half an item spacing of that
      side. */
  function NearInnerBorder(position: Position, x: int, y: int, width: int, height: int, spacing: int): (r: bool)
    requires spacing >= 0
    ensures r <==> InnerDistance(position, x, y, width, height) < spacing / 2
  {
    (position == Bottom && y < spacing / 2) ||
    (position == Top && y > height - spacing / 2) ||
    (position == Left && x > width - spacing / 2) ||
    (position == Right && x < spacing / 2)
  }

  /** The extents `initLayoutVars` computes. */
  datatype LayoutVars = LayoutVars(
    maxX: int,
    minWidth: int,
    minHeight: int,
    maxWidth: int,
    maxHeight: int,
    numAnimationSteps: int,
    animationSpeed: int)

  /** `initLayoutVars` for `count` items whose minimized extents plus one
      spacing each add up to `length`: along the panel the minimized panel
      is `length` long and the magnified one longer by `ZoomDelta`; across
      it the minimized panel is one item pitch thick (one pixel when
      auto-hidden) and the magnified one `spacing + maxSize`. */
  function InitialVars(o: Orientation, autoHide: bool, minSize: int, maxSize: int, spacing: int,
                       count: int, length: int): (v: LayoutVars)
    requires 0 < minSize <= maxSize && spacing >= 0
    ensures v.maxX == ParabolicMaxX(minSize, spacing) && v.maxX > 0
    ensures v.numAnimationSteps == NumAnimationSteps && v.animationSpeed == AnimationSpeed
    ensures var thin := if autoHide then AutoHideSize else minSize + spacing;
      if o == Horizontal then
        v.minWidth == length && v.minHeight == thin && v.maxHeight == spacing + maxSize
      else
        v.minHeight == length && v.minWidth == thin && v.maxWidth == spacing + maxSize
    ensures var delta := if o == Horizontal then v.maxWidth - v.minWidth else v.maxHeight - v.minHeight;
      0 <= delta <= Max(0, Min(count, 5)) * (maxSize - minSize)
  {
    var maxX := ParabolicMaxX(minSize, spacing);
    var distance := minSize + spacing;
    var delta := ZoomDelta(count, minSize, maxSize, maxX, distance);
    var thin := if autoHide then AutoHideSize else distance;
    if o == Horizontal then
      LayoutVars(maxX, length, thin, length + delta, spacing + maxSize, NumAnimationSteps, AnimationSpeed)
    else
      LayoutVars(maxX, thin, length, spacing + maxSize, length + delta, NumAnimationSteps, AnimationSpeed)
  }

  /** The magnified panel is at least as long and as thick as the
      minimized one. */
  lemma MagnifiedPanelContainsMinimized(o: Orientation, autoHide: bool, minSize: int, maxSize: int,
                                        spacing: int, count: int, length: int)
    requires 0 < minSize <= maxSize && spacing >= 0
    ensures var v := InitialVars(o, autoHide, minSize, maxSize, spacing, count, length);
      v.minWidth <= v.maxWidth && v.minHeight <= v.maxHeight
  {
    var v := InitialVars(o, autoHide, minSize, maxSize, spacing, count, length);
    if o == Horizontal {
      assert v.minHeight <= minSize + spacing;
    } else {
      assert v.minWidth <= minSize + spacing;
    }
  }

  /** The move `updateLayout(x, y)` applies to every item's current,
      minimized geometry to record its start snapshot: the items stay
      where they are on screen while the window grows from the minimized
      to the magnified size, which centres the minimized run along the
      panel and pushes it away from the screen edge by the extra thickness
      (on a top or left panel the thickness it had). */
  function EnteringMove(position: Position, v: LayoutVars, distance: int): (d: Point)
    ensures OrientationOf(position) == Horizontal ==> d.x == CDiv(v.maxWidth - v.minWidth, 2)
    ensures OrientationOf(position) == Vertical ==> d.y == CDiv(v.maxHeight - v.minHeight, 2)
  {
    match position
    case Top => Point(CDiv(v.maxWidth - v.minWidth, 2), v.minHeight - distance)
    case Bottom => Point(CDiv(v.maxWidth - v.minWidth, 2), v.maxHeight - v.minHeight)
    case Left => Point(v.minWidth - distance, CDiv(v.maxHeight - v.minHeight, 2))
    case Right => Point(v.maxWidth - v.minWidth, CDiv(v.maxHeight - v.minHeight, 2))
  }

  /** The move `updateLayout()` applies, when leaving, to every item's new
      minimized geometry to record its end snapshot in the coordinates of
      the still magnified window at `frame`. */
  function LeavingMove(position: Position, v: LayoutVars, distance: int, screen: Rect, frame: Rect): (d: Point)
  {
    match position
    case Top => Point(CDiv(screen.width - v.minWidth, 2) - frame.x + screen.x, v.minHeight - distance)
    case Bottom => Point(CDiv(screen.width - v.minWidth, 2) - frame.x + screen.x, v.maxHeight - v.minHeight)
    case Left => Point(v.minWidth - distance, CDiv(screen.height - v.minHeight, 2) - frame.y + screen.y)
    case Right => Point(v.maxWidth - v.minWidth, CDiv(screen.height - v.minHeight, 2) - frame.y + screen.y)
  }

  /** Along the panel, the end snapshot puts every item where it will be on
      the screen once the window has shrunk to the minimized size and
      `resize` has moved it to its docked place. */
  lemma LeavingEndsWhereDocked(position: Position, v: LayoutVars, distance: int, screen: Rect, frame: Rect,
                               main: int)
    ensures var d := LeavingMove(position, v, distance, screen, frame);
      var o := DockOrigin(position, screen.width, screen.height, v.minWidth, v.minHeight);
      if OrientationOf(position) == Horizontal then frame.x + main + d.x == screen.x + o.x + main
      else frame.y + main + d.y == screen.y + o.y + main
  {
  }
}
