/** The state of one dock panel (`DockPanel`) as a value, and the state
    each of the panel's operations leaves behind.

    The panel keeps its configuration (edge, visibility, which optional
    parts are shown, icon sizes), the extents `initLayoutVars` computes,
    its items, its window geometry and the state of the zoom animation.
    Every operation of the panel is a function from the state before to
    the state after; the class `DockPanels.DockPanel` runs the same
    operations with loops on its fields and is proved to reach exactly
    these states. */
module PanelState {
  import opened Arith
  import opened Icons
  import opened Programs
  import opened Items
  import opened Layout
  import opened Passes
  import opened Animation
  import opened Placement
  import opened Launchers
  import opened ItemList

  /** The appearance settings the panel reads from the dock model: the icon
      sizes and the item spacing (`minSize * spacingFactor`, taken as an
      integer). */
  datatype Appearance = Appearance(minSize: int, maxSize: int, spacing: int)
  {
    predicate Valid()
    {
      0 < minSize <= maxSize && 0 <= spacing
    }
  }

  /** What a reload reads from outside the panel: the appearance, this
      dock's launchers, and the windows the task helper lists for it. */
  datatype Snapshot = Snapshot(appearance: Appearance, launchers: seq<LauncherConfig>, tasks: seq<TaskInfo>)

  /** What `onWindowChanged` learns about a window: nothing the panel acts
      on (one of its own windows, a window that is not a task, or a
      property it ignores), a new desktop or geometry, with whether the
      window now belongs on this panel, or a new window state. */
  datatype WindowChange =
    | Ignored
    | DesktopOrGeometry(shownHere: bool)
    | StateChanged

  /** The panel's configuration: what only the settings operations change. */
  datatype Config = Config(
    position: Position,
    orientation: Orientation,
    visibility: Visibility,
    screenIndex: int,
    screen: Rect,
    showApplicationMenu: bool,
    showPager: bool,
    showClock: bool,
    showTaskManager: bool,
    desktops: nat)

  /** The state of the zoom animation and the last pointer position. */
  datatype Motion = Motion(
    isMinimized: bool,
    isEntering: bool,
    isLeaving: bool,
    isAnimationActive: bool,
    step: int,
    background: Extent,
    startBackground: Extent,
    endBackground: Extent,
    mouseX: int,
    mouseY: int)

  /** The panel: its configuration, launchers and appearance, the extents
      `initLayoutVars` computes, its items, its window and the place of
      the minimized window, and the zoom animation. */
  datatype Panel = Panel(
    config: Config,
    launchers: seq<LauncherConfig>,
    minSize: int,
    maxSize: int,
    spacing: int,
    vars: LayoutVars,
    items: seq<Item>,
    frame: Rect,
    minX: int,
    minY: int,
    motion: Motion)
  {
    /** The icon sizes make sense and the orientation is the one the edge
        gives. */
    predicate Sized()
    {
      0 < minSize <= maxSize && 0 <= spacing && config.orientation == OrientationOf(config.position)
    }

    /** The layout configuration of the panel. */
    function M(): (m: Metrics)
      requires Sized()
      ensures m.Valid() && m.orientation == config.orientation && m.position == config.position
      ensures m.minSize == minSize && m.maxSize == maxSize && m.spacing == spacing
    {
      Metrics(config.orientation, config.position, spacing, minSize, maxSize, Zoom.ParabolicMaxX(minSize, spacing))
    }

    /** The animation flags agree: a panel that is leaving is not
        minimized yet, and a running animation has ticks left. */
    predicate Steady()
    {
      (motion.isLeaving ==> !motion.isMinimized) && (motion.isAnimationActive ==> 0 <= motion.step < NumAnimationSteps)
    }

    predicate Valid()
    {
      Sized() && vars.maxX == M().maxX && vars.numAnimationSteps == NumAnimationSteps &&
      ItemsFit(items, minSize, maxSize) && Steady()
    }

    /** One item pitch: `minSize + itemSpacing`. */
    function Distance(): int
    {
      minSize + spacing
    }

    predicate IsHorizontal()
    {
      config.orientation == Horizontal
    }

    predicate AutoHide()
    {
      config.visibility == Visibility.AutoHide
    }

    predicate WindowsCanCover()
    {
      config.visibility == Visibility.WindowsCanCover
    }

    function ApplicationMenuItemCount(): (n: nat)
      ensures n <= 1 && (n == 1 <==> config.showApplicationMenu)
    {
      if config.showApplicationMenu then 1 else 0
    }

    function PagerItemCount(): (n: nat)
      ensures config.showPager ==> n == config.desktops
      ensures !config.showPager ==> n == 0
    {
      if config.showPager then config.desktops else 0
    }

    function ClockItemCount(): (n: nat)
      ensures n <= 1 && (n == 1 <==> config.showClock)
    {
      if config.showClock then 1 else 0
    }

    function LauncherItemCount(): nat
    {
      |launchers|
    }

    /** The items `reloadTasks` and `resizeTaskManager` leave in place: the
        application menu and the pager cells. */
    function KeepCount(): (n: nat)
      ensures n == ApplicationMenuItemCount() + PagerItemCount()
    {
      ApplicationMenuItemCount() + PagerItemCount()
    }

    /** The strut `setStrut()` asks for. */
    function Strut(): int
    {
      StrutWidth(config.visibility, config.orientation, vars.minWidth, vars.minHeight)
    }

    /** `applicationMenuPosition`. */
    function ApplicationMenuPosition(menuWidth: int, menuHeight: int): Point
    {
      MenuPosition(config.position, minX, minY, vars.minWidth, vars.minHeight, menuWidth, menuHeight)
    }

    /** `applicationSubMenuPosition`. */
    function ApplicationSubMenuPosition(menuHeight: int, subMenu: Rect): Point
    {
      SubMenuPosition(config.position, minY, vars.minHeight, menuHeight, subMenu)
    }
  }

  /** `isHorizontal()` holds exactly for a top or bottom panel, and
      `autoHide()` and `windowsCanCover()` each for one visibility only. */
  lemma ModeQueries(p: Panel)
    requires p.Sized()
    ensures p.IsHorizontal() <==> p.config.position == Top || p.config.position == Bottom
    ensures p.AutoHide() ==> !p.WindowsCanCover()
    ensures p.config.visibility == WindowsCanCoverQuiet ==> !p.WindowsCanCover() && !p.AutoHide()
  {
  }

  /** Two item lists of the same length whose items have the same kinds. */
  predicate SameKinds(a: seq<Item>, b: seq<Item>)
  {
    |a| == |b| && forall i :: 0 <= i < |a| ==> a[i].kind == b[i].kind
  }

  /** The window a move by `resize` gives a panel of `w` x `h`: docked
      against its edge of the screen and centred along it. */
  function DockedWindow(position: Position, screen: Rect, w: int, h: int): (r: Rect)
    ensures r.width == w && r.height == h
    ensures position == Top ==> r.y == screen.y
    ensures position == Bottom ==> r.y + h == screen.y + screen.height
    ensures position == Left ==> r.x == screen.x
    ensures position == Right ==> r.x + w == screen.x + screen.width
  {
    var o := DockOrigin(position, screen.width, screen.height, w, h);
    Rect(screen.x + o.x, screen.y + o.y, w, h)
  }

  /** The thickness of the minimized panel: one pixel under auto-hide,
      otherwise one item pitch. */
  function Thin(autoHide: bool, distance: int): (t: int)
    ensures autoHide ==> t == AutoHideSize
    ensures !autoHide ==> t == distance
  {
    if autoHide then AutoHideSize else distance
  }

  /** The background with the given length along the panel and thickness
      across it. */
  function Oriented(o: Orientation, length: int, thickness: int): (e: Extent)
    ensures Along(o, e.width, e.height) == length
    ensures Along(o, e.height, e.width) == thickness
  {
    if o == Horizontal then Extent(length, thickness) else Extent(thickness, length)
  }

  // ---------------------------------------------------------------------
  // Layout

  /** `initLayoutVars`: only the extents change. The minimized panel is as
      long as its items' minimized extents plus one spacing each, and the
      magnified panel contains it. */
  function AfterInitLayoutVars(p: Panel): (q: Panel)
    requires p.Sized() && ItemsFit(p.items, p.minSize, p.maxSize)
    ensures q == p.(vars := q.vars)
    ensures q.vars.maxX == p.M().maxX && q.vars.numAnimationSteps == NumAnimationSteps
    ensures Along(p.config.orientation, q.vars.minWidth, q.vars.minHeight) == Length(MinExtents(p.M(), p.items), p.spacing)
    ensures q.vars.minWidth <= q.vars.maxWidth && q.vars.minHeight <= q.vars.maxHeight
    ensures p.Steady() ==> q.Valid()
  {
    var len := Length(MinExtents(p.M(), p.items), p.spacing);
    MagnifiedPanelContainsMinimized(p.config.orientation, p.AutoHide(), p.minSize, p.maxSize, p.spacing, |p.items|, len);
    p.(vars := InitialVars(p.config.orientation, p.AutoHide(), p.minSize, p.maxSize, p.spacing, |p.items|, len))
  }

  /** `resize(w, h)`: the window takes the new size; a minimized panel is
      also moved against its edge; and the place of the window is
      remembered as the minimized corner when the size is the minimized
      one. */
  function AfterResize(p: Panel, w: int, h: int): (q: Panel)
    ensures q == p.(frame := q.frame, minX := q.minX, minY := q.minY)
    ensures q.frame.width == w && q.frame.height == h
    ensures p.motion.isMinimized ==> q.frame == DockedWindow(p.config.position, p.config.screen, w, h)
    ensures !p.motion.isMinimized ==> q.frame.x == p.frame.x && q.frame.y == p.frame.y
    ensures w == p.vars.minWidth && h == p.vars.minHeight ==>
      q.minX == DockedWindow(p.config.position, p.config.screen, w, h).x && q.minY == DockedWindow(p.config.position, p.config.screen, w, h).y
    ensures !(w == p.vars.minWidth && h == p.vars.minHeight) ==> q.minX == p.minX && q.minY == p.minY
  {
    var docked := DockedWindow(p.config.position, p.config.screen, w, h);
    var frame := if p.motion.isMinimized then docked else p.frame.(width := w, height := h);
    if w == p.vars.minWidth && h == p.vars.minHeight then p.(frame := frame, minX := docked.x, minY := docked.y)
    else p.(frame := frame)
  }

  /** `updateLayout()`. Outside a leave animation the items take the
      minimized layout and the window shrinks to the minimized size at its
      docked place. When leaving, every item records where it is as the
      start of the animation and, as its end, where its minimized place
      will be on the screen once the window has shrunk; the background
      runs from its current length to the minimized one. */
  function AfterUpdateLayout(p: Panel): (q: Panel)
    requires p.Valid()
    ensures q.Valid()
    ensures q.config == p.config && q.launchers == p.launchers && q.vars == p.vars
    ensures q.motion.isEntering == p.motion.isEntering && q.motion.isLeaving == p.motion.isLeaving
    ensures q.motion.mouseX == p.motion.mouseX && q.motion.mouseY == p.motion.mouseY
    ensures SameKinds(p.items, q.items)
    ensures !p.motion.isLeaving ==>
      q.motion.isMinimized && q.items == Minimized(p.M(), p.items) &&
      q.frame == DockedWindow(p.config.position, p.config.screen, p.vars.minWidth, p.vars.minHeight) &&
      q.minX == q.frame.x && q.minY == q.frame.y &&
      q.motion.isAnimationActive == p.motion.isAnimationActive && q.motion.step == p.motion.step
    ensures p.motion.isLeaving ==>
      q.motion.isAnimationActive && q.motion.step == 0 && q.motion.background == q.motion.startBackground &&
      q.motion.isMinimized == p.motion.isMinimized && q.frame == p.frame &&
      Along(p.config.orientation, q.motion.endBackground.width, q.motion.endBackground.height) ==
        Along(p.config.orientation, p.vars.minWidth, p.vars.minHeight) &&
      forall i :: 0 <= i < |q.items| ==> q.items[i].start == p.items[i].geom
  {
    var m, d, o, v := p.M(), p.Distance(), p.config.orientation, p.vars;
    if p.motion.isLeaving then
      var startBg := if |p.items| == 0 then p.motion.startBackground
                     else Oriented(o, Along(o, p.motion.background.width, p.motion.background.height), d);
      p.(items := LeavingItems(p),
         motion := p.motion.(startBackground := startBg,
                             endBackground := Oriented(o, Along(o, v.minWidth, v.minHeight), Thin(p.AutoHide(), d)),
                             background := startBg, step := 0, isAnimationActive := true))
    else
      var laid := p.(items := Minimized(m, p.items),
                     motion := p.motion.(background := Oriented(o, Along(o, v.minWidth, v.minHeight), d),
                                         isMinimized := true));
      AfterResize(laid, v.minWidth, v.minHeight)
  }

  /** The items when the leave animation starts: each starts where it
      is and ends at its minimized place, moved to where that place will
      be on the screen once the window has shrunk and been docked. */
  function LeavingItems(p: Panel): (r: seq<Item>)
    requires p.Valid()
    ensures SameKinds(p.items, r) && ItemsFit(r, p.minSize, p.maxSize)
    ensures forall i :: 0 <= i < |r| ==> r[i].start == p.items[i].geom
  {
    var started := StartsAt(p.items, 0, 0);
    SnapshotsKeepTables(p.items, 0, 0, 0, 1, p.minSize, p.maxSize);
    var laid := Minimized(p.M(), started);
    var mv := LeavingMove(p.config.position, p.vars, p.Distance(), p.config.screen, p.frame);
    SnapshotsKeepTables(laid, mv.x, mv.y, 0, 1, p.minSize, p.maxSize);
    EndsAt(laid, mv.x, mv.y)
  }

  /** The pointer coordinate along the panel shifted into the coordinates
      of the minimized layout, which is centred in the current window. */
  function PointerShift(p: Panel): int
  {
    CDiv(Along(p.config.orientation, p.frame.width, p.frame.height) -
         Along(p.config.orientation, p.vars.minWidth, p.vars.minHeight), 2)
  }

  /** `updateLayout(x, y)`: the items take the zoomed layout for the
      pointer at `(x, y)` and the window grows to the magnified size; when
      the pointer has just entered, the zoom is animated. */
  function AfterUpdateLayoutAt(p: Panel, x: int, y: int): (q: Panel)
    requires p.Valid() && |p.items| > 0
    ensures q.Valid() && SameKinds(p.items, q.items)
    ensures q.config == p.config && q.launchers == p.launchers && q.vars == p.vars
    ensures !q.motion.isMinimized && !q.motion.isEntering && q.motion.isLeaving == p.motion.isLeaving
    ensures q.frame.width == p.vars.maxWidth && q.frame.height == p.vars.maxHeight
  {
    if p.motion.isEntering then AfterEnteringLayout(p, x, y) else AfterZoomLayout(p, x, y)
  }

  /** `updateLayout(x, y)` without an animation: the items take the zoomed
      layout for the pointer, which is remembered, and the window grows to
      the magnified size. */
  function AfterZoomLayout(p: Panel, x: int, y: int): (q: Panel)
    requires p.Valid() && |p.items| > 0
    ensures q.Valid() && SameKinds(p.items, q.items)
    ensures q.config == p.config && q.launchers == p.launchers && q.vars == p.vars
    ensures !q.motion.isMinimized && q.motion.isEntering == p.motion.isEntering && q.motion.isLeaving == p.motion.isLeaving
    ensures q.frame.width == p.vars.maxWidth && q.frame.height == p.vars.maxHeight
    ensures q.motion.mouseX == x && q.motion.mouseY == y && q.motion.isAnimationActive == p.motion.isAnimationActive && q.motion.step == p.motion.step
    ensures q.motion.background == p.motion.background && q.items == ZoomedFor(p, x, y)
  {
    Unminimized(AfterResize(p.(items := ZoomedFor(p, x, y), motion := p.motion.(mouseX := x, mouseY := y)),
                            p.vars.maxWidth, p.vars.maxHeight))
  }

  /** `updateLayout(x, y)` when the pointer has just entered: every item
      records where it was, moved into the magnified window, as the start
      of the animation, and its zoomed place as the end; the background
      runs from the minimized extent to the magnified one; the pointer is
      moved into the magnified window along the panel. */
  function AfterEnteringLayout(p: Panel, x: int, y: int): (q: Panel)
    requires p.Valid() && |p.items| > 0
    ensures q.Valid() && SameKinds(p.items, q.items)
    ensures q.config == p.config && q.launchers == p.launchers && q.vars == p.vars
    ensures !q.motion.isMinimized && !q.motion.isEntering && q.motion.isLeaving == p.motion.isLeaving
    ensures q.frame.width == p.vars.maxWidth && q.frame.height == p.vars.maxHeight
    ensures q.motion.isAnimationActive && q.motion.step == 0 && q.motion.background == q.motion.startBackground
    ensures Along(p.config.orientation, q.motion.startBackground.width, q.motion.startBackground.height) ==
      Along(p.config.orientation, p.vars.minWidth, p.vars.minHeight)
    ensures Along(p.config.orientation, q.motion.endBackground.width, q.motion.endBackground.height) ==
      Along(p.config.orientation, p.vars.maxWidth, p.vars.maxHeight)
    ensures q.items == EnteringItems(p, x, y)
  {
    Unminimized(AfterResize(p.(items := EnteringItems(p, x, y), motion := EnteredMotion(p, x, y)),
                            p.vars.maxWidth, p.vars.maxHeight))
  }

  /** The animation state when the pointer has just entered at `(x, y)`:
      the background runs from the minimized extent to the magnified one
      from the first tick, and the pointer is moved into the magnified
      window along the panel. */
  function EnteredMotion(p: Panel, x: int, y: int): (mo: Motion)
    ensures mo.isAnimationActive && mo.step == 0 && !mo.isEntering && mo.background == mo.startBackground
    ensures mo.isMinimized == p.motion.isMinimized && mo.isLeaving == p.motion.isLeaving
    ensures Along(p.config.orientation, mo.startBackground.width, mo.startBackground.height) ==
      Along(p.config.orientation, p.vars.minWidth, p.vars.minHeight)
    ensures Along(p.config.orientation, mo.endBackground.width, mo.endBackground.height) == MaxLength(p)
  {
    p.motion.(startBackground := EnteringBackground(p), endBackground := Oriented(p.config.orientation, MaxLength(p), p.Distance()),
              background := EnteringBackground(p),
              mouseX := if p.config.orientation == Horizontal then x + CDiv(p.vars.maxWidth - p.vars.minWidth, 2)
                        else p.motion.mouseX,
              mouseY := if p.config.orientation == Vertical then y + CDiv(p.vars.maxHeight - p.vars.minHeight, 2)
                        else p.motion.mouseY,
              step := 0, isAnimationActive := true, isEntering := false)
  }

  /** The background when the enter animation starts: the minimized one. */
  function EnteringBackground(p: Panel): Extent
  {
    Oriented(p.config.orientation, Along(p.config.orientation, p.vars.minWidth, p.vars.minHeight),
             Thin(p.AutoHide(), p.Distance()))
  }

  /** The panel once zoomed: no longer minimized. */
  function Unminimized(p: Panel): (q: Panel)
    ensures !q.motion.isMinimized && q == p.(motion := q.motion)
  {
    p.(motion := p.motion.(isMinimized := false))
  }

  /** The zoomed layout of the panel's items for the pointer at `(x, y)`. */
  function ZoomedFor(p: Panel, x: int, y: int): (r: seq<Item>)
    requires p.Valid() && |p.items| > 0
    ensures SameKinds(p.items, r) && ItemsFit(r, p.minSize, p.maxSize)
  {
    var m, o, v := p.M(), p.config.orientation, p.vars;
    var maxLength := Along(o, v.maxWidth, v.maxHeight);
    var pointer := Along(o, x, y);
    var shift := PointerShift(p);
    ZoomedKinds(m, p.items, pointer, shift, maxLength);
    Zoomed(m, p.items, pointer, shift, maxLength)
  }

  /** The items when the pointer has just entered: each starts where it
      was, moved into the magnified window, and ends at its zoomed place,
      where it is laid out. */
  function EnteringItems(p: Panel, x: int, y: int): (r: seq<Item>)
    requires p.Valid() && |p.items| > 0
    ensures SameKinds(p.items, r) && ItemsFit(r, p.minSize, p.maxSize)
    ensures forall i :: 0 <= i < |r| ==> r[i].end == r[i].geom
    ensures forall i :: 0 <= i < |r| ==> r[i].start.size == p.items[i].geom.size
  {
    var m, d, o, v := p.M(), p.Distance(), p.config.orientation, p.vars;
    var maxLength := Along(o, v.maxWidth, v.maxHeight);
    var pointer := Along(o, x, y);
    var shift := PointerShift(p);
    var mv := EnteringMove(p.config.position, v, d);
    var started := StartsAt(p.items, mv.x, mv.y);
    SnapshotsKeepTables(p.items, mv.x, mv.y, 0, 1, p.minSize, p.maxSize);
    SnapshotKinds(p.items, mv.x, mv.y, 0, 1);
    var zoomed := Zoomed(m, started, pointer, shift, maxLength);
    ZoomedKinds(m, started, pointer, shift, maxLength);
    var ended := EndsAt(zoomed, 0, 0);
    SnapshotsKeepTables(zoomed, 0, 0, 0, 1, p.minSize, p.maxSize);
    SnapshotKinds(zoomed, 0, 0, 0, 1);
    ended
  }

  /** Taking snapshots or stepping the animation keeps the items' kinds. */
  lemma SnapshotKinds(items: seq<Item>, dx: int, dy: int, k: int, n: int)
    requires n > 0
    ensures SameKinds(items, StartsAt(items, dx, dy)) && SameKinds(items, EndsAt(items, dx, dy))
    ensures SameKinds(items, Stepped(items, k, n))
  {
  }

  /** The zoomed layout keeps the items' kinds and icon tables. */
  lemma ZoomedKinds(m: Metrics, items: seq<Item>, pointer: int, shift: int, maxLength: int)
    requires m.Valid() && ItemsFit(items, m.minSize, m.maxSize) && |items| > 0
    ensures var r := Zoomed(m, items, pointer, shift, maxLength);
      SameKinds(items, r) && ItemsFit(r, m.minSize, m.maxSize)
  {
  }

  /** The background after tick `k` of `n`. */
  function BackgroundAt(start: Extent, end: Extent, k: int, n: int): (e: Extent)
    requires n > 0
    ensures k == n ==> e == end
    ensures 0 <= k <= n ==> Min(start.width, end.width) <= e.width <= Max(start.width, end.width)
    ensures 0 <= k <= n ==> Min(start.height, end.height) <= e.height <= Max(start.height, end.height)
  {
    Extent(Interpolate(start.width, end.width, k, n), Interpolate(start.height, end.height, k, n))
  }

  /** `updateAnimation`, one tick of the timer: every item and the
      background move one step from their start toward their end, never
      past it. At the last tick they are exactly at the end, the animation
      stops and, after leaving, the panel takes the minimized layout. */
  function AfterTick(p: Panel): (q: Panel)
    requires p.Valid() && p.motion.isAnimationActive
    ensures q.Valid()
    ensures q.motion.step == p.motion.step + 1 && q.config == p.config && q.vars == p.vars
    ensures SameKinds(p.items, q.items)
    ensures q.motion.step < NumAnimationSteps ==>
      q.motion.isAnimationActive && q.motion.isLeaving == p.motion.isLeaving && q.frame == p.frame &&
      q.items == Stepped(p.items, q.motion.step, NumAnimationSteps) &&
      q.motion.background == BackgroundAt(p.motion.startBackground, p.motion.endBackground, q.motion.step, NumAnimationSteps)
    ensures q.motion.step == NumAnimationSteps ==> !q.motion.isAnimationActive && !q.motion.isLeaving
    ensures q.motion.step == NumAnimationSteps && !p.motion.isLeaving ==>
      q.motion.background == p.motion.endBackground && q.frame == p.frame &&
      forall i :: 0 <= i < |q.items| ==> q.items[i].geom == p.items[i].end
    ensures q.motion.step == NumAnimationSteps && p.motion.isLeaving ==>
      q.motion.isMinimized && q.items == Minimized(p.M(), Stepped(p.items, q.motion.step, NumAnimationSteps)) &&
      q.frame == DockedWindow(p.config.position, p.config.screen, p.vars.minWidth, p.vars.minHeight)
  {
    var n := p.vars.numAnimationSteps;
    var k := p.motion.step + 1;
    SnapshotsKeepTables(p.items, 0, 0, k, n, p.minSize, p.maxSize);
    var moved := p.motion.(step := k, background := BackgroundAt(p.motion.startBackground, p.motion.endBackground, k, n));
    var stepped := Stepped(p.items, k, n);
    if k < n then p.(items := stepped, motion := moved)
    else if p.motion.isLeaving then
      AfterUpdateLayout(p.(items := stepped, motion := moved.(isAnimationActive := false, isLeaving := false)))
    else p.(items := stepped, motion := moved.(isAnimationActive := false))
  }

  /** `mouseMoveEvent`: while the animation runs, or when the pointer has
      just entered a panel that does not auto-hide through its inner
      border, nothing changes; otherwise the panel zooms for the pointer,
      and the first such move after entering starts the zoom-in. */
  function AfterMouseMove(p: Panel, x: int, y: int): (q: Panel)
    requires p.Valid() && |p.items| > 0
    ensures q.Valid()
    ensures p.motion.isAnimationActive ==> q == p
    ensures (p.motion.isEntering && !p.AutoHide() &&
             InnerDistance(p.config.position, x, y, p.frame.width, p.frame.height) < p.spacing / 2) ==> q == p
    ensures !p.motion.isAnimationActive && !p.motion.isEntering ==> q == AfterUpdateLayoutAt(p, x, y)
    ensures (!p.motion.isAnimationActive &&
             (p.AutoHide() || InnerDistance(p.config.position, x, y, p.frame.width, p.frame.height) >= p.spacing / 2)) ==>
      q == AfterUpdateLayoutAt(p, x, y)
    ensures (!p.motion.isAnimationActive && p.motion.isEntering &&
             (p.AutoHide() || InnerDistance(p.config.position, x, y, p.frame.width, p.frame.height) >= p.spacing / 2)) ==>
      q == AfterEnteringLayout(p, x, y)
  {
    if (p.motion.isEntering && !p.AutoHide() && NearInnerBorder(p.config.position, x, y, p.frame.width, p.frame.height, p.spacing))
       || p.motion.isAnimationActive
    then p
    else AfterUpdateLayoutAt(p, x, y)
  }

  /** `enterEvent`: only the entering flag is set. */
  function AfterEnter(p: Panel): (q: Panel)
    ensures q.motion.isEntering && q == p.(motion := p.motion.(isEntering := true))
  {
    p.(motion := p.motion.(isEntering := true))
  }

  /** `leaveEvent`: a minimized panel stays as it is; otherwise the leave
      animation starts toward the minimized layout. */
  function AfterLeave(p: Panel): (q: Panel)
    requires p.Valid()
    ensures q.Valid()
    ensures p.motion.isMinimized ==> q == p
    ensures !p.motion.isMinimized ==> q.motion.isLeaving && q.motion.isAnimationActive && q.motion.step == 0 && q.frame == p.frame
  {
    if p.motion.isMinimized then p else AfterUpdateLayout(p.(motion := p.motion.(isLeaving := true)))
  }

  /** `resizeTaskManager`, after the item list changed: the extents are
      recomputed; a minimized panel takes the minimized layout and a zoomed
      one the resized layout. */
  function AfterResizeTaskManager(p: Panel): (q: Panel)
    requires p.Valid()
    ensures q.Valid() && SameKinds(p.items, q.items)
    ensures q.config == p.config && q.launchers == p.launchers
    ensures q.vars == AfterInitLayoutVars(p).vars
    ensures q.motion.isLeaving == p.motion.isLeaving && q.motion.isEntering == p.motion.isEntering && q.motion.isMinimized == p.motion.isMinimized
    ensures p.motion.isMinimized ==> q.items == Minimized(p.M(), p.items)
  {
    var laid := AfterInitLayoutVars(p);
    if laid.motion.isMinimized then AfterUpdateLayout(laid) else AfterResizeZoomed(laid)
  }

  /** `resizeTaskManager` on a zoomed panel whose extents are already
      recomputed: the window and the background grow to the new magnified
      extent, and every item after the application menu and the pager
      cells, which stay as they are, is laid out again for the last
      pointer position. */
  function AfterResizeZoomed(p: Panel): (q: Panel)
    requires p.Valid()
    ensures q.Valid() && SameKinds(p.items, q.items)
    ensures q == p.(frame := q.frame, items := q.items, motion := p.motion.(background := q.motion.background))
    ensures q.frame.width == p.vars.maxWidth && q.frame.height == p.vars.maxHeight
    ensures q.frame.x == p.frame.x && q.frame.y == p.frame.y
    ensures Along(p.config.orientation, q.motion.background.width, q.motion.background.height) ==
      Along(p.config.orientation, p.vars.maxWidth, p.vars.maxHeight)
    ensures Along(p.config.orientation, q.motion.background.height, q.motion.background.width) ==
      Along(p.config.orientation, p.motion.background.height, p.motion.background.width)
    ensures forall j :: 0 <= j < p.KeepCount() && j < |p.items| ==> q.items[j] == p.items[j]
  {
    p.(frame := p.frame.(width := p.vars.maxWidth, height := p.vars.maxHeight), items := ResizedFor(p),
       motion := p.motion.(background := GrownBackground(p)))
  }

  /** The background of a zoomed panel whose extents were recomputed: its
      length along the panel becomes the magnified one, its thickness
      stays. */
  function GrownBackground(p: Panel): (e: Extent)
    ensures Along(p.config.orientation, e.width, e.height) == MaxLength(p)
    ensures Along(p.config.orientation, e.height, e.width) ==
      Along(p.config.orientation, p.motion.background.height, p.motion.background.width)
  {
    if p.config.orientation == Horizontal then p.motion.background.(width := p.vars.maxWidth)
    else p.motion.background.(height := p.vars.maxHeight)
  }

  /** The resized layout of the panel's items for the last pointer
      position: the application menu and the pager cells are kept. */
  function ResizedFor(p: Panel): (r: seq<Item>)
    requires p.Valid()
    ensures SameKinds(p.items, r) && ItemsFit(r, p.minSize, p.maxSize)
    ensures forall j :: 0 <= j < p.KeepCount() && j < |p.items| ==> r[j] == p.items[j]
  {
    ResizedKinds(p.M(), p.items, p.KeepCount(), PanelPointer(p), ResizeShift(p), MaxLength(p));
    Resized(p.M(), p.items, p.KeepCount(), PanelPointer(p), ResizeShift(p), MaxLength(p))
  }

  function MaxLength(p: Panel): int
  {
    Along(p.config.orientation, p.vars.maxWidth, p.vars.maxHeight)
  }

  function ResizeShift(p: Panel): int
  {
    CDiv(MaxLength(p) - Along(p.config.orientation, p.vars.minWidth, p.vars.minHeight), 2)
  }

  function PanelPointer(p: Panel): int
  {
    Along(p.config.orientation, p.motion.mouseX, p.motion.mouseY)
  }

  /** The resize pass keeps the kinds of all items and the kept items
      whole. */
  lemma ResizedKinds(m: Metrics, items: seq<Item>, keep: int, pointer: int, shift: int, maxLength: int)
    requires m.Valid() && ItemsFit(items, m.minSize, m.maxSize) && keep >= 0
    ensures var r := Resized(m, items, keep, pointer, shift, maxLength);
      SameKinds(items, r) && ItemsFit(r, m.minSize, m.maxSize) &&
      forall j :: 0 <= j < keep && j < |items| ==> r[j] == items[j]
  {
    var rc := Recentred(m, items, keep);
    var ds := Distances(rc, pointer, shift);
    var sizes := ZoomSizes(m, ds);
    var base := if keep < |rc| then ResizeBase(m, rc, keep) else 0;
    var last := LastUpdateIndex(ds, m.maxX, keep);
    ResizedKeeps(m, rc, sizes, keep, base, last, maxLength);
  }
}
