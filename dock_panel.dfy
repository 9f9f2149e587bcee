/** `DockPanel`, the window of one dock: its fields are updated in place by
    the layout passes, the zoom animation, the window handlers and the
    reloads. The configuration and the animation state are each kept in
    one record-valued field. Every method is proved to leave the panel in the state the
    matching transition of `PanelState` or `PanelItems` gives, so what is
    proved about the transitions holds of the class. */
module DockPanels {
  import opened Arith
  import opened Programs
  import opened Items
  import opened Layout
  import opened Passes
  import opened Animation
  import opened Placement
  import opened Launchers
  import opened ItemList
  import opened MultiDock
  import opened PanelState
  import opened PanelItems

  /** The item pipeline of `updateLayout(x, y)` when the pointer has just
      entered: the start snapshots, the zoomed layout and the end
      snapshots, each a loop over the items. */
  method EnteringPass(p: Panel, x: int, y: int) returns (r: seq<Item>)
    requires p.Valid() && |p.items| > 0
    ensures r == EnteringItems(p, x, y)
  {
    var m, d, o, v := p.M(), p.Distance(), p.config.orientation, p.vars;
    var mv := EnteringMove(p.config.position, v, d);
    var started := SetStarts(p.items, mv.x, mv.y);
    SnapshotsKeepTables(p.items, mv.x, mv.y, 0, 1, p.minSize, p.maxSize);
    var zoomed := ZoomedPass(m, started, Along(o, x, y), PointerShift(p), Along(o, v.maxWidth, v.maxHeight));
    r := SetEnds(zoomed, 0, 0);
  }

  /** The item pipeline of `updateLayout()` when leaving: the start
      snapshots, the minimized layout and the end snapshots. */
  method LeavingPass(p: Panel) returns (r: seq<Item>)
    requires p.Valid()
    ensures r == LeavingItems(p)
  {
    var started := SetStarts(p.items, 0, 0);
    SnapshotsKeepTables(p.items, 0, 0, 0, 1, p.minSize, p.maxSize);
    var laid := MinimizedPass(p.M(), started);
    var mv := LeavingMove(p.config.position, p.vars, p.Distance(), p.config.screen, p.frame);
    r := SetEnds(laid, mv.x, mv.y);
  }

  /** The item pipeline of `resizeTaskManager` on a zoomed panel: the
      resize pass for the last pointer position, keeping the application
      menu and the pager cells. */
  method ResizedPass(p: Panel) returns (r: seq<Item>)
    requires p.Valid()
    ensures r == ResizedFor(p)
  {
    r := ResizePass(p.M(), p.items, p.KeepCount(), PanelPointer(p), ResizeShift(p), MaxLength(p));
  }

  /** The loop of `initPager`: one cell per desktop, numbered from 1,
      appended in order. */
  method InitPager(env: Env, items: seq<Item>, desktops: nat, minSize: int, maxSize: int) returns (r: seq<Item>)
    requires minSize <= maxSize
    ensures r == items + PagerCells(env, desktops, minSize, maxSize)
  {
    r := items;
    var desktop := 1;
    while desktop <= desktops
      invariant 1 <= desktop <= desktops + 1
      invariant r == items + PagerCells(env, desktop - 1, minSize, maxSize)
    {
      PagerCellsGrow(env, desktop - 1, minSize, maxSize);
      r := r + [NewItem(Pager(desktop), env.pixmapOf, minSize, maxSize)];
      desktop := desktop + 1;
    }
  }

  /** One more desktop adds its cell at the end. */
  lemma PagerCellsGrow(env: Env, n: nat, minSize: int, maxSize: int)
    requires minSize <= maxSize
    ensures PagerCells(env, n + 1, minSize, maxSize) ==
      PagerCells(env, n, minSize, maxSize) + [NewItem(Pager(n + 1), env.pixmapOf, minSize, maxSize)]
  {
    var a, b := PagerCells(env, n + 1, minSize, maxSize), PagerCells(env, n, minSize, maxSize);
    assert forall j :: 0 <= j < n ==> a[j] == b[j];
  }

  /** The items `initUi` builds, each part by its own loop: the
      application menu, the pager cells, the launchers, the windows and
      the clock. */
  method InitialItemsPass(env: Env, p: Panel, tasks: seq<TaskInfo>) returns (r: seq<Item>)
    requires p.Sized() && ItemsFit(p.items, p.minSize, p.maxSize)
    ensures r == InitialItems(env, p, tasks)
  {
    var c := p.config;
    r := p.items;
    if c.showApplicationMenu {
      r := r + [NewItem(ApplicationMenu, env.pixmapOf, p.minSize, p.maxSize)];
    }
    if c.showPager {
      r := InitPager(env, r, c.desktops, p.minSize, p.maxSize);
    }
    var head := r;
    assert head == p.items + HeadItems(env, p) && head[..|head|] == head;
    r := InitLaunchers(env, p.minSize, p.maxSize, r, p.launchers);
    assert r == ReloadBase(env, p.minSize, p.maxSize, head, |head|, p.launchers);
    var offered := if c.showTaskManager then tasks else [];
    if c.showTaskManager {
      r := InitTasks(env, p.minSize, p.maxSize, r, tasks);
    }
    assert r == TasksAdded(env, p.minSize, p.maxSize, ReloadBase(env, p.minSize, p.maxSize, head, |head|, p.launchers), offered);
    if c.showClock {
      r := r + [NewItem(Clock, env.pixmapOf, p.minSize, p.maxSize)];
    }
    assert r == Reloaded(env, p.minSize, p.maxSize, head, |head|, p.launchers, offered, c.showClock);
  }

  class DockPanel {
    /** What the item list asks of the rest of the system. */
    const env: Env
    /** The dock this panel shows. */
    const dockId: int

    /** Edge, visibility, screen, the optional parts shown and the number
        of desktops. */
    var config: Config
    var launchers: seq<LauncherConfig>
    var minSize: int
    var maxSize: int
    var spacing: int
    var vars: LayoutVars
    var items: seq<Item>
    var frame: Rect
    var minX: int
    var minY: int
    /** The zoom animation and the last pointer position. */
    var motion: Motion

    /** The fields as one value. */
    function State(): Panel
      reads this
    {
      Panel(config, launchers, minSize, maxSize, spacing, vars, items, frame, minX, minY, motion)
    }

    /** The constructor: the dock's settings and the appearance are read,
        then `initUi` builds the items and lays them out. */
    constructor(env: Env, dockId: int, settings: DockSettings, screen: Rect, desktops: nat, now: Snapshot)
      requires now.appearance.Valid()
      ensures this.env == env && this.dockId == dockId
      ensures State() == AfterInitUi(env, Loaded(settings, screen, desktops, now), now.tasks)
    {
      var a := now.appearance;
      var none := Extent(0, 0);
      this.env := env;
      this.dockId := dockId;
      config := Config(settings.position, OrientationOf(settings.position), settings.visibility, settings.screen,
                       screen, settings.showApplicationMenu, settings.showPager, settings.showClock,
                       settings.showTaskManager, desktops);
      launchers := now.launchers;
      minSize, maxSize, spacing := a.minSize, a.maxSize, a.spacing;
      vars := LayoutVars(0, 0, 0, 0, 0, NumAnimationSteps, AnimationSpeed);
      items, frame, minX, minY := [], Rect(0, 0, 0, 0), 0, 0;
      motion := Motion(true, false, false, false, 0, none, none, none, 0, 0);
      new;
      InitUi(now.tasks);
    }

    // -------------------------------------------------------------------
    // Layout

    /** `initLayoutVars`. */
    method InitLayoutVars()
      requires State().Sized() && ItemsFit(items, minSize, maxSize)
      modifies this
      ensures State() == AfterInitLayoutVars(old(State()))
    {
      var len := MinLength(State().M(), items);
      vars := InitialVars(config.orientation, config.visibility == Visibility.AutoHide, minSize, maxSize, spacing,
                          |items|, len);
    }

    /** `resize(w, h)`. */
    method Resize(w: int, h: int)
      modifies this
      ensures State() == AfterResize(old(State()), w, h)
    {
      var docked := DockedWindow(config.position, config.screen, w, h);
      if motion.isMinimized {
        frame := docked;
      } else {
        frame := frame.(width := w, height := h);
      }
      if w == vars.minWidth && h == vars.minHeight {
        minX, minY := docked.x, docked.y;
      }
    }

    /** `updateLayout()`. */
    method UpdateLayout()
      requires State().Valid()
      modifies this
      ensures State() == AfterUpdateLayout(old(State()))
    {
      var o, d, v := config.orientation, minSize + spacing, vars;
      if motion.isLeaving {
        var startBg := if |items| == 0 then motion.startBackground
                       else Oriented(o, Along(o, motion.background.width, motion.background.height), d);
        items := LeavingPass(State());
        motion := motion.(startBackground := startBg,
                          endBackground := Oriented(o, Along(o, v.minWidth, v.minHeight),
                                                    Thin(config.visibility == Visibility.AutoHide, d)),
                          background := startBg, step := 0, isAnimationActive := true);
      } else {
        items := MinimizedPass(State().M(), items);
        motion := motion.(background := Oriented(o, Along(o, v.minWidth, v.minHeight), d), isMinimized := true);
        Resize(v.minWidth, v.minHeight);
      }
    }

    /** `updateLayout(x, y)`. */
    method UpdateLayoutAt(x: int, y: int)
      requires State().Valid() && |items| > 0
      modifies this
      ensures State() == AfterUpdateLayoutAt(old(State()), x, y)
    {
      if motion.isEntering {
        EnteringLayout(x, y);
      } else {
        ZoomLayout(x, y);
      }
    }

    /** `updateLayout(x, y)` when the pointer has just entered. */
    method EnteringLayout(x: int, y: int)
      requires State().Valid() && |items| > 0
      modifies this
      ensures State() == AfterEnteringLayout(old(State()), x, y)
    {
      var p := State();
      items := EnteringPass(p, x, y);
      motion := EnteredMotion(p, x, y);
      Resize(vars.maxWidth, vars.maxHeight);
      motion := motion.(isMinimized := false);
    }

    /** `updateLayout(x, y)` without an animation. */
    method ZoomLayout(x: int, y: int)
      requires State().Valid() && |items| > 0
      modifies this
      ensures State() == AfterZoomLayout(old(State()), x, y)
    {
      var p := State();
      var o, v := config.orientation, vars;
      items := ZoomedPass(p.M(), items, Along(o, x, y), PointerShift(p), Along(o, v.maxWidth, v.maxHeight));
      motion := motion.(mouseX := x, mouseY := y);
      Resize(v.maxWidth, v.maxHeight);
      motion := motion.(isMinimized := false);
    }

    /** `updateAnimation`, one tick of the animation timer. */
    method Tick()
      requires State().Valid() && motion.isAnimationActive
      modifies this
      ensures State() == AfterTick(old(State()))
    {
      var n, k := vars.numAnimationSteps, motion.step + 1;
      SnapshotsKeepTables(items, 0, 0, k, n, minSize, maxSize);
      items := StepAll(items, k, n);
      motion := motion.(step := k, background := BackgroundAt(motion.startBackground, motion.endBackground, k, n));
      if k == n {
        if motion.isLeaving {
          motion := motion.(isAnimationActive := false, isLeaving := false);
          UpdateLayout();
        } else {
          motion := motion.(isAnimationActive := false);
        }
      }
    }

    /** `mouseMoveEvent`. */
    method MouseMove(x: int, y: int)
      requires State().Valid() && |items| > 0
      modifies this
      ensures State() == AfterMouseMove(old(State()), x, y)
    {
      if motion.isEntering && config.visibility != Visibility.AutoHide &&
         NearInnerBorder(config.position, x, y, frame.width, frame.height, spacing) {
        return;
      }
      if motion.isAnimationActive {
        return;
      }
      UpdateLayoutAt(x, y);
    }

    /** `mousePressEvent`: the index of the item under the pointer, which
        receives the press, or -1 when no item does: while the animation
        runs, or when the pointer is before the first item. The press
        itself goes to the item's own code, which is not part of this
        model. */
    method MousePress(x: int, y: int) returns (i: int)
      ensures -1 <= i < |items|
      ensures motion.isAnimationActive ==> i == -1
      ensures !motion.isAnimationActive && |items| > 0 && i == -1 ==>
        Main(config.orientation, items[0].geom) >= Along(config.orientation, x, y)
      ensures 0 <= i ==>
        Main(config.orientation, items[i].geom) < Along(config.orientation, x, y) &&
        (i + 1 < |items| ==> Main(config.orientation, items[i + 1].geom) >= Along(config.orientation, x, y))
    {
      if motion.isAnimationActive {
        return -1;
      }
      i := FindActiveItem(config.orientation, items, x, y);
    }

    /** `enterEvent`. */
    method Enter()
      modifies this
      ensures State() == AfterEnter(old(State()))
    {
      motion := motion.(isEntering := true);
    }

    /** `leaveEvent`. */
    method Leave()
      requires State().Valid()
      modifies this
      ensures State() == AfterLeave(old(State()))
    {
      if motion.isMinimized {
        return;
      }
      motion := motion.(isLeaving := true);
      UpdateLayout();
    }

    /** `resizeTaskManager`. */
    method ResizeTaskManager()
      requires State().Valid()
      modifies this
      ensures State() == AfterResizeTaskManager(old(State()))
    {
      InitLayoutVars();
      if motion.isMinimized {
        UpdateLayout();
      } else {
        ResizeZoomed();
      }
    }

    /** `resizeTaskManager` on a zoomed panel, once the extents are
        recomputed. */
    method ResizeZoomed()
      requires State().Valid()
      modifies this
      ensures State() == AfterResizeZoomed(old(State()))
    {
      var p := State();
      items := ResizedPass(p);
      frame := frame.(width := vars.maxWidth, height := vars.maxHeight);
      motion := motion.(background := GrownBackground(p));
    }

    // -------------------------------------------------------------------
    // Item list

    /** `addTask`. */
    method AddTask(task: TaskInfo)
      requires State().Valid()
      modifies this
      ensures State() == AfterAddTask(env, old(State()), task)
    {
      items := ItemList.AddTask(env, minSize, maxSize, items, task);
    }

    /** `onWindowAdded`; whether the task helper accepts the window for
        this screen is a parameter. */
    method WindowAdded(task: TaskInfo, isValidTask: bool)
      requires State().Valid()
      modifies this
      ensures State() == AfterWindowAdded(env, old(State()), task, isValidTask)
    {
      if !config.showTaskManager {
        return;
      }
      if isValidTask {
        AddTask(task);
        ResizeTaskManager();
      }
    }

    /** `removeTask`. */
    method RemoveTask(w: WId)
      requires State().Valid()
      modifies this
      ensures State() == AfterRemoveTask(old(State()), w)
    {
      var erased, r := ItemList.RemoveTask(items, w);
      TaskRemovedFits(items, w, minSize, maxSize);
      items := r;
      if erased {
        ResizeTaskManager();
      }
    }

    /** `onWindowRemoved`. */
    method WindowRemoved(w: WId)
      requires State().Valid()
      modifies this
      ensures State() == AfterWindowRemoved(old(State()), w)
    {
      if !config.showTaskManager {
        return;
      }
      RemoveTask(w);
    }

    /** `updateTask`; the window's new state is a parameter. */
    method UpdateTask(task: TaskInfo)
      requires State().Valid()
      modifies this
      ensures State() == AfterUpdateTask(env, old(State()), task)
    {
      TaskUpdatedKeepsWindows(env, items, task, task.wId);
      items := ItemList.UpdateTask(env, items, task);
    }

    /** `onWindowChanged`; what the task helper reports about the window
        is a parameter. */
    method WindowChanged(task: TaskInfo, change: WindowChange)
      requires State().Valid()
      modifies this
      ensures State() == AfterWindowChanged(env, old(State()), task, change)
    {
      if !config.showTaskManager {
        return;
      }
      match change
      case Ignored =>
      case DesktopOrGeometry(shownHere) =>
        if shownHere {
          WindowAdded(task, true);
        } else {
          WindowRemoved(task.wId);
        }
      case StateChanged =>
        UpdateTask(task);
    }

    /** `refresh`. */
    method Refresh()
      requires State().Valid()
      modifies this
      ensures State() == AfterRefresh(old(State()))
    {
      var erased, r := ItemList.Refresh(items);
      if erased {
        RefreshedKeepsWindows(items, 0, minSize, maxSize);
        items := r;
        ResizeTaskManager();
      }
    }

    // -------------------------------------------------------------------
    // Reloads

    /** `reloadTasks`; the windows the task helper lists are a
        parameter. */
    method ReloadTasks(tasks: seq<TaskInfo>)
      requires State().Valid() && State().KeepCount() <= |items|
      modifies this
      ensures State() == AfterReloadTasks(env, old(State()), tasks)
    {
      if !config.showTaskManager {
        return;
      }
      var keep := State().KeepCount();
      ReloadedFits(env, minSize, maxSize, items, keep, launchers, tasks, config.showClock);
      var r := InitLaunchers(env, minSize, maxSize, items[..keep], launchers);
      r := InitTasks(env, minSize, maxSize, r, tasks);
      if config.showClock {
        r := r + [NewItem(Clock, env.pixmapOf, minSize, maxSize)];
      }
      items := r;
      ResizeTaskManager();
    }

    /** `initUi`; the windows the task helper lists are a parameter. */
    method InitUi(tasks: seq<TaskInfo>)
      requires State().Sized() && State().Steady() && ItemsFit(items, minSize, maxSize)
      modifies this
      ensures State() == AfterInitUi(env, old(State()), tasks)
    {
      items := InitialItemsPass(env, State(), tasks);
      InitLayoutVars();
      UpdateLayout();
    }

    /** `reload`; the appearance, this dock's launchers and the windows
        are read from `now`. */
    method Reload(now: Snapshot)
      requires State().Sized() && State().Steady() && now.appearance.Valid()
      modifies this
      ensures State() == AfterReload(env, old(State()), now)
    {
      var a := now.appearance;
      minSize, maxSize, spacing := a.minSize, a.maxSize, a.spacing;
      launchers := now.launchers;
      items := [];
      InitUi(now.tasks);
    }

    // -------------------------------------------------------------------
    // Settings

    /** `updatePosition`. */
    method UpdatePosition(position: Position, now: Snapshot)
      requires State().Valid() && now.appearance.Valid()
      modifies this
      ensures State() == AfterUpdatePosition(env, old(State()), position, now)
    {
      config := config.(position := position, orientation := OrientationOf(position));
      Reload(now);
    }

    /** `updateVisibility`. */
    method UpdateVisibility(visibility: Visibility, now: Snapshot)
      requires State().Valid() && now.appearance.Valid()
      modifies this
      ensures State() == AfterUpdateVisibility(env, old(State()), visibility, now)
    {
      config := config.(visibility := visibility);
      Reload(now);
    }

    /** `toggleApplicationMenu`. */
    method ToggleApplicationMenu(now: Snapshot)
      requires State().Valid() && now.appearance.Valid()
      modifies this
      ensures State() == AfterToggleApplicationMenu(env, old(State()), now)
    {
      config := config.(showApplicationMenu := !config.showApplicationMenu);
      Reload(now);
    }

    /** `togglePager`. */
    method TogglePager(now: Snapshot)
      requires State().Valid() && now.appearance.Valid()
      modifies this
      ensures State() == AfterTogglePager(env, old(State()), now)
    {
      config := config.(showPager := !config.showPager);
      Reload(now);
    }

    /** `toggleClock`. */
    method ToggleClock(now: Snapshot)
      requires State().Valid() && now.appearance.Valid()
      modifies this
      ensures State() == AfterToggleClock(env, old(State()), now)
    {
      config := config.(showClock := !config.showClock);
      Reload(now);
    }

    /** `toggleTaskManager`. */
    method ToggleTaskManager(now: Snapshot)
      requires State().Valid() && now.appearance.Valid()
      modifies this
      ensures State() == AfterToggleTaskManager(env, old(State()), now)
    {
      config := config.(showTaskManager := !config.showTaskManager);
      Reload(now);
    }

    /** `updatePager`; the new number of desktops is a parameter. */
    method UpdatePager(desktops: nat, now: Snapshot)
      requires State().Valid() && now.appearance.Valid()
      modifies this
      ensures State() == AfterUpdatePager(env, old(State()), desktops, now)
    {
      config := config.(desktops := desktops);
      if config.showPager {
        Reload(now);
      }
    }

    /** `onDockLaunchersChanged`. */
    method DockLaunchersChanged(changed: int, now: Snapshot)
      requires State().Valid() && now.appearance.Valid()
      modifies this
      ensures State() == AfterDockLaunchersChanged(env, old(State()), dockId, changed, now)
    {
      if dockId == changed {
        Reload(now);
      }
    }

    /** `setScreen`: only the screen changes; the panel is not moved
        until the next reload. */
    method SetScreen(index: int, geometry: Rect)
      modifies this
      ensures State() == old(State()).(config := old(config).(screenIndex := index, screen := geometry))
    {
      config := config.(screenIndex := index, screen := geometry);
    }
  }
}
