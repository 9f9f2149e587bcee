/** The operations of a dock panel that change its list of items: the
    window handlers of the task manager, `refresh`, `reloadTasks`, `initUi`
    and `reload`, and the settings that reload the panel. Each is a
    function from the panel state before to the state after, built on the
    item-list functions of `ItemList` and the layout transitions of
    `PanelState`. */
module PanelItems {
  import opened Icons
  import opened Programs
  import opened Items
  import opened Launchers
  import opened ItemList
  import opened Placement
  import opened MultiDock
  import opened PanelState

  // ---------------------------------------------------------------------
  // Item lists

  /** The pager cells `initPager` creates, one per desktop, numbered from
      1. */
  function PagerCells(env: Env, desktops: nat, minSize: int, maxSize: int): (r: seq<Item>)
    requires minSize <= maxSize
    ensures |r| == desktops && ItemsFit(r, minSize, maxSize)
    ensures forall j :: 0 <= j < desktops ==> r[j].kind == Pager(j + 1)
  {
    seq(desktops, j requires 0 <= j < desktops => NewItem(Pager(j + 1), env.pixmapOf, minSize, maxSize))
  }

  /** The items `initApplicationMenu` and `initPager` create: the
      application menu if shown, then the pager cells if shown. These are
      the items `reloadTasks` keeps. */
  function HeadItems(env: Env, p: Panel): (r: seq<Item>)
    requires p.Sized()
    ensures |r| == p.KeepCount() && ItemsFit(r, p.minSize, p.maxSize)
    ensures p.config.showApplicationMenu ==> r[0].kind == ApplicationMenu
    ensures forall j :: p.ApplicationMenuItemCount() <= j < |r| ==> r[j].kind == Pager(j - p.ApplicationMenuItemCount() + 1)
    ensures forall j :: 0 <= j < |r| ==> r[j].kind == ApplicationMenu || r[j].kind.Pager?
  {
    var menu := if p.config.showApplicationMenu then [NewItem(ApplicationMenu, env.pixmapOf, p.minSize, p.maxSize)] else [];
    var cells := if p.config.showPager then PagerCells(env, p.config.desktops, p.minSize, p.maxSize) else [];
    ConcatFits(menu, cells, p.minSize, p.maxSize);
    menu + cells
  }

  /** Two fitted lists joined are fitted. */
  lemma ConcatFits(a: seq<Item>, b: seq<Item>, minSize: int, maxSize: int)
    requires ItemsFit(a, minSize, maxSize) && ItemsFit(b, minSize, maxSize)
    ensures ItemsFit(a + b, minSize, maxSize)
  {
    var r := a + b;
    forall j | 0 <= j < |r|
      ensures TableFits(r[j].icons, minSize, maxSize)
    {
      if j >= |a| {
        assert r[j] == b[j - |a|];
      }
    }
  }

  /** The application menu and the pager cells stand before every program
      a window opens: what their classes answer to `beforeTask`, which are
      not part of this model. */
  ghost predicate HeadFirst(env: Env)
  {
    (forall c :: env.otherBefore(ApplicationMenu, c)) &&
    (forall d, c :: env.otherBefore(Pager(d), c))
  }

  /** Item lists whose items have the same kinds hold the same windows. */
  lemma SameKindsWindows(a: seq<Item>, b: seq<Item>, w: WId)
    requires SameKinds(a, b)
    ensures AnyHasTask(a, w) <==> AnyHasTask(b, w)
  {
    if AnyHasTask(a, w) {
      var h :| 0 <= h < |a| && ItemHasTask(a[h], w);
      HeldAt(b, h, w);
    }
    if AnyHasTask(b, w) {
      var h :| 0 <= h < |b| && ItemHasTask(b[h], w);
      HeldAt(a, h, w);
    }
  }

  lemma SameKindsTrans(a: seq<Item>, b: seq<Item>, c: seq<Item>)
    requires SameKinds(a, b) && SameKinds(b, c)
    ensures SameKinds(a, c)
  {
  }

  /** Removing a window from item lists with the same kinds erases the
      same item or none, and leaves lists with the same kinds. */
  lemma RemovalByKinds(a: seq<Item>, b: seq<Item>, w: WId)
    requires SameKinds(a, b)
    ensures TaskRemoved(a, w).0 == TaskRemoved(b, w).0
    ensures SameKinds(TaskRemoved(a, w).1, TaskRemoved(b, w).1)
  {
    var i := FirstWithTask(a, w);
    assert i == FirstWithTask(b, w);
    if i < |a| {
      var ra, rb := TaskRemoved(a, w), TaskRemoved(b, w);
      assert ItemRemoveTask(a[i], w).1.kind == ItemRemoveTask(b[i], w).1.kind;
      if ra.0 {
        forall j | 0 <= j < |ra.1|
          ensures ra.1[j].kind == rb.1[j].kind
        {
          if j >= i {
            assert ra.1[j] == a[j + 1] && rb.1[j] == b[j + 1];
          }
        }
      }
    }
  }

  // ---------------------------------------------------------------------
  // Window handlers

  /** `addTask` on the panel: the window joins the item list, and nothing
      else changes. */
  function AfterAddTask(env: Env, p: Panel, task: TaskInfo): (q: Panel)
    requires p.Valid()
    ensures q.Valid() && q == p.(items := q.items)
    ensures AnyHasTask(p.items, task.wId) ==> q == p
    ensures |p.items| <= |q.items| <= |p.items| + 1
  {
    TaskAddedFits(env, p.minSize, p.maxSize, p.items, task);
    p.(items := TaskAdded(env, p.minSize, p.maxSize, p.items, task))
  }

  /** `onWindowAdded`: with the task manager shown, a window the task
      helper accepts for this screen is added and the panel resized. */
  function AfterWindowAdded(env: Env, p: Panel, task: TaskInfo, isValidTask: bool): (q: Panel)
    requires p.Valid()
    ensures q.Valid() && q.config == p.config && q.launchers == p.launchers
    ensures !p.config.showTaskManager || !isValidTask ==> q == p
    ensures p.config.showTaskManager && isValidTask ==>
      SameKinds(TaskAdded(env, p.minSize, p.maxSize, p.items, task), q.items)
  {
    if !p.config.showTaskManager || !isValidTask then p
    else AfterResizeTaskManager(AfterAddTask(env, p, task))
  }

  /** A window the panel accepts is then held by one of its items, when a
      new program for it would take it, and every window held before is
      still held. */
  lemma WindowAddedHolds(env: Env, p: Panel, task: TaskInfo, w: WId)
    requires p.Valid() && p.config.showTaskManager
    ensures env.sameCommand(NewTaskCommand(env, task), task.command) ==>
      AnyHasTask(AfterWindowAdded(env, p, task, true).items, task.wId)
    ensures AnyHasTask(p.items, w) ==> AnyHasTask(AfterWindowAdded(env, p, task, true).items, w)
  {
    var added := TaskAdded(env, p.minSize, p.maxSize, p.items, task);
    var q := AfterWindowAdded(env, p, task, true);
    SameKindsWindows(added, q.items, task.wId);
    SameKindsWindows(added, q.items, w);
    if env.sameCommand(NewTaskCommand(env, task), task.command) {
      TaskAddedHolds(env, p.minSize, p.maxSize, p.items, task);
    }
    if AnyHasTask(p.items, w) {
      TaskAddedKeepsWindows(env, p.minSize, p.maxSize, p.items, task, w);
    }
  }

  /** `removeTask` on the panel: the first item holding the window lets
      it go; a program left without windows and not pinned is erased and
      the panel resized. */
  function AfterRemoveTask(p: Panel, w: WId): (q: Panel)
    requires p.Valid()
    ensures q.Valid() && q.config == p.config && q.launchers == p.launchers
    ensures !AnyHasTask(p.items, w) ==> q == p
    ensures SameKinds(TaskRemoved(p.items, w).1, q.items)
  {
    var removed := TaskRemoved(p.items, w);
    TaskRemovedFits(p.items, w, p.minSize, p.maxSize);
    var next := p.(items := removed.1);
    if removed.0 then AfterResizeTaskManager(next) else next
  }

  /** Removing a window keeps the icon tables fitted. */
  lemma TaskRemovedFits(items: seq<Item>, w: WId, minSize: int, maxSize: int)
    requires ItemsFit(items, minSize, maxSize)
    ensures ItemsFit(TaskRemoved(items, w).1, minSize, maxSize)
  {
    var i := FirstWithTask(items, w);
    if i < |items| {
      var r := TaskRemoved(items, w).1;
      if TaskRemoved(items, w).0 {
        forall j | 0 <= j < |r|
          ensures TableFits(r[j].icons, minSize, maxSize)
        {
          if j >= i {
            assert r[j] == items[j + 1];
          }
        }
      }
    }
  }

  /** `onWindowRemoved`: with the task manager shown, the window is
      removed. */
  function AfterWindowRemoved(p: Panel, w: WId): (q: Panel)
    requires p.Valid()
    ensures q.Valid() && q.config == p.config
    ensures !p.config.showTaskManager || !AnyHasTask(p.items, w) ==> q == p
    ensures p.config.showTaskManager ==> SameKinds(TaskRemoved(p.items, w).1, q.items)
  {
    if !p.config.showTaskManager then p else AfterRemoveTask(p, w)
  }

  /** A window that opened a new program on the panel and then closes
      leaves the panel with items of the same kinds as before. */
  lemma OpenThenCloseKeepsKinds(env: Env, p: Panel, task: TaskInfo)
    requires p.Valid() && p.config.showTaskManager
    requires !AnyHasTask(p.items, task.wId) && FirstAccepting(env, p.items, task) == |p.items|
    requires env.sameCommand(NewTaskCommand(env, task), task.command)
    ensures SameKinds(p.items, AfterWindowRemoved(AfterWindowAdded(env, p, task, true), task.wId).items)
  {
    var added := TaskAdded(env, p.minSize, p.maxSize, p.items, task);
    NewProgramRoundTrip(env, p.minSize, p.maxSize, p.items, task);
    var shown := AfterWindowAdded(env, p, task, true);
    RemovalByKinds(added, shown.items, task.wId);
    var closed := AfterWindowRemoved(shown, task.wId);
    SameKindsTrans(p.items, TaskRemoved(shown.items, task.wId).1, closed.items);
  }

  /** `updateTask` on the panel: the first program holding the window
      takes its new state; nothing else changes. */
  function AfterUpdateTask(env: Env, p: Panel, task: TaskInfo): (q: Panel)
    requires p.Valid()
    ensures q.Valid() && q == p.(items := q.items) && |q.items| == |p.items|
    ensures forall j :: 0 <= j < |p.items| && j != FirstUpdating(env, p.items, task) ==> q.items[j] == p.items[j]
  {
    TaskUpdatedKeepsWindows(env, p.items, task, task.wId);
    p.(items := TaskUpdated(env, p.items, task))
  }

  /** Updating a window's state neither adds nor takes away a window. */
  lemma UpdateTaskKeepsWindows(env: Env, p: Panel, task: TaskInfo, w: WId)
    requires p.Valid()
    ensures AnyHasTask(AfterUpdateTask(env, p, task).items, w) <==> AnyHasTask(p.items, w)
  {
    TaskUpdatedKeepsWindows(env, p.items, task, w);
  }

  /** `onWindowChanged`: with the task manager shown, a change of desktop
      or geometry adds the window (and resizes the panel) or removes it,
      and a change of state updates it; anything else is ignored. */
  function AfterWindowChanged(env: Env, p: Panel, task: TaskInfo, change: WindowChange): (q: Panel)
    requires p.Valid()
    ensures q.Valid() && q.config == p.config && q.launchers == p.launchers
    ensures !p.config.showTaskManager || change.Ignored? ==> q == p
    ensures p.config.showTaskManager && change == DesktopOrGeometry(true) ==> q == AfterWindowAdded(env, p, task, true)
    ensures p.config.showTaskManager && change == DesktopOrGeometry(false) ==> q == AfterWindowRemoved(p, task.wId)
    ensures p.config.showTaskManager && change.StateChanged? ==> q == AfterUpdateTask(env, p, task)
  {
    if !p.config.showTaskManager then p
    else
      match change
      case Ignored => p
      case DesktopOrGeometry(shownHere) =>
        if shownHere then AfterWindowAdded(env, p, task, true) else AfterWindowRemoved(p, task.wId)
      case StateChanged => AfterUpdateTask(env, p, task)
  }

  /** `refresh`: the first program that should be removed, if any, is
      erased and the panel resized. */
  function AfterRefresh(p: Panel): (q: Panel)
    requires p.Valid()
    ensures q.Valid() && q.config == p.config && q.launchers == p.launchers
    ensures FirstRemovable(p.items) == |p.items| ==> q == p
    ensures SameKinds(Refreshed(p.items), q.items)
  {
    var k := FirstRemovable(p.items);
    if k == |p.items| then p
    else
      RefreshedKeepsWindows(p.items, 0, p.minSize, p.maxSize);
      AfterResizeTaskManager(p.(items := EraseAt(p.items, k)))
  }

  /** A refresh erases at most one item, one that should be removed, and
      keeps every window held. */
  lemma RefreshKeepsWindows(p: Panel, w: WId)
    requires p.Valid()
    ensures var q := AfterRefresh(p);
      (AnyHasTask(q.items, w) <==> AnyHasTask(p.items, w)) &&
      |q.items| == if FirstRemovable(p.items) < |p.items| then |p.items| - 1 else |p.items|
  {
    RefreshedKeepsWindows(p.items, w, p.minSize, p.maxSize);
    SameKindsWindows(Refreshed(p.items), AfterRefresh(p).items, w);
  }

  // ---------------------------------------------------------------------
  // Reloads

  /** The panel the constructor has before `initUi`: the dock's settings
      (`loadDockConfig`) and the appearance (`loadAppearanceConfig`) read,
      no items yet, minimized and not animating; the extents, the window
      and the backgrounds are set by `initUi`. */
  function Loaded(settings: DockSettings, screen: Rect, desktops: nat, now: Snapshot): (p: Panel)
    requires now.appearance.Valid()
    ensures p.Sized() && p.Steady() && p.items == [] && p.motion.isMinimized
    ensures !p.motion.isEntering && !p.motion.isLeaving && !p.motion.isAnimationActive
  {
    var a := now.appearance;
    var none := Extent(0, 0);
    var config := Config(settings.position, OrientationOf(settings.position), settings.visibility, settings.screen,
                         screen, settings.showApplicationMenu, settings.showPager, settings.showClock,
                         settings.showTaskManager, desktops);
    Panel(config, now.launchers, a.minSize, a.maxSize, a.spacing,
          LayoutVars(0, 0, 0, 0, 0, NumAnimationSteps, AnimationSpeed), [], Rect(0, 0, 0, 0), 0, 0,
          Motion(true, false, false, false, 0, none, none, none, 0, 0))
  }

  /** `reloadTasks` (also on a change of desktop or activity): with the
      task manager shown, the application menu and pager cells stay, the
      launchers, the windows and the clock follow them again, and the
      panel is resized. */
  function AfterReloadTasks(env: Env, p: Panel, tasks: seq<TaskInfo>): (q: Panel)
    requires p.Valid() && p.KeepCount() <= |p.items|
    ensures q.Valid() && q.config == p.config && q.launchers == p.launchers
    ensures !p.config.showTaskManager ==> q == p
    ensures p.config.showTaskManager ==>
      SameKinds(Reloaded(env, p.minSize, p.maxSize, p.items, p.KeepCount(), p.launchers, tasks, p.config.showClock), q.items)
  {
    if !p.config.showTaskManager then p
    else
      ReloadedFits(env, p.minSize, p.maxSize, p.items, p.KeepCount(), p.launchers, tasks, p.config.showClock);
      AfterResizeTaskManager(p.(items := Reloaded(env, p.minSize, p.maxSize, p.items, p.KeepCount(), p.launchers,
                                                  tasks, p.config.showClock)))
  }

  /** After `reloadTasks` the application menu and the pager cells are
      still first, every window offered is held (when a new program for
      it would take it), and the clock, if shown, is last. */
  lemma ReloadTasksKeepsHead(env: Env, p: Panel, tasks: seq<TaskInfo>)
    requires p.Valid() && p.config.showTaskManager && LeadingFixed(env, p.items, p.KeepCount())
    requires forall t :: t in tasks ==> env.sameCommand(NewTaskCommand(env, t), t.command)
    ensures var q := AfterReloadTasks(env, p, tasks);
      (forall j :: 0 <= j < p.KeepCount() ==> q.items[j].kind == p.items[j].kind) &&
      (forall t :: t in tasks ==> AnyHasTask(q.items, t.wId)) &&
      (p.config.showClock ==> q.items[|q.items| - 1].kind == Clock)
  {
    var q := AfterReloadTasks(env, p, tasks);
    ReloadedKindsKeepHead(env, p, tasks, q.items);
  }

  /** Items of the same kinds as the reloaded ones keep the application
      menu and the pager cells first, hold every window offered, and end
      with the clock if it is shown. */
  lemma ReloadedKindsKeepHead(env: Env, p: Panel, tasks: seq<TaskInfo>, items: seq<Item>)
    requires p.Valid() && p.KeepCount() <= |p.items| && LeadingFixed(env, p.items, p.KeepCount())
    requires forall t :: t in tasks ==> env.sameCommand(NewTaskCommand(env, t), t.command)
    requires SameKinds(Reloaded(env, p.minSize, p.maxSize, p.items, p.KeepCount(), p.launchers, tasks, p.config.showClock), items)
    ensures forall j :: 0 <= j < p.KeepCount() ==> items[j].kind == p.items[j].kind
    ensures forall t :: t in tasks ==> AnyHasTask(items, t.wId)
    ensures p.config.showClock ==> items[|items| - 1].kind == Clock
  {
    var r := Reloaded(env, p.minSize, p.maxSize, p.items, p.KeepCount(), p.launchers, tasks, p.config.showClock);
    ReloadedKeepsHead(env, p.minSize, p.maxSize, p.items, p.KeepCount(), p.launchers, tasks, p.config.showClock);
    forall t | t in tasks
      ensures AnyHasTask(items, t.wId)
    {
      SameKindsWindows(r, items, t.wId);
    }
  }

  /** The items `initUi` builds after the ones the panel has: the
      application menu and the pager cells, the launchers, the windows
      when the task manager is shown, and the clock. */
  function InitialItems(env: Env, p: Panel, tasks: seq<TaskInfo>): (r: seq<Item>)
    requires p.Sized() && ItemsFit(p.items, p.minSize, p.maxSize)
    ensures ItemsFit(r, p.minSize, p.maxSize)
    ensures |r| >= |p.items| + p.KeepCount() + |p.launchers| + p.ClockItemCount()
  {
    var head := p.items + HeadItems(env, p);
    ConcatFits(p.items, HeadItems(env, p), p.minSize, p.maxSize);
    var offered := if p.config.showTaskManager then tasks else [];
    ReloadedFits(env, p.minSize, p.maxSize, head, |head|, p.launchers, offered, p.config.showClock);
    Reloaded(env, p.minSize, p.maxSize, head, |head|, p.launchers, offered, p.config.showClock)
  }

  /** `initUi`: the items are built, the extents computed and the panel
      takes the minimized layout (or starts its leave animation). */
  function AfterInitUi(env: Env, p: Panel, tasks: seq<TaskInfo>): (q: Panel)
    requires p.Sized() && p.Steady() && ItemsFit(p.items, p.minSize, p.maxSize)
    ensures q.Valid() && q.config == p.config && q.launchers == p.launchers
    ensures q.minSize == p.minSize && q.maxSize == p.maxSize && q.spacing == p.spacing
    ensures SameKinds(InitialItems(env, p, tasks), q.items)
    ensures !p.motion.isLeaving ==> q.motion.isMinimized
  {
    AfterUpdateLayout(AfterInitLayoutVars(p.(items := InitialItems(env, p, tasks))))
  }

  /** The shape of the items `initUi` builds from no items: the
      application menu first and the pager cells after it when they are
      shown, the clock last when it is shown, and every window offered
      held when the task manager is shown (and new programs take their
      windows). */
  predicate InitialShape(p: Panel, tasks: seq<TaskInfo>, r: seq<Item>)
  {
    |r| >= p.KeepCount() + |p.launchers| + p.ClockItemCount() &&
    (p.config.showApplicationMenu ==> r[0].kind == ApplicationMenu) &&
    (forall j :: p.ApplicationMenuItemCount() <= j < p.KeepCount() ==>
      r[j].kind == Pager(j - p.ApplicationMenuItemCount() + 1)) &&
    (p.config.showClock ==> r[|r| - 1].kind == Clock) &&
    (p.config.showTaskManager ==> forall t :: t in tasks ==> AnyHasTask(r, t.wId))
  }

  lemma InitialItemsShape(env: Env, p: Panel, tasks: seq<TaskInfo>)
    requires p.Sized() && p.items == [] && HeadFirst(env)
    requires forall t :: t in tasks ==> env.sameCommand(NewTaskCommand(env, t), t.command)
    ensures InitialShape(p, tasks, InitialItems(env, p, tasks))
  {
    var head := HeadItems(env, p);
    HeadLeads(env, p);
    assert p.items + head == head;
    var offered := if p.config.showTaskManager then tasks else [];
    var r := Reloaded(env, p.minSize, p.maxSize, head, |head|, p.launchers, offered, p.config.showClock);
    assert r == InitialItems(env, p, tasks);
    ReloadedKeepsHead(env, p.minSize, p.maxSize, head, |head|, p.launchers, offered, p.config.showClock);
    HeadKept(env, p, r);
  }

  /** Items that start with the application menu and the pager cells
      `HeadItems` builds have them in their places. */
  lemma HeadKept(env: Env, p: Panel, r: seq<Item>)
    requires p.Sized() && p.KeepCount() <= |r|
    requires forall j :: 0 <= j < p.KeepCount() ==> r[j] == HeadItems(env, p)[j]
    ensures p.config.showApplicationMenu ==> r[0].kind == ApplicationMenu
    ensures forall j :: p.ApplicationMenuItemCount() <= j < p.KeepCount() ==>
      r[j].kind == Pager(j - p.ApplicationMenuItemCount() + 1)
  {
  }

  /** The application menu and the pager cells lead the item list. */
  lemma HeadLeads(env: Env, p: Panel)
    requires p.Sized() && HeadFirst(env)
    ensures LeadingFixed(env, HeadItems(env, p), p.KeepCount())
  {
    var head := HeadItems(env, p);
    forall j, c | 0 <= j < |head|
      ensures env.otherBefore(head[j].kind, c)
    {
      if head[j].kind.Pager? {
        assert env.otherBefore(Pager(head[j].kind.desktop), c);
      }
    }
  }

  /** Items of the same kinds have the same shape. */
  lemma ShapeByKinds(p: Panel, tasks: seq<TaskInfo>, r: seq<Item>, s: seq<Item>)
    requires SameKinds(r, s) && InitialShape(p, tasks, r)
    ensures InitialShape(p, tasks, s)
  {
    if p.config.showTaskManager {
      forall t | t in tasks
        ensures AnyHasTask(s, t.wId)
      {
        SameKindsWindows(r, s, t.wId);
      }
    }
  }

  /** A panel built from no items by `initUi` has the initial shape. */
  lemma InitUiItems(env: Env, p: Panel, tasks: seq<TaskInfo>)
    requires p.Sized() && p.Steady() && p.items == [] && HeadFirst(env)
    requires forall t :: t in tasks ==> env.sameCommand(NewTaskCommand(env, t), t.command)
    ensures InitialShape(p, tasks, AfterInitUi(env, p, tasks).items)
  {
    InitialItemsShape(env, p, tasks);
    ShapeByKinds(p, tasks, InitialItems(env, p, tasks), AfterInitUi(env, p, tasks).items);
  }

  /** `reload`: the appearance and this dock's launchers are read again,
      the items cleared and `initUi` run. */
  function AfterReload(env: Env, p: Panel, now: Snapshot): (q: Panel)
    requires p.Sized() && p.Steady() && now.appearance.Valid()
    ensures q.Valid() && q.config == p.config && q.launchers == now.launchers
    ensures q.minSize == now.appearance.minSize && q.maxSize == now.appearance.maxSize
    ensures q.spacing == now.appearance.spacing
    ensures q.motion.isLeaving == p.motion.isLeaving && q.motion.isEntering == p.motion.isEntering
  {
    var a := now.appearance;
    AfterInitUi(env, p.(minSize := a.minSize, maxSize := a.maxSize, spacing := a.spacing,
                        launchers := now.launchers, items := []), now.tasks)
  }

  /** Nothing keeps a panel from having no item at all: with the
      application menu, the pager, the clock and the task manager all
      switched off and every launcher unpinned, a reload leaves the item
      list empty. */
  lemma ReloadCanLeaveNoItems(env: Env, p: Panel, now: Snapshot)
    requires p.Sized() && p.Steady() && now.appearance.Valid()
    requires !p.config.showApplicationMenu && !p.config.showPager
    requires !p.config.showClock && !p.config.showTaskManager && now.launchers == []
    ensures AfterReload(env, p, now).items == []
  {
    var a := now.appearance;
    var x := p.(minSize := a.minSize, maxSize := a.maxSize, spacing := a.spacing, launchers := now.launchers, items := []);
    assert HeadItems(env, x) == [];
    assert ReloadBase(env, x.minSize, x.maxSize, [], 0, []) == [];
    assert InitialItems(env, x, now.tasks) == [];
  }

  // ---------------------------------------------------------------------
  // Settings

  /** `updatePosition`: the panel moves to another edge, takes the
      orientation of that edge and reloads. */
  function AfterUpdatePosition(env: Env, p: Panel, position: Position, now: Snapshot): (q: Panel)
    requires p.Valid() && now.appearance.Valid()
    ensures q.Valid() && q.config == p.config.(position := position, orientation := OrientationOf(position))
    ensures q.IsHorizontal() <==> position == Top || position == Bottom
  {
    AfterReload(env, p.(config := p.config.(position := position, orientation := OrientationOf(position))), now)
  }

  /** `updateVisibility`: the panel takes another visibility and
      reloads. */
  function AfterUpdateVisibility(env: Env, p: Panel, visibility: Visibility, now: Snapshot): (q: Panel)
    requires p.Valid() && now.appearance.Valid()
    ensures q.Valid() && q.config == p.config.(visibility := visibility)
  {
    AfterReload(env, p.(config := p.config.(visibility := visibility)), now)
  }

  /** `toggleApplicationMenu`. */
  function AfterToggleApplicationMenu(env: Env, p: Panel, now: Snapshot): (q: Panel)
    requires p.Valid() && now.appearance.Valid()
    ensures q.Valid() && q.config == p.config.(showApplicationMenu := !p.config.showApplicationMenu)
  {
    AfterReload(env, p.(config := p.config.(showApplicationMenu := !p.config.showApplicationMenu)), now)
  }

  /** `togglePager`. */
  function AfterTogglePager(env: Env, p: Panel, now: Snapshot): (q: Panel)
    requires p.Valid() && now.appearance.Valid()
    ensures q.Valid() && q.config == p.config.(showPager := !p.config.showPager)
  {
    AfterReload(env, p.(config := p.config.(showPager := !p.config.showPager)), now)
  }

  /** `toggleClock`. */
  function AfterToggleClock(env: Env, p: Panel, now: Snapshot): (q: Panel)
    requires p.Valid() && now.appearance.Valid()
    ensures q.Valid() && q.config == p.config.(showClock := !p.config.showClock)
  {
    AfterReload(env, p.(config := p.config.(showClock := !p.config.showClock)), now)
  }

  /** `toggleTaskManager`: the menu action has been flipped before the
      call, so the setting is the opposite of what it was. */
  function AfterToggleTaskManager(env: Env, p: Panel, now: Snapshot): (q: Panel)
    requires p.Valid() && now.appearance.Valid()
    ensures q.Valid() && q.config == p.config.(showTaskManager := !p.config.showTaskManager)
  {
    AfterReload(env, p.(config := p.config.(showTaskManager := !p.config.showTaskManager)), now)
  }

  /** A reload builds its items from the settings, the appearance and the
      launchers alone: two panels with the same settings reload to items of
      the same kinds, whatever layout or animation state they were in. */
  lemma ReloadKindsFromSettings(env: Env, x: Panel, y: Panel, now: Snapshot)
    requires x.Sized() && x.Steady() && y.Sized() && y.Steady() && now.appearance.Valid()
    requires x.config == y.config
    ensures SameKinds(AfterReload(env, x, now).items, AfterReload(env, y, now).items)
  {
    var a := now.appearance;
    var x' := x.(minSize := a.minSize, maxSize := a.maxSize, spacing := a.spacing, launchers := now.launchers, items := []);
    var y' := y.(minSize := a.minSize, maxSize := a.maxSize, spacing := a.spacing, launchers := now.launchers, items := []);
    assert HeadItems(env, x') == HeadItems(env, y');
    assert InitialItems(env, x', now.tasks) == InitialItems(env, y', now.tasks);
  }

  /** Each toggle flips one setting only, so toggling the application menu twice gives
      the settings back, and the panel then shows items of the same kinds
      as a plain reload of the original panel. */
  lemma ToggleApplicationMenuTwiceRestores(env: Env, p: Panel, now: Snapshot)
    requires p.Valid() && now.appearance.Valid()
    ensures AfterToggleApplicationMenu(env, AfterToggleApplicationMenu(env, p, now), now).config == p.config
    ensures SameKinds(AfterToggleApplicationMenu(env, AfterToggleApplicationMenu(env, p, now), now).items, AfterReload(env, p, now).items)
  {
    var q := AfterToggleApplicationMenu(env, p, now);
    var back := q.(config := q.config.(showApplicationMenu := !q.config.showApplicationMenu));
    assert AfterToggleApplicationMenu(env, q, now) == AfterReload(env, back, now);
    ReloadKindsFromSettings(env, back, p, now);
  }

  /** Toggling the pager twice, likewise. */
  lemma TogglePagerTwiceRestores(env: Env, p: Panel, now: Snapshot)
    requires p.Valid() && now.appearance.Valid()
    ensures AfterTogglePager(env, AfterTogglePager(env, p, now), now).config == p.config
    ensures SameKinds(AfterTogglePager(env, AfterTogglePager(env, p, now), now).items, AfterReload(env, p, now).items)
  {
    var q := AfterTogglePager(env, p, now);
    var back := q.(config := q.config.(showPager := !q.config.showPager));
    assert AfterTogglePager(env, q, now) == AfterReload(env, back, now);
    ReloadKindsFromSettings(env, back, p, now);
  }

  /** Toggling the clock twice, likewise. */
  lemma ToggleClockTwiceRestores(env: Env, p: Panel, now: Snapshot)
    requires p.Valid() && now.appearance.Valid()
    ensures AfterToggleClock(env, AfterToggleClock(env, p, now), now).config == p.config
    ensures SameKinds(AfterToggleClock(env, AfterToggleClock(env, p, now), now).items, AfterReload(env, p, now).items)
  {
    var q := AfterToggleClock(env, p, now);
    var back := q.(config := q.config.(showClock := !q.config.showClock));
    assert AfterToggleClock(env, q, now) == AfterReload(env, back, now);
    ReloadKindsFromSettings(env, back, p, now);
  }

  /** Toggling the task manager twice, likewise. */
  lemma ToggleTaskManagerTwiceRestores(env: Env, p: Panel, now: Snapshot)
    requires p.Valid() && now.appearance.Valid()
    ensures AfterToggleTaskManager(env, AfterToggleTaskManager(env, p, now), now).config == p.config
    ensures SameKinds(AfterToggleTaskManager(env, AfterToggleTaskManager(env, p, now), now).items, AfterReload(env, p, now).items)
  {
    var q := AfterToggleTaskManager(env, p, now);
    var back := q.(config := q.config.(showTaskManager := !q.config.showTaskManager));
    assert AfterToggleTaskManager(env, q, now) == AfterReload(env, back, now);
    ReloadKindsFromSettings(env, back, p, now);
  }

  /** `updatePager`, when the number of desktops changes: a panel showing
      the pager reloads to show one cell per desktop. */
  function AfterUpdatePager(env: Env, p: Panel, desktops: nat, now: Snapshot): (q: Panel)
    requires p.Valid() && now.appearance.Valid()
    ensures q.Valid() && q.config == p.config.(desktops := desktops)
    ensures !p.config.showPager ==> q == p.(config := p.config.(desktops := desktops))
  {
    var changed := p.(config := p.config.(desktops := desktops));
    if p.config.showPager then AfterReload(env, changed, now) else changed
  }

  /** `onDockLaunchersChanged`: the panel reloads when the launchers of
      its own dock changed. */
  function AfterDockLaunchersChanged(env: Env, p: Panel, dockId: int, changed: int, now: Snapshot): (q: Panel)
    requires p.Valid() && now.appearance.Valid()
    ensures q.Valid() && q.config == p.config
    ensures dockId != changed ==> q == p
    ensures dockId == changed ==> q.launchers == now.launchers
  {
    if dockId == changed then AfterReload(env, p, now) else p
  }
}
