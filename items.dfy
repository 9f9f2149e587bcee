/** The items of a dock panel and the panel's configuration enumerations.

    Every item (application menu, pager cell, separator, clock, program)
    has a current geometry (`size`, `left`, `top`), the centre it had in the
    minimized layout (`minCenter`), and the start and end geometries of its
    running animation. Its width and height at a given size are read from
    its per-size pixmap table, clamped into the panel's size range, as
    `IconBasedDockItem::getWidth(size)` does. Only program items hold tasks;
    for every other item the task operations report `false` and change
    nothing. */
module Items {
  import opened Icons
  import opened Programs

  datatype Orientation = Horizontal | Vertical

  datatype Position = Top | Bottom | Left | Right

  datatype Visibility =
    | AlwaysVisible
    | AutoHide
    | WindowsCanCover
    | WindowsCanCoverQuiet
    | WindowsGoBelow

  /** The orientation `setPosition` derives from a position. */
  function OrientationOf(position: Position): (o: Orientation)
    ensures o == Horizontal <==> position == Top || position == Bottom
    ensures o == Vertical <==> position == Left || position == Right
  {
    match position
    case Top => Horizontal
    case Bottom => Horizontal
    case Left => Vertical
    case Right => Vertical
  }

  datatype Kind =
    | ApplicationMenu
    | Pager(desktop: int)
    | Separator
    | Clock
    | ProgramItem(program: ProgramData)

  datatype Geometry = Geometry(size: int, left: int, top: int)

  datatype Item = Item(
    kind: Kind,
    icons: seq<Pixmap>,
    geom: Geometry,
    minCenter: int,
    start: Geometry,
    end: Geometry)

  /** The coordinate along the panel. */
  function Main(o: Orientation, g: Geometry): int
  {
    if o == Horizontal then g.left else g.top
  }

  /** The coordinate across the panel. */
  function Cross(o: Orientation, g: Geometry): int
  {
    if o == Horizontal then g.top else g.left
  }

  /** The geometry of the given size at the given coordinates along and
      across the panel. */
  function Place(o: Orientation, size: int, main: int, cross: int): (g: Geometry)
    ensures g.size == size && Main(o, g) == main && Cross(o, g) == cross
  {
    if o == Horizontal then Geometry(size, main, cross) else Geometry(size, cross, main)
  }

  function WithMain(o: Orientation, g: Geometry, main: int): (h: Geometry)
    ensures h.size == g.size && Main(o, h) == main && Cross(o, h) == Cross(o, g)
  {
    Place(o, g.size, main, Cross(o, g))
  }

  /** `getWidth(size)` / `getHeight(size)` of the item, for a table sized to
      the panel's `[minSize, maxSize]`. */
  function WidthAt(item: Item, minSize: int, maxSize: int, size: int): nat
    requires TableFits(item.icons, minSize, maxSize)
  {
    IconAt(item.icons, minSize, maxSize, size).width
  }

  function HeightAt(item: Item, minSize: int, maxSize: int, size: int): nat
    requires TableFits(item.icons, minSize, maxSize)
  {
    IconAt(item.icons, minSize, maxSize, size).height
  }

  /** The item's extent along the panel at a size. */
  function MainExtentAt(o: Orientation, item: Item, minSize: int, maxSize: int, size: int): nat
    requires TableFits(item.icons, minSize, maxSize)
  {
    if o == Horizontal then WidthAt(item, minSize, maxSize, size)
    else HeightAt(item, minSize, maxSize, size)
  }

  /** The item's extent across the panel at a size. */
  function CrossExtentAt(o: Orientation, item: Item, minSize: int, maxSize: int, size: int): nat
    requires TableFits(item.icons, minSize, maxSize)
  {
    if o == Horizontal then HeightAt(item, minSize, maxSize, size)
    else WidthAt(item, minSize, maxSize, size)
  }

  /** Every item's table is sized for the panel's size range. */
  predicate ItemsFit(items: seq<Item>, minSize: int, maxSize: int)
  {
    forall i :: 0 <= i < |items| ==> TableFits(items[i].icons, minSize, maxSize)
  }

  /** A newly created item: its pixmap table is generated from `pixmapOf`
      (the item's image scaled to a size) and its geometry is set by the
      next layout pass. */
  function NewItem(kind: Kind, pixmapOf: (Kind, int) -> Pixmap, minSize: int, maxSize: int)
    : (item: Item)
    requires minSize <= maxSize
    ensures item.kind == kind && TableFits(item.icons, minSize, maxSize)
  {
    var g := Geometry(minSize, 0, 0);
    Item(kind, GeneratedIcons(size => pixmapOf(kind, size), minSize, maxSize), g, 0, g, g)
  }

  predicate ItemHasTask(item: Item, w: WId)
  {
    item.kind.ProgramItem? && HasTaskIn(item.kind.program.tasks, w)
  }

  function ItemAddTask(item: Item, task: TaskInfo, sameCommand: (string, string) -> bool)
    : (r: (bool, Item))
    ensures r.0 ==> (item.kind.ProgramItem? && r.1.kind.ProgramItem? &&
                     r.1.kind.program.tasks == item.kind.program.tasks + [TaskOf(task)])
    ensures r.0 <==> (item.kind.ProgramItem? &&
                      sameCommand(item.kind.program.taskCommand, task.command))
    ensures !r.0 ==> r.1 == item
    ensures r.1.icons == item.icons && r.1.geom == item.geom && r.1.minCenter == item.minCenter
  {
    if item.kind.ProgramItem? then
      var (ok, p) := WithTaskAdded(item.kind.program, task, sameCommand);
      (ok, item.(kind := ProgramItem(p)))
    else (false, item)
  }

  function ItemRemoveTask(item: Item, w: WId): (r: (bool, Item))
    ensures r.0 <==> ItemHasTask(item, w)
    ensures r.0 ==> (r.1.kind.ProgramItem? &&
                     |r.1.kind.program.tasks| == |item.kind.program.tasks| - 1)
    ensures !r.0 ==> r.1 == item
    ensures r.1.icons == item.icons && r.1.geom == item.geom && r.1.minCenter == item.minCenter
  {
    if item.kind.ProgramItem? then
      var (ok, p) := WithTaskRemoved(item.kind.program, w);
      (ok, item.(kind := ProgramItem(p)))
    else (false, item)
  }

  function ItemUpdateTask(item: Item, task: TaskInfo, sameCommand: (string, string) -> bool)
    : (r: (bool, Item))
    ensures r.0 <==> (item.kind.ProgramItem? &&
                      sameCommand(item.kind.program.taskCommand, task.command) &&
                      HasTaskIn(item.kind.program.tasks, task.wId))
    ensures !r.0 ==> r.1 == item
    ensures r.1.icons == item.icons && r.1.geom == item.geom && r.1.minCenter == item.minCenter
  {
    if item.kind.ProgramItem? then
      var (ok, p) := WithTaskUpdated(item.kind.program, task, sameCommand);
      (ok, item.(kind := ProgramItem(p)))
    else (false, item)
  }

  /** `beforeTask` of an item: a program compares task commands; what the
      other kinds answer comes from `otherBefore`, since their classes are
      not part of this model. */
  function ItemBeforeTask(item: Item, command: string, otherBefore: (Kind, string) -> bool): bool
  {
    if item.kind.ProgramItem? then BeforeTask(item.kind.program, command)
    else otherBefore(item.kind, command)
  }
}
