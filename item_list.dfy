/** The list of items a dock panel shows, as values: which item a window
    goes to when it opens, closes or changes, what a refresh drops, and the
    list a reload builds from the launchers and the open windows. The
    panel's methods walk the list with the same loops as the source and are
    proved to compute these functions. */
module ItemList {
  import opened Optional
  import opened Icons
  import opened Programs
  import opened Items
  import opened Launchers

  /** An installed application, as the dock model finds it for a command. */
  datatype Application = Application(name: string, icon: string, command: string, taskCommand: string)

  /** What the item list asks of the rest of the system: whether two
      commands are the same program, the installed application of a
      command, where an item other than a program stands against a new
      program's task command, and an item's image at a size. */
  datatype Env = Env(
    sameCommand: (string, string) -> bool,
    findApplication: string -> Option<Application>,
    otherBefore: (Kind, string) -> bool,
    pixmapOf: (Kind, int) -> Pixmap)

  /** `shouldBeRemoved`: a program that is neither pinned nor has a window. */
  predicate ShouldBeRemoved(item: Item)
  {
    item.kind.ProgramItem? && !item.kind.program.pinned && |item.kind.program.tasks| == 0
  }

  /** Some item holds window `w`. */
  predicate AnyHasTask(items: seq<Item>, w: WId)
  {
    exists i :: 0 <= i < |items| && ItemHasTask(items[i], w)
  }

  /** The index of the first item satisfying `p`, or `|items|` if none
      does: what each of the panel's item loops stops at. */
  function FirstWhere(items: seq<Item>, p: Item -> bool): (r: nat)
    ensures r <= |items|
    ensures forall j :: 0 <= j < r ==> !p(items[j])
    ensures r < |items| ==> p(items[r])
  {
    if |items| == 0 then 0
    else if p(items[0]) then 0
    else 1 + FirstWhere(items[1..], p)
  }

  /** The first item holding window `w`; it exists exactly when some item
      holds `w`. */
  function FirstWithTask(items: seq<Item>, w: WId): (r: nat)
    ensures r <= |items|
    ensures forall j :: 0 <= j < r ==> !ItemHasTask(items[j], w)
    ensures r < |items| ==> ItemHasTask(items[r], w)
    ensures r < |items| <==> AnyHasTask(items, w)
  {
    FirstWhere(items, item => ItemHasTask(item, w))
  }

  /** A program whose task command is the window's command: the item
      `addTask` accepts the window. */
  predicate Accepts(env: Env, item: Item, task: TaskInfo)
  {
    item.kind.ProgramItem? && env.sameCommand(item.kind.program.taskCommand, task.command)
  }

  /** A program that accepts the window and already holds it: the item
      `updateTask` changes. */
  predicate Updates(env: Env, item: Item, task: TaskInfo)
  {
    Accepts(env, item, task) && HasTaskIn(item.kind.program.tasks, task.wId)
  }

  /** The first program whose task command is the window's command. */
  function FirstAccepting(env: Env, items: seq<Item>, task: TaskInfo): (r: nat)
    ensures r <= |items|
    ensures forall j :: 0 <= j < r ==> !Accepts(env, items[j], task)
    ensures r < |items| ==> Accepts(env, items[r], task)
  {
    FirstWhere(items, item => Accepts(env, item, task))
  }

  /** The first program that holds the window and whose task command is
      the window's command. */
  function FirstUpdating(env: Env, items: seq<Item>, task: TaskInfo): (r: nat)
    ensures r <= |items|
    ensures forall j :: 0 <= j < r ==> !Updates(env, items[j], task)
    ensures r < |items| ==> Updates(env, items[r], task)
  {
    FirstWhere(items, item => Updates(env, item, task))
  }

  /** The first item that should be removed. */
  function FirstRemovable(items: seq<Item>): (r: nat)
    ensures r <= |items|
    ensures forall j :: 0 <= j < r ==> !ShouldBeRemoved(items[j])
    ensures r < |items| ==> ShouldBeRemoved(items[r])
  {
    FirstWhere(items, item => ShouldBeRemoved(item))
  }

  /** Where a new program with task command `command` goes: after the
      leading run of items that sort before it. */
  function InsertionIndex(env: Env, items: seq<Item>, command: string): (r: nat)
    ensures r <= |items|
    ensures forall j :: 0 <= j < r ==> ItemBeforeTask(items[j], command, env.otherBefore)
    ensures r < |items| ==> !ItemBeforeTask(items[r], command, env.otherBefore)
  {
    FirstWhere(items, item => !ItemBeforeTask(item, command, env.otherBefore))
  }

  /** The program data of the new, unpinned program a window gets when no
      item takes it: the installed application of the window's command if
      there is one, otherwise a program named after the window and running
      its command, with the generic icon. */
  function NewProgramData(env: Env, task: TaskInfo): (p: ProgramData)
    ensures !p.pinned && p.tasks == [] && !p.demandsAttention
    ensures env.findApplication(task.command).None? ==>
      p.name == task.program && p.command == task.command && p.taskCommand == task.command
    ensures env.findApplication(task.command).Some? ==>
      p.taskCommand == env.findApplication(task.command).value.taskCommand
  {
    match env.findApplication(task.command)
    case Some(app) => ProgramData(app.name, app.icon, app.command, app.taskCommand, false, [], false)
    case None => ProgramData(task.program, "xapp", task.command, task.command, false, [], false)
  }

  /** The task command a window's new program would have. */
  function NewTaskCommand(env: Env, task: TaskInfo): string
  {
    NewProgramData(env, task).taskCommand
  }

  /** The new program's item once it has been offered the window: an
      unpinned program that holds the window exactly when its task command
      is the window's command, and is otherwise due for removal. */
  function NewProgramItem(env: Env, minSize: int, maxSize: int, task: TaskInfo): (item: Item)
    requires minSize <= maxSize
    ensures item.kind.ProgramItem? && !item.kind.program.pinned
    ensures item.kind.program.taskCommand == NewTaskCommand(env, task)
    ensures env.sameCommand(NewTaskCommand(env, task), task.command) ==> item.kind.program.tasks == [TaskOf(task)]
    ensures !env.sameCommand(NewTaskCommand(env, task), task.command) ==> ShouldBeRemoved(item)
    ensures TableFits(item.icons, minSize, maxSize)
  {
    var created := NewItem(ProgramItem(NewProgramData(env, task)), env.pixmapOf, minSize, maxSize);
    ItemAddTask(created, task, env.sameCommand).1
  }

  /** `items` with `item` inserted at index `i`. */
  function InsertAt(items: seq<Item>, i: nat, item: Item): (r: seq<Item>)
    requires i <= |items|
    ensures |r| == |items| + 1 && r[i] == item
    ensures forall j :: 0 <= j < i ==> r[j] == items[j]
    ensures forall j :: i < j <= |items| ==> r[j] == items[j - 1]
  {
    items[..i] + [item] + items[i..]
  }

  /** `items` without the item at index `i`. */
  function EraseAt(items: seq<Item>, i: nat): (r: seq<Item>)
    requires i < |items|
    ensures |r| == |items| - 1
    ensures forall j :: 0 <= j < i ==> r[j] == items[j]
    ensures forall j :: i <= j < |r| ==> r[j] == items[j + 1]
  {
    items[..i] + items[i + 1..]
  }

  /** An item holding `w` means some item holds it. */
  lemma HeldAt(items: seq<Item>, h: int, w: WId)
    requires 0 <= h < |items| && ItemHasTask(items[h], w)
    ensures AnyHasTask(items, w)
  {
  }

  /** Replacing one item by one that holds `w` exactly when it did keeps
      whether some item holds `w`. */
  lemma ReplacedKeepsWindows(items: seq<Item>, k: nat, item: Item, w: WId)
    requires k < |items|
    requires ItemHasTask(items[k], w) ==> ItemHasTask(item, w)
    ensures AnyHasTask(items, w) ==> AnyHasTask(items[k := item], w)
    ensures (ItemHasTask(item, w) ==> ItemHasTask(items[k], w)) ==>
      (AnyHasTask(items[k := item], w) ==> AnyHasTask(items, w))
  {
    var r := items[k := item];
    if AnyHasTask(items, w) {
      var h :| 0 <= h < |items| && ItemHasTask(items[h], w);
      HeldAt(r, h, w);
    }
    if AnyHasTask(r, w) && (ItemHasTask(item, w) ==> ItemHasTask(items[k], w)) {
      var h :| 0 <= h < |r| && ItemHasTask(r[h], w);
      HeldAt(items, h, w);
    }
  }

  /** Inserting an item takes no window away. */
  lemma InsertedKeepsWindows(items: seq<Item>, i: nat, item: Item, w: WId)
    requires i <= |items|
    ensures AnyHasTask(items, w) ==> AnyHasTask(InsertAt(items, i, item), w)
  {
    if AnyHasTask(items, w) {
      var r := InsertAt(items, i, item);
      var h :| 0 <= h < |items| && ItemHasTask(items[h], w);
      var g := if h < i then h else h + 1;
      assert r[g] == items[h];
      HeldAt(r, g, w);
    }
  }

  /** A program that takes a window keeps the windows it had. */
  lemma JoinKeepsWindows(item: Item, task: TaskInfo, sameCommand: (string, string) -> bool, w: WId)
    requires ItemHasTask(item, w)
    ensures ItemHasTask(ItemAddTask(item, task, sameCommand).1, w)
  {
    var after := ItemAddTask(item, task, sameCommand).1;
    if after != item {
      var tasks := item.kind.program.tasks;
      var t :| 0 <= t < |tasks| && tasks[t].wId == w;
      assert after.kind.program.tasks[t] == tasks[t];
    }
  }

  /** A program whose window changes state holds the same windows. */
  lemma UpdateKeepsWindows(item: Item, task: TaskInfo, sameCommand: (string, string) -> bool, w: WId)
    ensures ItemHasTask(ItemUpdateTask(item, task, sameCommand).1, w) <==> ItemHasTask(item, w)
  {
    var after := ItemUpdateTask(item, task, sameCommand).1;
    if after != item {
      var before := item.kind.program.tasks;
      var now := after.kind.program.tasks;
      assert |now| == |before|;
      assert forall t :: 0 <= t < |before| ==> now[t].wId == before[t].wId;
      if ItemHasTask(after, w) {
        var t :| 0 <= t < |now| && now[t].wId == w;
        assert before[t].wId == w;
      }
      if ItemHasTask(item, w) {
        var t :| 0 <= t < |before| && before[t].wId == w;
        assert now[t].wId == w;
      }
    }
  }

  /** `addTask`: a window some item already holds changes nothing; else the
      first program whose task command is the window's command appends it
      and nothing else changes; else a new unpinned program for it goes
      after the leading items that sort before its task command, and
      nothing else moves. */
  function TaskAdded(env: Env, minSize: int, maxSize: int, items: seq<Item>, task: TaskInfo)
    : (r: seq<Item>)
    requires minSize <= maxSize
    ensures AnyHasTask(items, task.wId) ==> r == items
    ensures !AnyHasTask(items, task.wId) && FirstAccepting(env, items, task) < |items| ==>
      var k := FirstAccepting(env, items, task);
      |r| == |items| && r[k].kind.ProgramItem? && r[k].icons == items[k].icons &&
      r[k].kind.program.tasks == items[k].kind.program.tasks + [TaskOf(task)] &&
      forall j :: 0 <= j < |items| && j != k ==> r[j] == items[j]
    ensures !AnyHasTask(items, task.wId) && FirstAccepting(env, items, task) == |items| ==>
      r == InsertAt(items, InsertionIndex(env, items, NewTaskCommand(env, task)), NewProgramItem(env, minSize, maxSize, task))
  {
    if FirstWithTask(items, task.wId) < |items| then items
    else
      var k := FirstAccepting(env, items, task);
      if k < |items| then items[k := ItemAddTask(items[k], task, env.sameCommand).1]
      else
        var i := InsertionIndex(env, items, NewTaskCommand(env, task));
        InsertAt(items, i, NewProgramItem(env, minSize, maxSize, task))
  }

  /** Adding a window keeps every icon table fitted. */
  lemma TaskAddedFits(env: Env, minSize: int, maxSize: int, items: seq<Item>, task: TaskInfo)
    requires minSize <= maxSize && ItemsFit(items, minSize, maxSize)
    ensures ItemsFit(TaskAdded(env, minSize, maxSize, items, task), minSize, maxSize)
  {
    var r := TaskAdded(env, minSize, maxSize, items, task);
    if !AnyHasTask(items, task.wId) && FirstAccepting(env, items, task) == |items| {
      var i := InsertionIndex(env, items, NewTaskCommand(env, task));
      forall j | 0 <= j < |r|
        ensures TableFits(r[j].icons, minSize, maxSize)
      {
        if j > i {
          assert r[j] == items[j - 1];
        }
      }
    }
  }

  /** Adding a window never takes a window away from the items. */
  lemma TaskAddedKeepsWindows(env: Env, minSize: int, maxSize: int, items: seq<Item>, task: TaskInfo, w: WId)
    requires minSize <= maxSize && AnyHasTask(items, w)
    ensures AnyHasTask(TaskAdded(env, minSize, maxSize, items, task), w)
  {
    if !AnyHasTask(items, task.wId) {
      var k := FirstAccepting(env, items, task);
      if k < |items| {
        var joined := ItemAddTask(items[k], task, env.sameCommand).1;
        if ItemHasTask(items[k], w) {
          JoinKeepsWindows(items[k], task, env.sameCommand, w);
        }
        ReplacedKeepsWindows(items, k, joined, w);
      } else {
        var i := InsertionIndex(env, items, NewTaskCommand(env, task));
        InsertedKeepsWindows(items, i, NewProgramItem(env, minSize, maxSize, task), w);
      }
    }
  }

  /** After `addTask` some item holds the window, provided a new program
      for it would take it (its task command is the window's command). */
  lemma TaskAddedHolds(env: Env, minSize: int, maxSize: int, items: seq<Item>, task: TaskInfo)
    requires minSize <= maxSize
    requires env.sameCommand(NewTaskCommand(env, task), task.command)
    ensures AnyHasTask(TaskAdded(env, minSize, maxSize, items, task), task.wId)
  {
    var r := TaskAdded(env, minSize, maxSize, items, task);
    if !AnyHasTask(items, task.wId) {
      var k := FirstAccepting(env, items, task);
      var t := TaskOf(task);
      if k < |items| {
        var tasks := r[k].kind.program.tasks;
        assert tasks[|tasks| - 1] == t;
        assert ItemHasTask(r[k], task.wId);
      } else {
        var i := InsertionIndex(env, items, NewTaskCommand(env, task));
        assert r[i].kind.program.tasks[0] == t;
        assert ItemHasTask(r[i], task.wId);
      }
    }
  }

  /** Offering the same window twice is offering it once. */
  lemma TaskAddedIdempotent(env: Env, minSize: int, maxSize: int, items: seq<Item>, task: TaskInfo)
    requires minSize <= maxSize
    requires env.sameCommand(NewTaskCommand(env, task), task.command)
    ensures var once := TaskAdded(env, minSize, maxSize, items, task);
      TaskAdded(env, minSize, maxSize, once, task) == once
  {
    TaskAddedHolds(env, minSize, maxSize, items, task);
  }

  /** The leading items are not programs and sort before every task
      command: the application menu and the pager. */
  ghost predicate LeadingFixed(env: Env, items: seq<Item>, n: nat)
  {
    n <= |items| &&
    (forall j :: 0 <= j < n ==> !items[j].kind.ProgramItem?) &&
    (forall j, c :: 0 <= j < n ==> env.otherBefore(items[j].kind, c))
  }

  /** Adding a window leaves such leading items where they are. */
  lemma TaskAddedKeepsHead(env: Env, minSize: int, maxSize: int, items: seq<Item>, task: TaskInfo, n: nat)
    requires minSize <= maxSize && LeadingFixed(env, items, n)
    ensures |TaskAdded(env, minSize, maxSize, items, task)| >= n
    ensures forall j :: 0 <= j < n ==> TaskAdded(env, minSize, maxSize, items, task)[j] == items[j]
  {
    if !AnyHasTask(items, task.wId) {
      var k := FirstAccepting(env, items, task);
      if k < |items| {
        assert k >= n;
      } else {
        var c := NewTaskCommand(env, task);
        var i := InsertionIndex(env, items, c);
        assert i >= n;
      }
    }
  }

  /** `removeTask`: the first item holding window `w` lets it go and, if it
      is then an unpinned program with no window, is erased; the flag says
      whether an item was erased. A window no item holds changes nothing. */
  function TaskRemoved(items: seq<Item>, w: WId): (r: (bool, seq<Item>))
    ensures !AnyHasTask(items, w) ==> r == (false, items)
    ensures |r.1| == if r.0 then |items| - 1 else |items|
    ensures AnyHasTask(items, w) ==>
      var i := FirstWithTask(items, w);
      var item := ItemRemoveTask(items[i], w).1;
      (r.0 <==> ShouldBeRemoved(item)) &&
      (r.0 ==> r.1 == EraseAt(items, i)) &&
      (!r.0 ==> r.1 == items[i := item])
  {
    var i := FirstWithTask(items, w);
    if i == |items| then (false, items)
    else
      var item := ItemRemoveTask(items[i], w).1;
      if ShouldBeRemoved(item) then (true, EraseAt(items, i))
      else (false, items[i := item])
  }

  /** A window that opened a new program, closed again, takes that program
      away and leaves the items as they were. */
  lemma NewProgramRoundTrip(env: Env, minSize: int, maxSize: int, items: seq<Item>, task: TaskInfo)
    requires minSize <= maxSize
    requires !AnyHasTask(items, task.wId) && FirstAccepting(env, items, task) == |items|
    requires env.sameCommand(NewTaskCommand(env, task), task.command)
    ensures TaskRemoved(TaskAdded(env, minSize, maxSize, items, task), task.wId) == (true, items)
  {
    var r := TaskAdded(env, minSize, maxSize, items, task);
    var i := InsertionIndex(env, items, NewTaskCommand(env, task));
    assert ItemHasTask(r[i], task.wId) by {
      assert r[i].kind.program.tasks[0] == TaskOf(task);
    }
    assert FirstWithTask(r, task.wId) == i;
    var e := EraseAt(r, i);
    assert e == items by {
      forall j | 0 <= j < |items|
        ensures e[j] == items[j]
      {
        if j >= i {
          assert e[j] == r[j + 1];
        }
      }
    }
  }

  /** The windows an item holds: a program's tasks, nothing for the rest. */
  function Windows(item: Item): seq<ProgramTask>
  {
    if item.kind.ProgramItem? then item.kind.program.tasks else []
  }

  /** A window that joined an existing program, closed again, leaves every
      item holding the windows it held before; no item is erased, provided
      the program was not itself due for removal. */
  lemma JoinedRoundTrip(env: Env, minSize: int, maxSize: int, items: seq<Item>, task: TaskInfo)
    requires minSize <= maxSize
    requires !AnyHasTask(items, task.wId)
    requires FirstAccepting(env, items, task) < |items|
    requires !ShouldBeRemoved(items[FirstAccepting(env, items, task)])
    ensures var r := TaskRemoved(TaskAdded(env, minSize, maxSize, items, task), task.wId);
      !r.0 && |r.1| == |items| &&
      forall j :: 0 <= j < |items| ==> Windows(r.1[j]) == Windows(items[j])
  {
    var k := FirstAccepting(env, items, task);
    var r := TaskAdded(env, minSize, maxSize, items, task);
    var p := items[k].kind.program;
    assert ItemHasTask(r[k], task.wId) by {
      var tasks := r[k].kind.program.tasks;
      assert tasks[|tasks| - 1] == TaskOf(task);
    }
    assert FirstWithTask(r, task.wId) == k;
    AddThenRemove(p, task, env.sameCommand);
    var removed := ItemRemoveTask(r[k], task.wId).1;
    assert removed.kind.program.tasks == p.tasks;
    assert removed.kind.program.pinned == p.pinned;
  }

  /** `updateTask`: the first program that holds the window and whose task
      command is the window's command takes the window's new state; no
      other item changes. */
  function TaskUpdated(env: Env, items: seq<Item>, task: TaskInfo): (r: seq<Item>)
    ensures |r| == |items|
    ensures var k := FirstUpdating(env, items, task);
      forall j :: 0 <= j < |items| && j != k ==> r[j] == items[j]
    ensures var k := FirstUpdating(env, items, task);
      k < |items| ==> r[k] == ItemUpdateTask(items[k], task, env.sameCommand).1
  {
    var k := FirstUpdating(env, items, task);
    if k < |items| then items[k := ItemUpdateTask(items[k], task, env.sameCommand).1] else items
  }

  /** Updating a window's state moves no window between items and keeps
      every icon table. */
  lemma TaskUpdatedKeepsWindows(env: Env, items: seq<Item>, task: TaskInfo, w: WId)
    ensures AnyHasTask(TaskUpdated(env, items, task), w) <==> AnyHasTask(items, w)
    ensures forall j :: 0 <= j < |items| ==> TaskUpdated(env, items, task)[j].icons == items[j].icons
  {
    var k := FirstUpdating(env, items, task);
    if k < |items| {
      UpdateKeepsWindows(items[k], task, env.sameCommand, w);
      ReplacedKeepsWindows(items, k, ItemUpdateTask(items[k], task, env.sameCommand).1, w);
    }
  }

  /** `refresh`: the first item due for removal is erased; when there is
      none the items stay as they are. */
  function Refreshed(items: seq<Item>): (r: seq<Item>)
    ensures FirstRemovable(items) == |items| ==> r == items
    ensures FirstRemovable(items) < |items| ==> r == EraseAt(items, FirstRemovable(items))
  {
    var i := FirstRemovable(items);
    if i < |items| then EraseAt(items, i) else items
  }

  /** A refresh takes no window away, since the item it erases holds
      none, and keeps every remaining icon table fitted. */
  lemma RefreshedKeepsWindows(items: seq<Item>, w: WId, minSize: int, maxSize: int)
    ensures AnyHasTask(Refreshed(items), w) <==> AnyHasTask(items, w)
    ensures ItemsFit(items, minSize, maxSize) ==> ItemsFit(Refreshed(items), minSize, maxSize)
  {
    var i := FirstRemovable(items);
    if i < |items| {
      ErasedKeepsWindows(items, i, w, minSize, maxSize);
    }
  }

  /** Erasing an item that does not hold `w` keeps whether some item holds
      it, and keeps the remaining tables fitted. */
  lemma ErasedKeepsWindows(items: seq<Item>, i: nat, w: WId, minSize: int, maxSize: int)
    requires i < |items| && !ItemHasTask(items[i], w)
    ensures AnyHasTask(EraseAt(items, i), w) <==> AnyHasTask(items, w)
    ensures ItemsFit(items, minSize, maxSize) ==> ItemsFit(EraseAt(items, i), minSize, maxSize)
  {
    var r := EraseAt(items, i);
    if AnyHasTask(items, w) {
      var h :| 0 <= h < |items| && ItemHasTask(items[h], w);
      var g := if h < i then h else h - 1;
      assert r[g] == items[h];
      HeldAt(r, g, w);
    }
    if AnyHasTask(r, w) {
      var h :| 0 <= h < |r| && ItemHasTask(r[h], w);
      var g := if h < i then h else h + 1;
      assert r[h] == items[g];
      HeldAt(items, g, w);
    }
    if ItemsFit(items, minSize, maxSize) {
      forall j | 0 <= j < |r|
        ensures TableFits(r[j].icons, minSize, maxSize)
      {
        if j >= i {
          assert r[j] == items[j + 1];
        }
      }
    }
  }

  /** The item `initLaunchers` makes of a launcher: a separator for the
      separator command, otherwise a pinned program with the launcher's
      name, icon and commands and no window yet. */
  function LauncherItem(env: Env, minSize: int, maxSize: int, launcher: LauncherConfig): (item: Item)
    requires minSize <= maxSize
    ensures launcher.command == SeparatorCommand ==> item.kind == Separator
    ensures launcher.command != SeparatorCommand ==>
      item.kind == ProgramItem(ProgramData(launcher.name, launcher.icon, launcher.command,
                                           launcher.taskCommand, true, [], false))
    ensures TableFits(item.icons, minSize, maxSize)
  {
    if launcher.command == SeparatorCommand then NewItem(Separator, env.pixmapOf, minSize, maxSize)
    else
      var data := ProgramData(launcher.name, launcher.icon, launcher.command, launcher.taskCommand, true, [], false);
      NewItem(ProgramItem(data), env.pixmapOf, minSize, maxSize)
  }

  /** The items of a dock's launchers, one per launcher in order. */
  function LauncherItems(env: Env, minSize: int, maxSize: int, launchers: seq<LauncherConfig>)
    : (r: seq<Item>)
    requires minSize <= maxSize
    ensures |r| == |launchers|
    ensures forall j {:trigger r[j]} :: 0 <= j < |launchers| ==> r[j] == LauncherItem(env, minSize, maxSize, launchers[j])
  {
    seq(|launchers|, j requires 0 <= j < |launchers| => LauncherItem(env, minSize, maxSize, launchers[j]))
  }

  /** Launcher items hold no window and none is due for removal, so a
      refresh keeps them all. */
  lemma LauncherItemsStay(env: Env, minSize: int, maxSize: int, launchers: seq<LauncherConfig>, w: WId)
    requires minSize <= maxSize
    ensures !AnyHasTask(LauncherItems(env, minSize, maxSize, launchers), w)
    ensures Refreshed(LauncherItems(env, minSize, maxSize, launchers)) == LauncherItems(env, minSize, maxSize, launchers)
  {
    var r := LauncherItems(env, minSize, maxSize, launchers);
    assert forall j :: 0 <= j < |r| ==> !ItemHasTask(r[j], w) && !ShouldBeRemoved(r[j]);
  }

  /** A new dock's launchers make a separator at position eight and pinned
      programs everywhere else. */
  lemma DefaultLauncherItems(env: Env, minSize: int, maxSize: int, showDesktopCommand: string,
                             taskCommandOf: string -> string)
    requires minSize <= maxSize && showDesktopCommand != SeparatorCommand
    ensures var r := LauncherItems(env, minSize, maxSize, DefaultLaunchers(showDesktopCommand, taskCommandOf));
      |r| == 10 && r[7].kind == Separator &&
      forall j :: 0 <= j < 10 && j != 7 ==> r[j].kind.ProgramItem? && r[j].kind.program.pinned
  {
    var launchers := DefaultLaunchers(showDesktopCommand, taskCommandOf);
    var r := LauncherItems(env, minSize, maxSize, launchers);
    DefaultSeparator(showDesktopCommand, taskCommandOf);
    forall j | 0 <= j < 10 && j != 7
      ensures r[j].kind.ProgramItem? && r[j].kind.program.pinned
    {
      assert r[j] == LauncherItem(env, minSize, maxSize, launchers[j]);
    }
    assert r[7] == LauncherItem(env, minSize, maxSize, launchers[7]);
  }

  /** `initTasks`: each window of `tasks` offered to the items in turn. */
  function TasksAdded(env: Env, minSize: int, maxSize: int, items: seq<Item>, tasks: seq<TaskInfo>)
    : (r: seq<Item>)
    requires minSize <= maxSize
    ensures |items| <= |r| <= |items| + |tasks|
    decreases |tasks|
  {
    if |tasks| == 0 then items
    else TasksAdded(env, minSize, maxSize, TaskAdded(env, minSize, maxSize, items, tasks[0]), tasks[1..])
  }

  /** Offering windows in turn keeps the leading menu and pager items in
      place and every icon table fitted. */
  lemma {:induction false} TasksAddedKeepHead(env: Env, minSize: int, maxSize: int, items: seq<Item>,
                                              tasks: seq<TaskInfo>, n: nat)
    requires minSize <= maxSize && LeadingFixed(env, items, n) && ItemsFit(items, minSize, maxSize)
    ensures LeadingFixed(env, TasksAdded(env, minSize, maxSize, items, tasks), n)
    ensures forall j :: 0 <= j < n ==> TasksAdded(env, minSize, maxSize, items, tasks)[j] == items[j]
    ensures ItemsFit(TasksAdded(env, minSize, maxSize, items, tasks), minSize, maxSize)
    decreases |tasks|
  {
    if |tasks| > 0 {
      var next := TaskAdded(env, minSize, maxSize, items, tasks[0]);
      TaskAddedKeepsHead(env, minSize, maxSize, items, tasks[0], n);
      TaskAddedFits(env, minSize, maxSize, items, tasks[0]);
      assert LeadingFixed(env, next, n) by {
        assert forall j :: 0 <= j < n ==> next[j] == items[j];
      }
      TasksAddedKeepHead(env, minSize, maxSize, next, tasks[1..], n);
    }
  }

  /** After `initTasks` every window offered is held by some item,
      provided a new program for each would take it. */
  lemma {:induction false} TasksAddedHoldAll(env: Env, minSize: int, maxSize: int, items: seq<Item>,
                                             tasks: seq<TaskInfo>)
    requires minSize <= maxSize
    requires forall t :: t in tasks ==> env.sameCommand(NewTaskCommand(env, t), t.command)
    ensures forall t :: t in tasks ==> AnyHasTask(TasksAdded(env, minSize, maxSize, items, tasks), t.wId)
    decreases |tasks|
  {
    if |tasks| > 0 {
      var next := TaskAdded(env, minSize, maxSize, items, tasks[0]);
      var r := TasksAdded(env, minSize, maxSize, next, tasks[1..]);
      assert forall t :: t in tasks[1..] ==> t in tasks;
      TasksAddedHoldAll(env, minSize, maxSize, next, tasks[1..]);
      TaskAddedHolds(env, minSize, maxSize, items, tasks[0]);
      TasksAddedKeepWindows(env, minSize, maxSize, next, tasks[1..], tasks[0].wId);
      forall t | t in tasks
        ensures AnyHasTask(r, t.wId)
      {
        if t != tasks[0] {
          assert t in tasks[1..];
        }
      }
    }
  }

  /** Offering windows in turn never takes a window away. */
  lemma {:induction false} TasksAddedKeepWindows(env: Env, minSize: int, maxSize: int, items: seq<Item>,
                                                 tasks: seq<TaskInfo>, w: WId)
    requires minSize <= maxSize && AnyHasTask(items, w)
    ensures AnyHasTask(TasksAdded(env, minSize, maxSize, items, tasks), w)
    decreases |tasks|
  {
    if |tasks| > 0 {
      TaskAddedKeepsWindows(env, minSize, maxSize, items, tasks[0], w);
      TasksAddedKeepWindows(env, minSize, maxSize, TaskAdded(env, minSize, maxSize, items, tasks[0]), tasks[1..], w);
    }
  }

  /** The first `keep` items followed by `tail`: the items a reload
      starts from, before any window is offered. */
  function KeepThen(items: seq<Item>, keep: nat, tail: seq<Item>): (r: seq<Item>)
    requires keep <= |items|
    ensures |r| == keep + |tail|
    ensures forall j :: 0 <= j < keep ==> r[j] == items[j]
    ensures forall j :: 0 <= j < |tail| ==> r[keep + j] == tail[j]
  {
    items[..keep] + tail
  }

  /** The items a reload starts from: the first `keep` items, then the
      launchers' items. */
  function ReloadBase(env: Env, minSize: int, maxSize: int, items: seq<Item>, keep: nat,
                      launchers: seq<LauncherConfig>): seq<Item>
    requires minSize <= maxSize && keep <= |items|
  {
    KeepThen(items, keep, LauncherItems(env, minSize, maxSize, launchers))
  }

  /** `reloadTasks`: the first `keep` items (menu and pager) stay, the
      launchers follow, then the windows are offered in turn, then the
      clock if shown. */
  function Reloaded(env: Env, minSize: int, maxSize: int, items: seq<Item>, keep: nat,
                    launchers: seq<LauncherConfig>, tasks: seq<TaskInfo>, showClock: bool): (r: seq<Item>)
    requires minSize <= maxSize && keep <= |items|
    ensures |r| >= keep + |launchers| + (if showClock then 1 else 0)
  {
    var withTasks := TasksAdded(env, minSize, maxSize, ReloadBase(env, minSize, maxSize, items, keep, launchers), tasks);
    if showClock then withTasks + [NewItem(Clock, env.pixmapOf, minSize, maxSize)] else withTasks
  }

  /** The reload's starting items keep the menu and pager first and every
      icon table fitted. */
  lemma ReloadBaseFits(env: Env, minSize: int, maxSize: int, items: seq<Item>, keep: nat,
                       launchers: seq<LauncherConfig>)
    requires minSize <= maxSize && keep <= |items| && ItemsFit(items, minSize, maxSize)
    ensures LeadingFixed(env, items, keep) ==> LeadingFixed(env, ReloadBase(env, minSize, maxSize, items, keep, launchers), keep)
    ensures ItemsFit(ReloadBase(env, minSize, maxSize, items, keep, launchers), minSize, maxSize)
  {
    var base := ReloadBase(env, minSize, maxSize, items, keep, launchers);
    forall j | 0 <= j < |base|
      ensures TableFits(base[j].icons, minSize, maxSize)
    {
      if j < keep {
        assert base[j] == items[j];
      } else {
        var l := LauncherItems(env, minSize, maxSize, launchers);
        var t := j - keep;
        assert base[keep + t] == l[t];
      }
    }
  }

  /** Appending an item that fits keeps the windows held and the tables
      fitted. */
  lemma AppendedKeeps(items: seq<Item>, item: Item, minSize: int, maxSize: int, ws: set<WId>)
    requires TableFits(item.icons, minSize, maxSize) && ItemsFit(items, minSize, maxSize)
    requires forall w :: w in ws ==> AnyHasTask(items, w)
    ensures ItemsFit(items + [item], minSize, maxSize)
    ensures forall w :: w in ws ==> AnyHasTask(items + [item], w)
  {
    var r := items + [item];
    forall w | w in ws
      ensures AnyHasTask(r, w)
    {
      var h :| 0 <= h < |items| && ItemHasTask(items[h], w);
      assert r[h] == items[h];
      HeldAt(r, h, w);
    }
    forall j | 0 <= j < |r|
      ensures TableFits(r[j].icons, minSize, maxSize)
    {
      if j < |items| {
        assert r[j] == items[j];
      }
    }
  }

  /** A reload keeps the menu and pager items first, holds every window
      offered (when new programs take their windows), ends with the clock
      when shown, and keeps every icon table fitted. */
  lemma ReloadedKeepsHead(env: Env, minSize: int, maxSize: int, items: seq<Item>, keep: nat,
                          launchers: seq<LauncherConfig>, tasks: seq<TaskInfo>, showClock: bool)
    requires minSize <= maxSize && LeadingFixed(env, items, keep) && ItemsFit(items, minSize, maxSize)
    requires forall t :: t in tasks ==> env.sameCommand(NewTaskCommand(env, t), t.command)
    ensures var r := Reloaded(env, minSize, maxSize, items, keep, launchers, tasks, showClock);
      (forall j :: 0 <= j < keep ==> r[j] == items[j]) &&
      (forall t :: t in tasks ==> AnyHasTask(r, t.wId)) &&
      (showClock ==> r[|r| - 1].kind == Clock) &&
      ItemsFit(r, minSize, maxSize)
  {
    var base := ReloadBase(env, minSize, maxSize, items, keep, launchers);
    ReloadBaseFits(env, minSize, maxSize, items, keep, launchers);
    TasksAddedKeepHead(env, minSize, maxSize, base, tasks, keep);
    TasksAddedHoldAll(env, minSize, maxSize, base, tasks);
    var withTasks := TasksAdded(env, minSize, maxSize, base, tasks);
    if showClock {
      var clock := NewItem(Clock, env.pixmapOf, minSize, maxSize);
      var ws := set t | t in tasks :: t.wId;
      AppendedKeeps(withTasks, clock, minSize, maxSize, ws);
      var r := withTasks + [clock];
      assert forall j :: 0 <= j < keep ==> r[j] == withTasks[j];
      assert forall t :: t in tasks ==> t.wId in ws;
    }
  }

  /** Whatever the items kept, a reload keeps every icon table fitted. */
  lemma ReloadedFits(env: Env, minSize: int, maxSize: int, items: seq<Item>, keep: nat,
                     launchers: seq<LauncherConfig>, tasks: seq<TaskInfo>, showClock: bool)
    requires minSize <= maxSize && keep <= |items| && ItemsFit(items, minSize, maxSize)
    ensures ItemsFit(Reloaded(env, minSize, maxSize, items, keep, launchers, tasks, showClock), minSize, maxSize)
  {
    var base := ReloadBase(env, minSize, maxSize, items, keep, launchers);
    ReloadBaseFits(env, minSize, maxSize, items, keep, launchers);
    TasksAddedKeepHead(env, minSize, maxSize, base, tasks, 0);
    if showClock {
      var withTasks := TasksAdded(env, minSize, maxSize, base, tasks);
      AppendedKeeps(withTasks, NewItem(Clock, env.pixmapOf, minSize, maxSize), minSize, maxSize, {});
    }
  }

  /** The loops of `addTask`: look for an item holding the window, then
      for a program taking it, and otherwise insert a new program after
      the items that sort before its task command. */
  method AddTask(env: Env, minSize: int, maxSize: int, items: seq<Item>, task: TaskInfo)
    returns (r: seq<Item>)
    requires minSize <= maxSize
    ensures r == TaskAdded(env, minSize, maxSize, items, task)
  {
    var i := 0;
    while i < |items|
      invariant 0 <= i <= |items|
      invariant forall j :: 0 <= j < i ==> !ItemHasTask(items[j], task.wId)
    {
      if ItemHasTask(items[i], task.wId) {
        HeldAt(items, i, task.wId);
        return items;
      }
      i := i + 1;
    }
    assert FirstWithTask(items, task.wId) == |items|;
    var k := 0;
    while k < |items|
      invariant 0 <= k <= |items|
      invariant forall j :: 0 <= j < k ==> !Accepts(env, items[j], task)
    {
      var (accepted, item) := ItemAddTask(items[k], task, env.sameCommand);
      if accepted {
        assert FirstAccepting(env, items, task) == k;
        return items[k := item];
      }
      k := k + 1;
    }
    assert FirstAccepting(env, items, task) == |items|;
    var data := NewProgramData(env, task);
    var command := data.taskCommand;
    var n := 0;
    while n < |items| && ItemBeforeTask(items[n], command, env.otherBefore)
      invariant 0 <= n <= |items|
      invariant forall j :: 0 <= j < n ==> ItemBeforeTask(items[j], command, env.otherBefore)
    {
      n := n + 1;
    }
    assert n == InsertionIndex(env, items, command);
    var created := NewItem(ProgramItem(data), env.pixmapOf, minSize, maxSize);
    r := InsertAt(items, n, created);
    var (_, item) := ItemAddTask(r[n], task, env.sameCommand);
    r := r[n := item];
    InsertThenReplace(items, n, created, item);
  }

  /** Replacing an item just inserted is inserting its replacement. */
  lemma InsertThenReplace(items: seq<Item>, i: nat, a: Item, b: Item)
    requires i <= |items|
    ensures InsertAt(items, i, a)[i := b] == InsertAt(items, i, b)
  {
    var r, t := InsertAt(items, i, a)[i := b], InsertAt(items, i, b);
    forall j | 0 <= j < |t|
      ensures r[j] == t[j]
    {
    }
  }

  /** The loop of `removeTask`: the first item that lets the window go is
      erased if it is then due for removal. */
  method RemoveTask(items: seq<Item>, w: WId) returns (erased: bool, r: seq<Item>)
    ensures (erased, r) == TaskRemoved(items, w)
  {
    var i := 0;
    while i < |items|
      invariant 0 <= i <= |items|
      invariant forall j :: 0 <= j < i ==> !ItemHasTask(items[j], w)
    {
      var (removed, item) := ItemRemoveTask(items[i], w);
      if removed {
        assert FirstWithTask(items, w) == i;
        if ShouldBeRemoved(item) {
          return true, EraseAt(items, i);
        }
        return false, items[i := item];
      }
      i := i + 1;
    }
    assert FirstWithTask(items, w) == |items|;
    return false, items;
  }

  /** The loop of `updateTask`: the first program that takes the window's
      new state keeps it. */
  method UpdateTask(env: Env, items: seq<Item>, task: TaskInfo) returns (r: seq<Item>)
    ensures r == TaskUpdated(env, items, task)
  {
    var i := 0;
    while i < |items|
      invariant 0 <= i <= |items|
      invariant forall j :: 0 <= j < i ==> !Updates(env, items[j], task)
    {
      var (updated, item) := ItemUpdateTask(items[i], task, env.sameCommand);
      if updated {
        assert FirstUpdating(env, items, task) == i;
        return items[i := item];
      }
      i := i + 1;
    }
    assert FirstUpdating(env, items, task) == |items|;
    return items;
  }

  /** The loop of `refresh`: the first item due for removal is erased; the
      flag says whether one was. */
  method Refresh(items: seq<Item>) returns (erased: bool, r: seq<Item>)
    ensures r == Refreshed(items)
    ensures erased <==> exists j :: 0 <= j < |items| && ShouldBeRemoved(items[j])
  {
    var i := 0;
    while i < |items|
      invariant 0 <= i <= |items|
      invariant forall j :: 0 <= j < i ==> !ShouldBeRemoved(items[j])
    {
      if ShouldBeRemoved(items[i]) {
        assert FirstRemovable(items) == i;
        return true, EraseAt(items, i);
      }
      i := i + 1;
    }
    assert FirstRemovable(items) == |items|;
    return false, items;
  }

  /** The loop of `initLaunchers`: one item per launcher, appended in
      order. */
  method InitLaunchers(env: Env, minSize: int, maxSize: int, items: seq<Item>, launchers: seq<LauncherConfig>)
    returns (r: seq<Item>)
    requires minSize <= maxSize
    ensures r == items + LauncherItems(env, minSize, maxSize, launchers)
  {
    r := items;
    var i := 0;
    while i < |launchers|
      invariant 0 <= i <= |launchers| && |r| == |items| + i
      invariant forall j :: 0 <= j < |items| ==> r[j] == items[j]
      invariant forall j :: 0 <= j < i ==> r[|items| + j] == LauncherItem(env, minSize, maxSize, launchers[j])
    {
      var launcher := launchers[i];
      if launcher.command == SeparatorCommand {
        r := r + [NewItem(Separator, env.pixmapOf, minSize, maxSize)];
      } else {
        var data := ProgramData(launcher.name, launcher.icon, launcher.command, launcher.taskCommand, true, [], false);
        r := r + [NewItem(ProgramItem(data), env.pixmapOf, minSize, maxSize)];
      }
      i := i + 1;
    }
    var l := LauncherItems(env, minSize, maxSize, launchers);
    assert forall j :: 0 <= j < |l| ==> r[|items| + j] == l[j];
  }

  /** The loop of `initTasks`: each window offered in turn. */
  method InitTasks(env: Env, minSize: int, maxSize: int, items: seq<Item>, tasks: seq<TaskInfo>)
    returns (r: seq<Item>)
    requires minSize <= maxSize
    ensures r == TasksAdded(env, minSize, maxSize, items, tasks)
  {
    r := items;
    var i := 0;
    while i < |tasks|
      invariant 0 <= i <= |tasks|
      invariant TasksAdded(env, minSize, maxSize, r, tasks[i..]) == TasksAdded(env, minSize, maxSize, items, tasks)
    {
      assert tasks[i..][1..] == tasks[i + 1..];
      r := AddTask(env, minSize, maxSize, r, tasks[i]);
      i := i + 1;
    }
    assert tasks[i..] == [];
  }
}
