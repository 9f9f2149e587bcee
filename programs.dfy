/** A program item of the dock: a launcher that also groups the open windows
    (tasks) of that application, in the order they were added, and blinks
    while one of them demands attention.

    The value functions on `ProgramData` state what each operation does;
    the class `Program` keeps the same state in fields and its methods are
    proved to agree with those functions. The dock panel applies the same
    functions to the program data held in its items. */
module Programs {
  import opened Text
  import opened Arith

  /** An X11 window id. */
  type WId = int

  /** One open window of the program. */
  datatype ProgramTask = ProgramTask(wId: WId, name: string, demandsAttention: bool)

  /** What the window system reports about an open window. */
  datatype TaskInfo = TaskInfo(wId: WId, program: string, name: string, command: string,
                               demandsAttention: bool)

  datatype ProgramData = ProgramData(
    name: string,
    iconName: string,
    command: string,
    taskCommand: string,
    pinned: bool,
    tasks: seq<ProgramTask>,
    demandsAttention: bool)

  /** The launcher change `pinUnpin` asks the dock model for. */
  datatype PinRequest =
    | AddLauncher(name: string, icon: string, command: string)
    | RemoveLauncher(command: string)

  function TaskOf(task: TaskInfo): (t: ProgramTask)
    ensures t.wId == task.wId && t.name == task.name
    ensures t.demandsAttention == task.demandsAttention
  {
    ProgramTask(task.wId, task.name, task.demandsAttention)
  }

  predicate HasTaskIn(tasks: seq<ProgramTask>, w: WId)
  {
    exists i :: 0 <= i < |tasks| && tasks[i].wId == w
  }

  predicate AnyDemandsAttention(tasks: seq<ProgramTask>)
  {
    exists i :: 0 <= i < |tasks| && tasks[i].demandsAttention
  }

  /** The index of the first task of window `w`, or `|tasks|` if there is none. */
  function FirstTaskWith(tasks: seq<ProgramTask>, w: WId): (i: nat)
    ensures i <= |tasks|
    ensures forall j :: 0 <= j < i ==> tasks[j].wId != w
    ensures i < |tasks| ==> tasks[i].wId == w
    ensures i < |tasks| <==> HasTaskIn(tasks, w)
  {
    if |tasks| == 0 then 0
    else if tasks[0].wId == w then 0
    else
      var k := FirstTaskWith(tasks[1..], w);
      assert HasTaskIn(tasks[1..], w) ==> HasTaskIn(tasks, w) by {
        if HasTaskIn(tasks[1..], w) {
          var j :| 0 <= j < |tasks[1..]| && tasks[1..][j].wId == w;
          assert tasks[j + 1].wId == w;
        }
      }
      1 + k
  }

  /** The blinking flag never lags behind the tasks: if a task demands
      attention, so does the program. */
  predicate AttentionCovered(p: ProgramData)
  {
    AnyDemandsAttention(p.tasks) ==> p.demandsAttention
  }

  /** `addTask`: the program takes the window exactly when its task command
      is the window's command, appending it as its last task; a window that
      demands attention switches the program's flag on. */
  function WithTaskAdded(p: ProgramData, task: TaskInfo, sameCommand: (string, string) -> bool)
    : (r: (bool, ProgramData))
    ensures r.0 <==> sameCommand(p.taskCommand, task.command)
    ensures r.0 ==> r.1.tasks == p.tasks + [TaskOf(task)] && HasTaskIn(r.1.tasks, task.wId)
    ensures r.0 ==> r.1.demandsAttention == (p.demandsAttention || task.demandsAttention)
    ensures !r.0 ==> r.1 == p
    ensures r.1.(tasks := p.tasks, demandsAttention := p.demandsAttention) == p
    ensures AttentionCovered(p) ==> AttentionCovered(r.1)
  {
    if sameCommand(p.taskCommand, task.command) then
      var tasks := p.tasks + [TaskOf(task)];
      assert tasks[|p.tasks|].wId == task.wId;
      var q := p.(tasks := tasks, demandsAttention := p.demandsAttention || task.demandsAttention);
      assert AnyDemandsAttention(tasks) ==> AnyDemandsAttention(p.tasks) || task.demandsAttention by {
        if AnyDemandsAttention(tasks) {
          var i :| 0 <= i < |tasks| && tasks[i].demandsAttention;
          if i < |p.tasks| { assert p.tasks[i].demandsAttention; }
        }
      }
      (true, q)
    else
      (false, p)
  }

  /** `removeTask`: drops the first task of window `w`, if there is one, and
      reports whether it did; nothing else moves. */
  function WithTaskRemoved(p: ProgramData, w: WId): (r: (bool, ProgramData))
    ensures r.0 <==> HasTaskIn(p.tasks, w)
    ensures r.0 ==> |r.1.tasks| == |p.tasks| - 1
    ensures r.0 ==> var i := FirstTaskWith(p.tasks, w);
      r.1.tasks == p.tasks[..i] + p.tasks[i + 1..]
    ensures !r.0 ==> r.1 == p
    ensures r.1.(tasks := p.tasks) == p
    ensures AttentionCovered(p) ==> AttentionCovered(r.1)
  {
    var i := FirstTaskWith(p.tasks, w);
    if i < |p.tasks| then
      var tasks := p.tasks[..i] + p.tasks[i + 1..];
      assert AnyDemandsAttention(tasks) ==> AnyDemandsAttention(p.tasks) by {
        if AnyDemandsAttention(tasks) {
          var j :| 0 <= j < |tasks| && tasks[j].demandsAttention;
          if j < i { assert p.tasks[j].demandsAttention; }
          else { assert p.tasks[j + 1].demandsAttention; }
        }
      }
      (true, p.(tasks := tasks))
    else
      (false, p)
  }

  /** `updateTask`: for a window of this program that it already has, copies
      the window's demands-attention state into that (first) task and then
      recomputes the program's flag from all tasks. */
  function WithTaskUpdated(p: ProgramData, task: TaskInfo, sameCommand: (string, string) -> bool)
    : (r: (bool, ProgramData))
    ensures r.0 <==> sameCommand(p.taskCommand, task.command) && HasTaskIn(p.tasks, task.wId)
    ensures !r.0 ==> r.1 == p
    ensures r.0 ==> var i := FirstTaskWith(p.tasks, task.wId);
      |r.1.tasks| == |p.tasks| &&
      (forall j :: 0 <= j < |p.tasks| && j != i ==> r.1.tasks[j] == p.tasks[j]) &&
      r.1.tasks[i] == p.tasks[i].(demandsAttention := task.demandsAttention)
    ensures r.0 ==> (r.1.demandsAttention <==> AnyDemandsAttention(r.1.tasks))
    ensures r.1.(tasks := p.tasks, demandsAttention := p.demandsAttention) == p
  {
    if !sameCommand(p.taskCommand, task.command) then (false, p)
    else
      var i := FirstTaskWith(p.tasks, task.wId);
      if i == |p.tasks| then (false, p)
      else
        var tasks := p.tasks[i := p.tasks[i].(demandsAttention := task.demandsAttention)];
        (true, p.(tasks := tasks, demandsAttention := AnyDemandsAttention(tasks)))
  }

  /** `beforeTask`: a new program for `command` goes after this one exactly
      when this program's task command sorts strictly before it. */
  function BeforeTask(p: ProgramData, command: string): (r: bool)
    ensures r ==> !LexLess(command, p.taskCommand) && command != p.taskCommand
    ensures !r && command != p.taskCommand ==> LexLess(command, p.taskCommand)
  {
    if LexLess(p.taskCommand, command) then
      assert !LexLess(command, p.taskCommand) && command != p.taskCommand by {
        LexLessIrreflexive(command);
        if LexLess(command, p.taskCommand) {
          LexLessTransitive(command, p.taskCommand, command);
        }
      }
      true
    else
      assert command != p.taskCommand ==> LexLess(command, p.taskCommand) by {
        if command != p.taskCommand { LexLessTotal(command, p.taskCommand); }
      }
      false
  }

  /** `getLabel`: the plain label for at most one window, otherwise the label
      followed by ` (<n> instances)`, where `<n>` reads back as the number of
      windows. */
  function LabelFor(name: string, taskCount: nat): (s: string)
    ensures taskCount <= 1 ==> s == name
    ensures taskCount > 1 ==>
      |s| > |name| + 13 && s[..|name| + 2] == name + " (" &&
      s[|s| - 11..] == " instances)" &&
      IsDigits(s[|name| + 2..|s| - 11]) &&
      DecimalValue(s[|name| + 2..|s| - 11]) == taskCount
  {
    if taskCount > 1 then
      var digits := DecimalString(taskCount);
      var s := name + " (" + digits + " instances)";
      assert s[|name| + 2..|s| - 11] == digits;
      assert s[..|name| + 2] == name + " (";
      DecimalRoundTrip(taskCount);
      s
    else name
  }

  /** A left click on a program with several windows of which `active` is the
      active one activates the next window, wrapping round after the last. */
  function NextTask(active: int, taskCount: int): (r: int)
    requires 0 <= active < taskCount
    ensures 0 <= r < taskCount
    ensures r == (active + 1) % taskCount
  {
    if active < taskCount - 1 then active + 1 else 0
  }

  /** The window active after `k` such clicks. */
  function Cycle(active: int, taskCount: int, k: nat): (r: int)
    requires 0 <= active < taskCount
    ensures 0 <= r < taskCount
  {
    if k == 0 then active else NextTask(Cycle(active, taskCount, k - 1), taskCount)
  }

  /** Repeated clicks visit the windows round-robin: `k` clicks move `k`
      places along. */
  lemma {:induction false} CycleIsRotation(active: int, taskCount: int, k: nat)
    requires 0 <= active < taskCount
    ensures Cycle(active, taskCount, k) == (active + k) % taskCount
  {
    if k == 0 {
      ModOfMultiplePlus(0, taskCount, active);
    } else {
      CycleIsRotation(active, taskCount, k - 1);
      ModSucc(active + k - 1, taskCount);
    }
  }

  /** How many clicks lead from window `active` to window `j`. */
  function ClicksTo(active: int, j: int, taskCount: int): (k: nat)
    requires 0 <= active < taskCount && 0 <= j < taskCount
    ensures k < taskCount
  {
    if j >= active then j - active else j + taskCount - active
  }

  /** `taskCount` clicks come back to the active window, and every window
      is reached on the way. */
  lemma CycleComesBack(active: int, taskCount: int)
    requires 0 <= active < taskCount
    ensures Cycle(active, taskCount, taskCount as nat) == active
    ensures forall j :: 0 <= j < taskCount ==>
      Cycle(active, taskCount, ClicksTo(active, j, taskCount)) == j
  {
    CycleIsRotation(active, taskCount, taskCount as nat);
    ModOfMultiplePlus(1, taskCount, active);
    forall j | 0 <= j < taskCount
      ensures Cycle(active, taskCount, ClicksTo(active, j, taskCount)) == j
    {
      CycleIsRotation(active, taskCount, ClicksTo(active, j, taskCount));
      if j >= active {
        ModOfMultiplePlus(0, taskCount, j);
      } else {
        ModOfMultiplePlus(1, taskCount, j);
      }
    }
  }

  /** Adding a window the program did not have and removing it again gives
      back the original task list. */
  lemma AddThenRemove(p: ProgramData, task: TaskInfo, sameCommand: (string, string) -> bool)
    requires !HasTaskIn(p.tasks, task.wId)
    requires WithTaskAdded(p, task, sameCommand).0
    ensures WithTaskRemoved(WithTaskAdded(p, task, sameCommand).1, task.wId).1.tasks == p.tasks
  {
    var q := WithTaskAdded(p, task, sameCommand).1;
    var i := FirstTaskWith(q.tasks, task.wId);
    assert forall j :: 0 <= j < |p.tasks| ==> q.tasks[j] == p.tasks[j];
    assert q.tasks[..i] == p.tasks;
  }

  class Program {
    var name: string
    var iconName: string
    var command: string
    var taskCommand: string
    var pinned: bool
    var tasks: seq<ProgramTask>
    var demandsAttention: bool
    /** Whether the blink timer runs. */
    var attentionTimerActive: bool
    /** `areTheSameCommand`, which is not part of this model. */
    const sameCommand: (string, string) -> bool

    function Data(): ProgramData
      reads this
    {
      ProgramData(name, iconName, command, taskCommand, pinned, tasks, demandsAttention)
    }

    /** The blink timer runs exactly while the program demands attention. */
    ghost predicate Valid()
      reads this
    {
      attentionTimerActive == demandsAttention
    }

    constructor (name: string, iconName: string, command: string, taskCommand: string,
                 pinned: bool, sameCommand: (string, string) -> bool)
      ensures Valid() && AttentionCovered(Data())
      ensures Data() == ProgramData(name, iconName, command, taskCommand, pinned, [], false)
      ensures this.sameCommand == sameCommand
    {
      this.name := name;
      this.iconName := iconName;
      this.command := command;
      this.taskCommand := taskCommand;
      this.pinned := pinned;
      tasks := [];
      demandsAttention := false;
      attentionTimerActive := false;
      this.sameCommand := sameCommand;
    }

    method HasTask(w: WId) returns (found: bool)
      ensures found <==> HasTaskIn(tasks, w)
    {
      var i := 0;
      while i < |tasks|
        invariant 0 <= i <= |tasks|
        invariant forall j :: 0 <= j < i ==> tasks[j].wId != w
      {
        if tasks[i].wId == w {
          return true;
        }
        i := i + 1;
      }
      return false;
    }

    /** Switches the flag, starting or stopping the blink timer with it; a
        call that does not change the flag changes nothing. */
    method SetDemandsAttention(value: bool)
      requires Valid()
      modifies this
      ensures Valid() && Data() == old(Data()).(demandsAttention := value)
      ensures old(demandsAttention) == value ==> attentionTimerActive == old(attentionTimerActive)
    {
      if demandsAttention == value {
        return;
      }
      demandsAttention := value;
      if demandsAttention {
        attentionTimerActive := true;
      } else if attentionTimerActive {
        attentionTimerActive := false;
      }
    }

    method UpdateDemandsAttention()
      requires Valid()
      modifies this
      ensures Valid() && Data() == old(Data()).(demandsAttention := AnyDemandsAttention(tasks))
    {
      var i := 0;
      while i < |tasks|
        invariant 0 <= i <= |tasks|
        invariant forall j :: 0 <= j < i ==> !tasks[j].demandsAttention
      {
        if tasks[i].demandsAttention {
          SetDemandsAttention(true);
          return;
        }
        i := i + 1;
      }
      SetDemandsAttention(false);
    }

    method AddTask(task: TaskInfo) returns (accepted: bool)
      requires Valid()
      modifies this
      ensures Valid()
      ensures (accepted, Data()) == WithTaskAdded(old(Data()), task, sameCommand)
    {
      if sameCommand(taskCommand, task.command) {
        tasks := tasks + [TaskOf(task)];
        if task.demandsAttention {
          SetDemandsAttention(true);
        }
        return true;
      }
      return false;
    }

    method UpdateTask(task: TaskInfo) returns (updated: bool)
      requires Valid()
      modifies this
      ensures Valid()
      ensures (updated, Data()) == WithTaskUpdated(old(Data()), task, sameCommand)
    {
      if !sameCommand(taskCommand, task.command) {
        return false;
      }
      var i := 0;
      while i < |tasks|
        invariant 0 <= i <= |tasks|
        invariant forall j :: 0 <= j < i ==> tasks[j].wId != task.wId
        invariant Data() == old(Data()) && Valid()
      {
        if tasks[i].wId == task.wId {
          assert i == FirstTaskWith(tasks, task.wId);
          tasks := tasks[i := tasks[i].(demandsAttention := task.demandsAttention)];
          UpdateDemandsAttention();
          return true;
        }
        i := i + 1;
      }
      return false;
    }

    method RemoveTask(w: WId) returns (removed: bool)
      modifies this
      ensures (removed, Data()) == WithTaskRemoved(old(Data()), w)
      ensures attentionTimerActive == old(attentionTimerActive)
    {
      var i := 0;
      while i < |tasks|
        invariant 0 <= i <= |tasks|
        invariant forall j :: 0 <= j < i ==> tasks[j].wId != w
        invariant Data() == old(Data()) && attentionTimerActive == old(attentionTimerActive)
      {
        if tasks[i].wId == w {
          assert i == FirstTaskWith(tasks, w);
          tasks := tasks[..i] + tasks[i + 1..];
          return true;
        }
        i := i + 1;
      }
      return false;
    }

    /** Flips the pinned state and returns the launcher change that goes with
        it: pinning adds a launcher for this program, unpinning removes it. */
    method PinUnpin() returns (request: PinRequest)
      modifies this
      ensures Data() == old(Data()).(pinned := !old(pinned))
      ensures attentionTimerActive == old(attentionTimerActive)
      ensures request.AddLauncher? <==> pinned
      ensures request == (if pinned then AddLauncher(name, iconName, command)
                          else RemoveLauncher(command))
    {
      pinned := !pinned;
      if pinned {
        request := AddLauncher(name, iconName, command);
      } else {
        request := RemoveLauncher(command);
      }
    }

    function GetLabel(): string
      reads this
    {
      LabelFor(name, |tasks|)
    }

    function BeforeTaskCommand(command: string): bool
      reads this
    {
      BeforeTask(Data(), command)
    }
  }
}
