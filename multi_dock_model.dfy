/** The launchers of a dock: what a `.desktop` file describes, the ten
    launchers a new dock starts with, and the numbered file names under
    which a dock's launchers are saved. */
module Launchers {
  import opened Text

  /** A launcher: the name and icon it shows, the command it runs and the
      command its windows report. */
  datatype LauncherConfig = LauncherConfig(name: string, icon: string, command: string, taskCommand: string)

  /** The command of the launcher that stands for a separator. */
  const SeparatorCommand := "SEPARATOR"

  /** The name, icon and command of the default launchers, in order; the
      first runs the show-desktop command given to `DefaultLaunchers`. */
  function DefaultTable(showDesktopCommand: string): (t: seq<(string, string, string)>)
    ensures |t| == 10
  {
    [("Show Desktop", "user-desktop", showDesktopCommand),
     ("Terminal", "utilities-terminal", "konsole"),
     ("File Manager", "system-file-manager", "dolphin"),
     ("Text Editor", "kate", "kate"),
     ("Web Browser", "internet-web-browser", "firefox"),
     ("Multimedia Player", "applications-multimedia", "dragon"),
     ("System Settings", "preferences-system", "systemsettings5"),
     ("Separator", "xorg", SeparatorCommand),
     ("System - Lock Screen", "system-lock-screen", "qdbus org.kde.screensaver /ScreenSaver Lock"),
     ("System - Shut Down", "system-shutdown", "qdbus org.kde.ksmserver /KSMServer logout -1 2 3")]
  }

  /** The launcher of a name, icon and command, its task command derived
      from the command by `taskCommandOf`. */
  function Launcher(entry: (string, string, string), taskCommandOf: string -> string): LauncherConfig
  {
    LauncherConfig(entry.0, entry.1, entry.2, taskCommandOf(entry.2))
  }

  /** The launchers of `createDefaultLaunchers`. */
  function DefaultLaunchers(showDesktopCommand: string, taskCommandOf: string -> string)
    : (r: seq<LauncherConfig>)
    ensures |r| == 10
    ensures forall i {:trigger r[i]} :: 0 <= i < 10 ==> r[i] == Launcher(DefaultTable(showDesktopCommand)[i], taskCommandOf)
  {
    var t := DefaultTable(showDesktopCommand);
    seq(10, i requires 0 <= i < 10 => Launcher(t[i], taskCommandOf))
  }

  /** Of the default launchers only the eighth is a separator, unless the
      show-desktop command happens to be the separator command. */
  lemma DefaultSeparator(showDesktopCommand: string, taskCommandOf: string -> string)
    ensures DefaultLaunchers(showDesktopCommand, taskCommandOf)[7].command == SeparatorCommand
    ensures showDesktopCommand != SeparatorCommand ==>
      forall i :: 0 <= i < 10 && i != 7 ==> DefaultLaunchers(showDesktopCommand, taskCommandOf)[i].command != SeparatorCommand
  {
    var r := DefaultLaunchers(showDesktopCommand, taskCommandOf);
    var t := DefaultTable(showDesktopCommand);
    assert r[7] == Launcher(t[7], taskCommandOf);
    forall i | 0 <= i < 10 && i != 7
      ensures showDesktopCommand != SeparatorCommand ==> r[i].command != SeparatorCommand
    {
      assert r[i] == Launcher(t[i], taskCommandOf);
    }
  }

  /** `createDefaultLaunchers`: the table read into a vector one entry at a
      time. */
  method CreateDefaultLaunchers(showDesktopCommand: string, taskCommandOf: string -> string)
    returns (launchers: seq<LauncherConfig>)
    ensures launchers == DefaultLaunchers(showDesktopCommand, taskCommandOf)
  {
    var items := DefaultTable(showDesktopCommand);
    launchers := [];
    var i := 0;
    while i < 10
      invariant 0 <= i <= 10 && |launchers| == i
      invariant forall j :: 0 <= j < i ==> launchers[j] == Launcher(items[j], taskCommandOf)
    {
      launchers := launchers + [LauncherConfig(items[i].0, items[i].1, items[i].2, taskCommandOf(items[i].2))];
      i := i + 1;
    }
  }

  /** The launchers of a launcher directory holding the `.desktop` files
      `files`, read by `readLauncher`: one per file, in the order of the
      listing, or the defaults when there is none. */
  function LoadedLaunchers(dir: string, files: seq<string>, readLauncher: string -> LauncherConfig,
                           defaults: seq<LauncherConfig>): (r: seq<LauncherConfig>)
    ensures |files| == 0 ==> r == defaults
    ensures |files| > 0 ==> |r| == |files|
    ensures |files| > 0 ==>
      forall i {:trigger r[i]} :: 0 <= i < |files| ==> r[i] == readLauncher(dir + "/" + files[i])
  {
    if |files| == 0 then defaults
    else seq(|files|, i requires 0 <= i < |files| => readLauncher(dir + "/" + files[i]))
  }

  /** The name `syncDockLaunchersConfig` gives the file of launcher number
      `id` (counted from one): the number on two digits, then the
      launcher's name. */
  function LauncherFileName(id: nat, name: string): (f: string)
    ensures f == Pad2(id) + " - " + name + ".desktop"
  {
    Pad2(id) + " - " + name + ".desktop"
  }

  /** The files a dock's launchers are saved to, in launcher order. */
  function LauncherFiles(launchers: seq<LauncherConfig>): (r: seq<(string, LauncherConfig)>)
    ensures |r| == |launchers|
    ensures forall i {:trigger r[i]} :: 0 <= i < |launchers| ==>
      r[i] == (LauncherFileName(i + 1, launchers[i].name), launchers[i])
  {
    seq(|launchers|, i requires 0 <= i < |launchers| => (LauncherFileName(i + 1, launchers[i].name), launchers[i]))
  }

  /** The numbering loop of `syncDockLaunchersConfig`. */
  method NumberLaunchers(launchers: seq<LauncherConfig>) returns (files: seq<(string, LauncherConfig)>)
    ensures files == LauncherFiles(launchers)
  {
    files := [];
    var launcherId := 1;
    var i := 0;
    while i < |launchers|
      invariant 0 <= i <= |launchers| && launcherId == i + 1 && |files| == i
      invariant forall j :: 0 <= j < i ==> files[j] == (LauncherFileName(j + 1, launchers[j].name), launchers[j])
    {
      files := files + [(LauncherFileName(launcherId, launchers[i].name), launchers[i])];
      launcherId := launcherId + 1;
      i := i + 1;
    }
  }

  /** Launcher numbers below 100 order the file names by number, whatever
      the launchers' names. */
  lemma FileNamesOrdered(i: nat, j: nat, a: string, b: string)
    requires i < j < 100
    ensures LexLess(LauncherFileName(i, a), LauncherFileName(j, b))
  {
    var ta, tb := " - " + a + ".desktop", " - " + b + ".desktop";
    Pad2Ordered(i, j);
    LexLessEqualLengthHead(Pad2(i), Pad2(j), ta, tb);
    assert LauncherFileName(i, a) == Pad2(i) + ta;
    assert LauncherFileName(j, b) == Pad2(j) + tb;
  }

  /** The leading two characters of a file name below 100 read back as the
      launcher's number. */
  lemma FileNameNumber(id: nat, name: string)
    requires id < 100
    ensures |LauncherFileName(id, name)| >= 2 && IsDigits(LauncherFileName(id, name)[..2])
    ensures DecimalValue(LauncherFileName(id, name)[..2]) == id
  {
    Pad2RoundTrip(id);
    assert LauncherFileName(id, name)[..2] == Pad2(id);
  }

  /** Up to 99 launchers, the saved file names sort in launcher order, so
      listing the directory by name, as loading does, gives the launchers
      back in the order they were saved; and each name's leading number
      reads back as the launcher's position. */
  lemma SavedLaunchersSortInOrder(launchers: seq<LauncherConfig>)
    requires |launchers| <= 99
    ensures forall i, j :: 0 <= i < j < |launchers| ==>
      LexLess(LauncherFiles(launchers)[i].0, LauncherFiles(launchers)[j].0)
    ensures forall i :: 0 <= i < |launchers| ==>
      IsDigits(LauncherFiles(launchers)[i].0[..2]) && DecimalValue(LauncherFiles(launchers)[i].0[..2]) == i + 1
  {
    var files := LauncherFiles(launchers);
    forall i, j | 0 <= i < j < |launchers|
      ensures LexLess(files[i].0, files[j].0)
    {
      FileNamesOrdered(i + 1, j + 1, launchers[i].name, launchers[j].name);
    }
    forall i | 0 <= i < |launchers|
      ensures IsDigits(files[i].0[..2]) && DecimalValue(files[i].0[..2]) == i + 1
    {
      FileNameNumber(i + 1, launchers[i].name);
    }
  }

  /** A directory listing sorted by name, with no name twice. */
  ghost predicate SortedByName(names: seq<string>)
  {
    forall i, j :: 0 <= i < j < |names| ==> LexLess(names[i], names[j])
  }

  /** The names of the files a dock's launchers are saved to. */
  function SavedNames(launchers: seq<LauncherConfig>): (r: seq<string>)
    ensures |r| == |launchers|
    ensures forall i {:trigger r[i]} :: 0 <= i < |launchers| ==> r[i] == LauncherFiles(launchers)[i].0
  {
    var files := LauncherFiles(launchers);
    seq(|launchers|, i requires 0 <= i < |launchers| => files[i].0)
  }

  /** Two listings sorted by name that hold the same names are the same
      listing. */
  lemma {:induction false} SortedByNameUnique(s: seq<string>, t: seq<string>)
    requires SortedByName(s) && SortedByName(t)
    requires forall x :: x in s <==> x in t
    ensures s == t
    decreases |s|
  {
    assert |s| > 0 ==> s[0] in t;
    assert |t| > 0 ==> t[0] in s;
    if |s| > 0 && |t| > 0 {
      if s[0] != t[0] {
        assert s[0] in s && t[0] in t;
        var k :| 0 <= k < |t| && t[k] == s[0];
        var m :| 0 <= m < |s| && s[m] == t[0];
        LexLessTransitive(s[0], t[0], s[0]);
        LexLessIrreflexive(s[0]);
        assert false;
      }
      forall x
        ensures x in s[1..] <==> x in t[1..]
      {
        if x in s[1..] {
          var i :| 1 <= i < |s| && s[i] == x;
          LexLessIrreflexive(s[0]);
          assert x in t && x != t[0];
          var j :| 0 <= j < |t| && t[j] == x;
          assert t[1..][j - 1] == x;
        }
        if x in t[1..] {
          var j :| 1 <= j < |t| && t[j] == x;
          LexLessIrreflexive(t[0]);
          assert x in s && x != s[0];
          var i :| 0 <= i < |s| && s[i] == x;
          assert s[1..][i - 1] == x;
        }
      }
      SortedByNameUnique(s[1..], t[1..]);
    }
  }

  /** Saving up to 99 launchers and loading the directory again, whose
      listing by name holds exactly the saved files, gives the same
      launchers back in the same order, provided reading a saved file
      gives back the launcher saved to it. */
  lemma SyncThenLoad(dir: string, launchers: seq<LauncherConfig>, listing: seq<string>,
                     readLauncher: string -> LauncherConfig, defaults: seq<LauncherConfig>)
    requires 0 < |launchers| <= 99
    requires SortedByName(listing)
    requires forall x :: x in listing <==> x in SavedNames(launchers)
    requires forall i :: 0 <= i < |launchers| ==> readLauncher(dir + "/" + SavedNames(launchers)[i]) == launchers[i]
    ensures LoadedLaunchers(dir, listing, readLauncher, defaults) == launchers
  {
    var names := SavedNames(launchers);
    SavedLaunchersSortInOrder(launchers);
    assert SortedByName(names);
    SortedByNameUnique(listing, names);
  }

  /** A dock with no launchers saves no file, so loading its directory
      again gives the default launchers rather than the empty list. */
  lemma SyncNoneThenLoad(dir: string, listing: seq<string>,
                         readLauncher: string -> LauncherConfig, defaults: seq<LauncherConfig>)
    requires forall x :: x in listing <==> x in SavedNames([])
    ensures LoadedLaunchers(dir, listing, readLauncher, defaults) == defaults
  {
    var first := if |listing| > 0 then listing[0] else "";
    assert |listing| > 0 ==> first in listing;
    if |listing| > 0 {
      assert false;
    }
  }

  /** From the hundredth launcher on, the number takes three digits and
      its file name sorts before the eleventh launcher's. */
  lemma FileNameHundredBeforeEleven(a: string, b: string)
    ensures LexLess(LauncherFileName(100, a), LauncherFileName(11, b))
  {
    assert DecimalString(10) == ['1', '0'];
    assert Pad2(100) == ['1', '0', '0'];
    assert Pad2(11) == ['1', '1'];
    var x, y := LauncherFileName(100, a), LauncherFileName(11, b);
    assert x[0] == y[0] == '1';
    assert x[1..][0] == '0' && y[1..][0] == '1';
  }

  /** So with a hundred launchers or more, the saved names do not sort in
      launcher order: the hundredth file is listed before the eleventh. */
  lemma SavedLaunchersOutOfOrderPast99(launchers: seq<LauncherConfig>)
    requires |launchers| >= 100
    ensures LexLess(SavedNames(launchers)[99], SavedNames(launchers)[10])
    ensures !SortedByName(SavedNames(launchers))
  {
    var names := SavedNames(launchers);
    FileNameHundredBeforeEleven(launchers[99].name, launchers[10].name);
    assert names[99] == LauncherFileName(100, launchers[99].name);
    assert names[10] == LauncherFileName(11, launchers[10].name);
    if SortedByName(names) {
      assert LexLess(names[10], names[99]);
      LexLessTransitive(names[10], names[99], names[10]);
      LexLessIrreflexive(names[10]);
    }
  }
}

/** The registry of docks: every dock has an id, allocated from a counter,
    under which the model keeps its configuration and its launchers. The
    configuration files and launcher directories are read through a
    `Store` of functions; the model itself only updates its map. */
module MultiDock {
  import opened Items
  import opened Launchers

  /** The per-dock settings kept in a dock's configuration file. */
  datatype DockSettings = DockSettings(
    position: Position,
    screen: int,
    visibility: Visibility,
    showApplicationMenu: bool,
    showPager: bool,
    showTaskManager: bool,
    showClock: bool)

  /** What the model keeps for a dock: where its configuration and
      launchers live, the configuration read from there, and its
      launchers. */
  datatype DockConfig = DockConfig(
    configPath: string,
    launchersPath: string,
    settings: DockSettings,
    launchers: seq<LauncherConfig>)

  /** The files the model reads. */
  datatype Store = Store(
    readSettings: string -> DockSettings,
    desktopFiles: string -> seq<string>,
    readLauncher: string -> LauncherConfig,
    taskCommandOf: string -> string,
    showDesktopCommand: string)

  /** `loadDockLaunchers`: the launchers of a directory, or the defaults
      when it has no `.desktop` file. */
  function DockLaunchers(store: Store, launchersPath: string): seq<LauncherConfig>
  {
    LoadedLaunchers(launchersPath, store.desktopFiles(launchersPath), store.readLauncher,
                    DefaultLaunchers(store.showDesktopCommand, store.taskCommandOf))
  }

  /** A dock moved to `position` on `screen`, as `setPanelPosition` and
      `setScreen` leave it. */
  function Placed(dock: DockConfig, position: Position, screen: int): (r: DockConfig)
    ensures r.settings.position == position && r.settings.screen == screen
    ensures r.configPath == dock.configPath && r.launchersPath == dock.launchersPath && r.launchers == dock.launchers
  {
    dock.(settings := dock.settings.(position := position, screen := screen))
  }

  /** The entry the model makes for a dock found at `paths`
      (configuration file, launcher directory). */
  function LoadedDock(store: Store, paths: (string, string)): DockConfig
  {
    DockConfig(paths.0, paths.1, store.readSettings(paths.0), DockLaunchers(store, paths.1))
  }

  class MultiDockModel {
    var dockConfigs: map<int, DockConfig>
    var nextDockId: int
    const store: Store

    /** Ids start from one and every id in use is below the counter. */
    ghost predicate Valid()
      reads this
    {
      nextDockId >= 1 && forall id :: id in dockConfigs ==> 1 <= id < nextDockId
    }

    /** The constructor loads the docks found on disk. */
    constructor (store: Store, found: seq<(string, string)>)
      ensures this.store == store && Valid()
      ensures nextDockId == |found| + 1
      ensures forall id :: id in dockConfigs <==> 1 <= id <= |found|
      ensures forall id :: 1 <= id <= |found| ==> dockConfigs[id] == LoadedDock(store, found[id - 1])
    {
      this.store := store;
      new;
      LoadDocks(found);
    }

    function DockCount(): nat
      reads this
    {
      |dockConfigs|
    }

    /** `loadDocks`: the docks found, numbered from one in the order found,
      replace whatever the model held, and the counter moves past them. */
    method LoadDocks(found: seq<(string, string)>)
      modifies this
      ensures Valid() && nextDockId == |found| + 1
      ensures forall id :: id in dockConfigs <==> 1 <= id <= |found|
      ensures forall id :: 1 <= id <= |found| ==> dockConfigs[id] == LoadedDock(store, found[id - 1])
    {
      var dockId := 1;
      dockConfigs := map[];
      var i := 0;
      while i < |found|
        invariant 0 <= i <= |found| && dockId == i + 1
        invariant forall id :: id in dockConfigs <==> 1 <= id <= i
        invariant forall id :: 1 <= id <= i ==> dockConfigs[id] == LoadedDock(store, found[id - 1])
      {
        var paths := found[i];
        var launchers := LoadDockLaunchers(paths.1);
        var dock := DockConfig(paths.0, paths.1, store.readSettings(paths.0), launchers);
        assert dock == LoadedDock(store, found[dockId - 1]);
        dockConfigs := dockConfigs[dockId := dock];
        dockId := dockId + 1;
        i := i + 1;
      }
      nextDockId := dockId;
    }

    /** `addDock(configs, position, screen)`: the dock gets the current
      counter as id, which no dock holds yet, and the counter moves on;
      its settings are read and then placed at `position` on `screen`.
      No other dock changes. */
    method AddDock(paths: (string, string), position: Position, screen: int) returns (dockId: int)
      requires Valid()
      modifies this
      ensures Valid()
      ensures dockId == old(nextDockId) && dockId !in old(dockConfigs) && nextDockId == dockId + 1
      ensures dockConfigs == old(dockConfigs)[dockId := Placed(LoadedDock(store, paths), position, screen)]
      ensures DockCount() == old(DockCount()) + 1
    {
      dockId := nextDockId;
      nextDockId := nextDockId + 1;
      var launchers := LoadDockLaunchers(paths.1);
      var dock := DockConfig(paths.0, paths.1, store.readSettings(paths.0), launchers);
      // setPanelPosition and setScreen write the two settings of the new dock.
      dockConfigs := dockConfigs[dockId := Placed(dock, position, screen)];
    }

    /** `removeDock`: that dock's entry goes, every other entry and the
      counter stay; removing an id the model does not hold changes
      nothing. */
    method RemoveDock(dockId: int)
      requires Valid()
      modifies this
      ensures Valid()
      ensures dockConfigs == old(dockConfigs) - {dockId} && nextDockId == old(nextDockId)
      ensures dockId in old(dockConfigs) ==> DockCount() == old(DockCount()) - 1
    {
      dockConfigs := dockConfigs - {dockId};
    }

    /** `hasPager`: whether some dock shows the pager. */
    method HasPager() returns (found: bool)
      requires Valid()
      ensures found <==> exists id :: id in dockConfigs && dockConfigs[id].settings.showPager
    {
      // Ids in use all lie below the counter, so visiting every id below it
      // in ascending order visits the docks in the order of the map.
      var id := 1;
      while id < nextDockId
        invariant 1 <= id <= nextDockId
        invariant forall d :: d in dockConfigs && d < id ==> !dockConfigs[d].settings.showPager
      {
        if id in dockConfigs && dockConfigs[id].settings.showPager {
          return true;
        }
        id := id + 1;
      }
      return false;
    }

    /** `loadDockLaunchers`: one launcher per `.desktop` file of the
      directory, in the listing's order, or the defaults when there is
      none. */
    method LoadDockLaunchers(launchersPath: string) returns (launchers: seq<LauncherConfig>)
      ensures launchers == DockLaunchers(store, launchersPath)
    {
      var files := store.desktopFiles(launchersPath);
      if |files| == 0 {
        launchers := CreateDefaultLaunchers(store.showDesktopCommand, store.taskCommandOf);
        return;
      }
      launchers := [];
      var i := 0;
      while i < |files|
        invariant 0 <= i <= |files| && |launchers| == i
        invariant forall j :: 0 <= j < i ==> launchers[j] == store.readLauncher(launchersPath + "/" + files[j])
      {
        launchers := launchers + [store.readLauncher(launchersPath + "/" + files[i])];
        i := i + 1;
      }
    }

    /** The files `syncDockLaunchersConfig` writes for a dock: its
      launchers, numbered from one. */
    method SyncDockLaunchers(dockId: int) returns (files: seq<(string, LauncherConfig)>)
      requires dockId in dockConfigs
      ensures files == LauncherFiles(dockConfigs[dockId].launchers)
    {
      files := NumberLaunchers(dockConfigs[dockId].launchers);
    }
  }
}
