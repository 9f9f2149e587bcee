# KSmoothDock panel model

KSmoothDock is a KDE desktop panel ("dock"). It sits on one edge of a screen and holds a row
of items: the application menu, one pager cell per virtual desktop, the pinned launchers,
a program item per running application, and the clock. When the pointer comes near, the panel
magnifies its icons along a parabola centred on the pointer. Entering and leaving the panel
plays a short zoom animation. The panel keeps its items in step with the windows the window
manager reports.

This project models the core of that behaviour in Dafny:

- `Zoom`: the parabolic icon size (`DockPanel::parabolic`) and the extra panel length
  that magnification needs.
- `Animation`: the linear, truncating interpolation used for each animation tick, for the
  background and for every item's geometry.
- `Icons`: the per-size icon table of `IconBasedDockItem`, its clamped lookup, and its
  min/max extents. This is a class with its own state.
- `Items`: the value a panel item holds: kind, icon table, current, start and end geometry,
  and idle centre.
- `Layout`: specification functions for the three layout passes of `DockPanel`:
  the minimized layout, the zoomed layout under the pointer, and the task-manager resize.
  It also holds the properties those passes guarantee.
- `Passes`: the imperative loops of those passes, each proved equal to its `Layout` function.
- `Placement`: window placement, menu placement, strut width, the border test of
  `mouseMoveEvent`, and the layout variables of `initLayoutVars`.
- `Programs`: a program item's task list as `Program` maintains it: add, update and remove
  a task, attention state, pinning, its label, and cycling through its windows on click.
  This is a class proved against value functions.
- `Text`: the decimal and two-digit zero-padded number formats used by labels and launcher
  file names, with their round trips and ordering.
- `ItemList`: the panel's item-list operations: `addTask`, `removeTask`, `updateTask`,
  `refresh`, `initLaunchers`, `initTasks` and `reloadTasks`. Each is a loop proved equal to a
  value function.
- `Launchers` and `MultiDock`: the dock registry (`MultiDockModel`): dock ids, adding and
  removing docks, the default launchers, and the numbered launcher files. It includes the
  proof that saving launchers and loading them back yields the same list.
- `PanelState` and `PanelItems`: the whole panel state as a value, with one transition
  function per `DockPanel` operation.
- `DockPanels`: the `DockPanel` class, whose fields are that state. Each of its methods is
  proved to move the state exactly as the corresponding transition function does.

## Model

| member | source | states |
|---|---|---|
| Arith.CDiv | src/view/dock_panel.cc:250-255 | C++ `/` with a positive divisor: it equals Dafny's quotient for a non-negative dividend and truncates toward zero for a negative one |
| Zoom.ParabolicMaxX | src/view/dock_panel.cc:777 | the magnification radius is `2.5 * (minSize + spacing)` rounded down, and at least two item pitches |
| Zoom.Parabolic | src/view/dock_panel.cc:1225-1233 | the icon directly under the pointer gets maxSize; at or beyond the radius it gets minSize; for sensible sizes the result always lies between the two |
| Zoom.ParabolaBounds | src/view/dock_panel.cc:1225-1233 | the truncated parabolic drop is the whole size range at the radius, and lies within that range inside the radius |
| Zoom.TruncatedDrop | src/view/dock_panel.cc:1225-1233 | the C++ quotient of the drop, split by the sign of the size range |
| Zoom.ParabolicNonIncreasing | src/view/dock_panel.cc:1225-1233 | moving further from the pointer never makes an icon bigger |
| Zoom.ZoomDelta | src/view/dock_panel.cc:786-803 | the extra length of the magnified panel is non-negative and at most (size range) × (number of items, capped at five) |
| Animation.Interpolate | src/view/dock_panel.cc:250-255 | the value after tick k of n starts at a, ends exactly at b, and never leaves the interval between them |
| Animation.InterpolateBounds | src/view/dock_panel.cc:250-255 | the truncated share of the span is 0 at tick 0, the whole span at tick n, and within the span in between |
| Animation.InterpolateMonotone | src/view/dock_panel.cc:250-255 | each tick moves the value toward the target and never past it |
| Animation.Shifted | src/view/dock_panel.cc:906-924 | a snapshot keeps the size and moves the position by the given offset |
| Animation.Between | src/view/dock_panel.cc:245-248 | an item's geometry at tick k is its start snapshot at 0 and its end snapshot at n; size, left and top stay between the two snapshots |
| Animation.StartsAt | src/view/dock_panel.cc:826-837 | every item's start snapshot becomes its current geometry shifted by the offset; nothing else changes |
| Animation.EndsAt | src/view/dock_panel.cc:861-882 | every item's end snapshot becomes its current geometry shifted by the offset; nothing else changes |
| Animation.Stepped | src/view/dock_panel.cc:245-248 | one tick sets every item's geometry to the interpolation between its snapshots |
| Animation.SnapshotsKeepTables | src/view/dock_panel.cc:245-248 | taking snapshots and stepping keep every icon table consistent with the panel's size range |
| Animation.SteppedConverges | src/view/dock_panel.cc:256-258 | at the last tick every item stands exactly at its end snapshot, and at every tick it stays between its snapshots |
| Animation.SetStarts | src/view/dock_panel.cc:907-924 | the loop over the items computes StartsAt |
| Animation.SetEnds | src/view/dock_panel.cc:998-1001 | the loop over the items computes EndsAt |
| Animation.StepAll | src/view/dock_panel.cc:246-248 | the loop over the items computes Stepped |
| Icons.ClampSize | src/iconbaseddockitem.cc:92-99 | a requested size is clamped to [minSize, maxSize] and left unchanged inside it |
| Icons.IconAt | src/iconbaseddockitem.cc:92-99 | the icon for a size is the table entry for that size, or the first or last entry when the size is out of range |
| Icons.DrawnIcon | src/iconbaseddockitem.cc:52-56 | an icon is drawn exactly when the size is in range, and it is the icon IconAt selects |
| Icons.GeneratedIcons | src/iconbaseddockitem.cc:82-90 | the generated table has one entry per size, and looking up any in-range size gives the icon scaled to that size |
| Icons.ClearAndReserve | src/iconbaseddockitem.cc:45-50 | `clear()` followed by `reserve()` leaves the table empty |
| Icons.SetIconAsWrittenStoresPastEnd | src/iconbaseddockitem.cc:45-50 | after clear and reserve, the first write of generateIcons indexes outside the empty table |
| Icons.IconBasedDockItem.constructor | src/iconbaseddockitem.cc:27-43 | a new item holds the size range and the icon table generated for it |
| Icons.IconBasedDockItem.GenerateIcons | src/iconbaseddockitem.cc:82-90 | the table is regenerated for sizes minSize..maxSize in increasing order; the size range is unchanged |
| Icons.IconBasedDockItem.SetIcon | src/iconbaseddockitem.cc:45-50 | after a new icon is set, the table is regenerated from it for every size |
| Icons.IconBasedDockItem.GetMinWidth | src/iconbaseddockitem.cc:66-68 | the minimum width is the width drawn at any size at or below minSize |
| Icons.IconBasedDockItem.GetMaxWidth | src/iconbaseddockitem.cc:58-60 | the maximum width is the width drawn at any size at or above maxSize |
| Icons.IconBasedDockItem.GetMinHeight | src/iconbaseddockitem.cc:70-72 | the minimum height is the height drawn at any size at or below minSize |
| Icons.IconBasedDockItem.GetMaxHeight | src/iconbaseddockitem.cc:62-64 | the maximum height is the height drawn at any size at or above maxSize |
| Items.OrientationOf | src/view/dock_panel.cc:585-589 | top and bottom panels are horizontal; left and right panels are vertical |
| Items.NewItem | src/iconbaseddockitem.cc:27-43 | a new item has the requested kind and an icon table that fits the size range |
| Items.ItemAddTask | src/view/program.cc:115-124 | a program item accepts a task exactly when the commands match; it then appends the task, and a refused item is unchanged |
| Items.ItemRemoveTask | src/view/program.cc:142-150 | an item drops a window exactly when it holds it; its task list shrinks by one, and an item without the window is unchanged |
| Items.ItemUpdateTask | src/view/program.cc:126-140 | an item updates a task exactly when the commands match and it holds the window; otherwise it is unchanged |
| Layout.MinExtents | src/view/dock_panel.cc:806-809 | one entry per item: its minimum extent along the panel |
| Layout.Extents | src/view/dock_panel.cc:966-970 | one entry per item: its extent along the panel at the given size |
| Layout.CurrentExtents | src/view/dock_panel.cc:988-992 | one entry per item: its extent along the panel at its current size |
| Layout.Minimized | src/view/dock_panel.cc:839-852 | every item gets minSize and is placed at the packed offset of the minimum extents before it |
| Layout.MinimizedItems | src/view/dock_panel.cc:839-852 | in the minimized layout every item has minSize, sits spacing/2 from the outer edge, and its idle centre is the middle of its minimum extent |
| Layout.MinimizedPacking | src/view/dock_panel.cc:842-849 | the first item starts at spacing/2, and each next item starts one minimum extent plus one spacing after the previous one |
| Layout.MinimizedEnd | src/view/dock_panel.cc:806-809 | the last minimized item ends (spacing − spacing/2) before the minimum panel length, so the row fits the panel |
| Layout.MinimizedIdempotent | src/view/dock_panel.cc:839-852 | laying out an already minimized panel again changes nothing |
| Layout.Distances | src/view/dock_panel.cc:943-947 | one entry per item: the distance from its idle centre to the pointer, corrected for the panel's growth |
| Layout.FirstAffected | src/view/dock_panel.cc:948-951 | the first update index is −1 or a magnified item before the scan position |
| Layout.FirstAffectedIsFirst | src/view/dock_panel.cc:948-951 | no item before the first update index is magnified |
| Layout.LastAffected | src/view/dock_panel.cc:948-953 | the last magnified item seen, if any, lies in the scanned range |
| Layout.LastAffectedIsLast | src/view/dock_panel.cc:948-953 | no scanned item after the last update index is magnified |
| Layout.LastUpdateIndex | src/view/dock_panel.cc:935 | the last update index starts at 0 and is otherwise a magnified item |
| Layout.LastUpdateIndexIsLast | src/view/dock_panel.cc:948-953 | every item after the last update index lies beyond the magnification radius |
| Layout.ZoomSizes | src/view/dock_panel.cc:954 | each item's magnified size is the parabola at its distance |
| Layout.ZoomedWith | src/view/dock_panel.cc:934-995 | the zoomed layout keeps the icon tables and places each item by the rule for its segment |
| Layout.ZoomedSizes | src/view/dock_panel.cc:948-954 | every magnified size lies in [minSize, maxSize], and items past the last update index keep minSize |
| Layout.ZoomedKeeps | src/view/dock_panel.cc:954 | zooming keeps every item's kind, icons and idle centre, and gives it its magnified size |
| Layout.ZoomedCross | src/view/dock_panel.cc:955-963 | across the panel, items hang from the outer edge (top/left) or stand on the inner edge at spacing/2 + maxSize (bottom/right) |
| Layout.ZoomedTrailing | src/view/dock_panel.cc:974-984 | items after the last update index are packed at minimum extents against the far end of the magnified panel |
| Layout.ZoomedForward | src/view/dock_panel.cc:936-972 | without back-filling, the row starts at spacing/2 and magnified items follow one another at their current extents |
| Layout.ZoomedBackfilled | src/view/dock_panel.cc:985-995 | when the magnified run starts at the first item and ends early, the whole row is contiguous at the items' current extents |
| Layout.Recentred | src/view/dock_panel.cc:1048-1066 | the kept head items are unchanged, and every later item's idle centre is recomputed from the minimized packing |
| Layout.ResizedWith | src/view/dock_panel.cc:1068-1113 | the resized layout keeps the head items and places the others by the rule for their segment |
| Layout.ResizedKeeps | src/view/dock_panel.cc:1068-1100 | resizing leaves the kept head items untouched and gives every later item its magnified size |
| Layout.ResizedForward | src/view/dock_panel.cc:1068-1100 | from the first non-kept item up to the last update index, items follow one another at their current extents |
| Layout.ResizedTrailing | src/view/dock_panel.cc:1102-1113 | items past the last update index are packed at minimum extents against the far end |
| Passes.MinLength | src/view/dock_panel.cc:806-809 | the loop sums the minimum extents plus one spacing per item |
| Passes.MinimizedPass | src/view/dock_panel.cc:839-852 | the in-order loop computes the minimized layout |
| Passes.ZoomForward | src/view/dock_panel.cc:934-973 | the forward loop returns the first and last update indices as defined and packs every item forward at its magnified size |
| Passes.ZoomScanFirst | src/view/dock_panel.cc:948-951 | the loop's running first index equals FirstAffected of the prefix |
| Passes.ZoomScanLast | src/view/dock_panel.cc:948-953 | the loop's running last index equals the last magnified item of the prefix, or 0 |
| Passes.ZoomScanForwarded | src/view/dock_panel.cc:941-973 | the finished forward scan equals the forward packing |
| Passes.Forwarded | src/view/dock_panel.cc:964-972 | items before the start are kept; the others are packed forward from the base at their magnified sizes |
| Passes.ResizeForward | src/view/dock_panel.cc:1068-1100 | the resize loop returns the last update index from the first non-kept item and packs the items forward |
| Passes.Anchored | src/view/dock_panel.cc:974-984 | items from the given index on are packed backward from the far end at minimum extents; earlier items are kept |
| Passes.AnchorTrailing | src/view/dock_panel.cc:974-984 | the backward loop computes Anchored |
| Passes.Backpacked | src/view/dock_panel.cc:985-995 | items before the index are packed backward against the item at that index, at their current extents |
| Passes.PackBackward | src/view/dock_panel.cc:985-995 | the backward loop computes Backpacked |
| Passes.ZoomedTrailingAt | src/view/dock_panel.cc:974-984 | after the passes, each trailing item is where the zoomed layout puts it |
| Passes.ZoomedLeadingAt | src/view/dock_panel.cc:941-973 | without back-filling, each leading item is where the zoomed layout puts it |
| Passes.ZoomedBackfillAt | src/view/dock_panel.cc:985-995 | with back-filling, each leading item is where the zoomed layout puts it |
| Passes.ZoomedPass | src/view/dock_panel.cc:934-995 | the three loops of updateLayout(x, y) together compute the zoomed layout |
| Passes.Recentre | src/view/dock_panel.cc:1048-1066 | the loop computes the recentred idle centres |
| Passes.ResizeCompositionAt | src/view/dock_panel.cc:1068-1113 | forward packing followed by trailing anchoring places every item as the resized layout says |
| Passes.ResizePass | src/view/dock_panel.cc:1048-1113 | the loops of resizeTaskManager compute the resized layout |
| Passes.FindActiveItem | src/view/dock_panel.cc:1174-1182 | the result is the last item whose start lies before the pointer: all items up to it start before, and the next one does not |
| Placement.TickInterval | src/view/dock_panel.cc:896 | the animation timer interval `32 − speed` is between 1 and 32 ms |
| Placement.TickIntervalFaster | src/view/dock_panel.cc:778-779 | a higher speed gives a shorter interval, and the configured speed gives 16 ms |
| Placement.DockOrigin | src/view/dock_panel.cc:115-131 | the panel touches its screen edge and is centred along it, to within one pixel |
| Placement.MenuPosition | src/view/dock_panel.cc:146-156 | the application menu opens beside the panel: below a top panel, above a bottom panel, right of a left panel, left of a right panel |
| Placement.MenuBesidePanel | src/view/dock_panel.cc:146-156 | the application menu never overlaps the minimized panel |
| Placement.SubMenuPosition | src/view/dock_panel.cc:158-172 | a submenu keeps its x and only moves up: on a top panel to clear the main menu, on a bottom panel to end at the panel; vertical panels leave it alone |
| Placement.StrutWidth | src/view/dock_panel.cc:203-218 | the reserved strip is the panel's thickness when always visible, 1 px for auto-hide and windows-can-cover, and 0 otherwise |
| Placement.StrutReservesSpace | src/view/dock_panel.cc:203-218 | space is reserved exactly when the visibility is not "quiet cover" and not "windows go below" |
| Placement.NearInnerBorder | src/view/dock_panel.cc:424-433 | the pointer counts as near the border exactly when its distance to the panel's inner edge is below spacing/2 |
| Placement.InitialVars | src/view/dock_panel.cc:775-822 | the layout variables: radius, step count, speed, minimum length and thickness, magnified thickness, and an extra magnified length bounded by ZoomDelta |
| Placement.MagnifiedPanelContainsMinimized | src/view/dock_panel.cc:775-822 | the magnified panel is never smaller than the minimized one in either direction |
| Placement.EnteringMove | src/view/dock_panel.cc:906-932 | the entering animation starts the items shifted by half the extra magnified length along the panel |
| Placement.LeavingEndsWhereDocked | src/view/dock_panel.cc:861-880 | the leaving animation ends every item at its on-screen position inside the docked minimized window |
| Programs.TaskOf | src/view/program.cc:115-124 | the stored task keeps the window id, name and attention flag of the reported task |
| Programs.FirstTaskWith | src/view/program.cc:152-159 | the first index holding the window; it is in range exactly when the program holds that window |
| Programs.WithTaskAdded | src/view/program.cc:115-124 | a task is accepted exactly when its command matches; it is appended, attention is raised if the task demands it, and nothing else changes |
| Programs.WithTaskRemoved | src/view/program.cc:142-150 | a window is removed exactly when the program holds it; the first such task is cut out and nothing else changes |
| Programs.WithTaskUpdated | src/view/program.cc:126-140 | an update applies exactly when the command matches and the window is held; only that task's attention flag changes, and the program's attention becomes "some task demands attention" |
| Programs.BeforeTask | src/view/program.cc:161-163 | the item stays ahead of the new program when its task command sorts strictly before the new command; otherwise, for a different command, the new command sorts first |
| Programs.LabelFor | src/view/program.cc:108-113 | one window shows the name; several show "name (N instances)" with N written in decimal |
| Programs.NextTask | src/view/program.cc:91-93 | the next window after the active one, wrapping to the first |
| Programs.Cycle | src/view/program.cc:91-93 | repeated clicks stay on a valid window index |
| Programs.CycleIsRotation | src/view/program.cc:91-93 | k clicks advance the active window by k, modulo the number of windows |
| Programs.ClicksTo | src/view/program.cc:91-93 | the number of clicks needed to reach a window is below the number of windows |
| Programs.CycleComesBack | src/view/program.cc:91-93 | clicking once per window returns to the start, and every window is reached |
| Programs.AddThenRemove | src/view/program.cc:115-150 | adding a new window and then removing it gives back the original task list |
| Programs.Program.constructor | src/view/program.cc:38-55 | a new program has its launcher data, no tasks and no attention |
| Programs.Program.HasTask | src/view/program.cc:152-159 | the search loop finds the window exactly when the program holds it |
| Programs.Program.SetDemandsAttention | src/view/program.cc:219-230 | sets the attention flag; the blink timer changes only when the flag does |
| Programs.Program.UpdateDemandsAttention | src/view/program.cc:232-240 | the attention flag becomes "some task demands attention" |
| Programs.Program.AddTask | src/view/program.cc:115-124 | the method changes the program as WithTaskAdded says |
| Programs.Program.UpdateTask | src/view/program.cc:126-140 | the method changes the program as WithTaskUpdated says |
| Programs.Program.RemoveTask | src/view/program.cc:142-150 | the method changes the program as WithTaskRemoved says |
| Programs.Program.PinUnpin | src/view/program.cc:171-181 | flips the pinned flag and asks the model to add the launcher when pinning, or remove it when unpinning |
| Text.DecimalString | src/view/program.cc:111 | decimal digits without a leading zero; a single digit exactly for numbers below 10 |
| Text.DecimalRoundTrip | src/view/program.cc:111 | reading back the decimal string gives the number |
| Text.Pad2 | src/model/multi_dock_model.cc:202-205 | at least two digits, and exactly two for numbers below 100 |
| Text.Pad2RoundTrip | src/model/multi_dock_model.cc:202-205 | reading back the padded string gives the number |
| Text.Pad2Ordered | src/model/multi_dock_model.cc:202-205 | for numbers below 100, padded strings sort in numeric order |
| Text.LexLessTotal | src/view/program.cc:161-163 | two different command strings are always ordered one way or the other |
| Text.LexLessTransitive | src/view/program.cc:161-163 | the command ordering is transitive |
| Text.LexLessIrreflexive | src/view/program.cc:161-163 | no command sorts before itself |
| Launchers.DefaultTable | src/model/multi_dock_model.cc:231-242 | the built-in launcher table has ten entries |
| Launchers.DefaultLaunchers | src/model/multi_dock_model.cc:229-253 | the ten default launchers are built from the table in order |
| Launchers.DefaultSeparator | src/model/multi_dock_model.cc:231-242 | the eighth default launcher is the separator, and it is the only one |
| Launchers.CreateDefaultLaunchers | src/model/multi_dock_model.cc:244-252 | the loop builds exactly DefaultLaunchers |
| Launchers.LoadedLaunchers | src/model/multi_dock_model.cc:210-227 | an empty launcher directory yields the defaults; otherwise one launcher per file, read in listing order |
| Launchers.LauncherFileName | src/model/multi_dock_model.cc:200-205 | a launcher file is named "NN - name.desktop" with its two-digit number |
| Launchers.LauncherFiles | src/model/multi_dock_model.cc:199-206 | launchers are numbered 1, 2, … in list order |
| Launchers.NumberLaunchers | src/model/multi_dock_model.cc:199-206 | the saving loop computes LauncherFiles |
| Launchers.FileNamesOrdered | src/model/multi_dock_model.cc:200-205 | for launcher numbers below 100, a lower number gives a file name that sorts first |
| Launchers.FileNameNumber | src/model/multi_dock_model.cc:200-205 | for launcher numbers below 100, the first two characters of a file name are the launcher number |
| Launchers.SavedLaunchersSortInOrder | src/model/multi_dock_model.cc:192-207 | for up to 99 launchers, the saved names sort in list order and carry numbers 1..n |
| Launchers.SortedByNameUnique | src/model/multi_dock_model.cc:213-214 | a sorted directory listing is determined by its set of names |
| Launchers.SyncThenLoad | src/model/multi_dock_model.cc:192-227 | for 1 to 99 launchers, saving a dock's launchers and loading the directory back gives the same launcher list |
| Launchers.SyncNoneThenLoad | src/model/multi_dock_model.cc:192-227 | saving a dock with no launchers and loading its directory back gives the default launchers, not the empty list |
| Launchers.FileNameHundredBeforeEleven | src/model/multi_dock_model.cc:200-205 | the file name of launcher 100 sorts before that of launcher 11 |
| Launchers.SavedLaunchersOutOfOrderPast99 | src/model/multi_dock_model.cc:192-207 | with 100 launchers or more, the saved names are not sorted in launcher order |
| MultiDock.Placed | src/model/multi_dock_model.cc:154-155 | a newly added dock gets the requested edge and screen and keeps its paths and launchers |
| MultiDock.MultiDockModel.constructor | src/model/multi_dock_model.cc:80-90 | docks found on disk get ids 1..n, and the next id is n+1 |
| MultiDock.MultiDockModel.LoadDocks | src/model/multi_dock_model.cc:92-107 | the registry is rebuilt with ids 1..n in discovery order, and the next id is n+1 |
| MultiDock.MultiDockModel.AddDock | src/model/multi_dock_model.cc:143-158 | the new dock takes the next id, which was unused; the counter advances and exactly one dock is added |
| MultiDock.MultiDockModel.RemoveDock | src/model/multi_dock_model.cc:176-181 | the dock's entry is erased and ids are never reused |
| MultiDock.MultiDockModel.HasPager | src/model/multi_dock_model.cc:183-190 | true exactly when some dock shows a pager |
| MultiDock.MultiDockModel.LoadDockLaunchers | src/model/multi_dock_model.cc:210-227 | the launchers loaded for a dock's launcher directory |
| MultiDock.MultiDockModel.SyncDockLaunchers | src/model/multi_dock_model.cc:192-207 | the dock's launchers are written to numbered files |
| ItemList.FirstWhere | src/view/dock_panel.cc:717-728 | the index of the first item satisfying the test, or the list length if there is none |
| ItemList.FirstWithTask | src/view/dock_panel.cc:748-749 | the first item holding the window; in range exactly when some item holds it |
| ItemList.FirstAccepting | src/view/dock_panel.cc:724-728 | the first item that accepts the task |
| ItemList.FirstUpdating | src/view/dock_panel.cc:761-765 | the first item that accepts the task update |
| ItemList.FirstRemovable | src/view/dock_panel.cc:182-183 | the first item that should be removed |
| ItemList.InsertionIndex | src/view/dock_panel.cc:734 | the new program goes after every leading item that sorts before it, and before the first that does not |
| ItemList.NewProgramData | src/view/dock_panel.cc:731-744 | a new program is unpinned with no tasks; it takes the registered application's data, or the task's own program and command |
| ItemList.NewProgramItem | src/view/dock_panel.cc:731-744 | the new program item holds the task when its command matches, and is otherwise left removable |
| ItemList.InsertAt | src/view/dock_panel.cc:737-743 | insertion shifts the later items up by one |
| ItemList.EraseAt | src/view/dock_panel.cc:751 | erasure shifts the later items down by one |
| ItemList.TaskAdded | src/view/dock_panel.cc:715-745 | a window already held changes nothing; otherwise the first accepting program gets the task, or a new program is inserted at the insertion index |
| ItemList.TaskAddedFits | src/view/dock_panel.cc:715-745 | adding a task keeps every icon table consistent |
| ItemList.TaskAddedKeepsWindows | src/view/dock_panel.cc:715-745 | adding a task never loses a window the panel already shows |
| ItemList.TaskAddedHolds | src/view/dock_panel.cc:715-745 | when the program created for the window accepts it, after adding, the panel shows the new window |
| ItemList.TaskAddedIdempotent | src/view/dock_panel.cc:716-721 | adding the same task twice is the same as adding it once |
| ItemList.TaskAddedKeepsHead | src/view/dock_panel.cc:715-745 | the leading menu and pager items stay in place |
| ItemList.TaskRemoved | src/view/dock_panel.cc:747-757 | the first item holding the window drops it, and is erased exactly when it then should be removed |
| ItemList.NewProgramRoundTrip | src/view/dock_panel.cc:715-757 | adding a window that creates a new program and then removing it gives back the same list |
| ItemList.JoinedRoundTrip | src/view/dock_panel.cc:715-757 | adding a window to an existing program and then removing it gives back the same windows per item |
| ItemList.TaskUpdated | src/view/dock_panel.cc:759-766 | only the first accepting item is updated |
| ItemList.TaskUpdatedKeepsWindows | src/view/dock_panel.cc:759-766 | updating a task neither adds nor loses windows, and keeps the icon tables |
| ItemList.Refreshed | src/view/dock_panel.cc:181-189 | the first removable item, if any, is erased |
| ItemList.RefreshedKeepsWindows | src/view/dock_panel.cc:181-189 | refreshing keeps every window and every icon table |
| ItemList.ErasedKeepsWindows | src/view/dock_panel.cc:751 | erasing an item without the window keeps the other windows |
| ItemList.LauncherItem | src/view/dock_panel.cc:669-679 | the separator command gives a separator; any other launcher gives a pinned program with no tasks |
| ItemList.LauncherItems | src/view/dock_panel.cc:669-679 | one item per launcher, in order |
| ItemList.LauncherItemsStay | src/view/dock_panel.cc:669-679 | launcher items hold no windows and refresh never removes them |
| ItemList.DefaultLauncherItems | src/model/multi_dock_model.cc:229-253 | the default launchers give ten items: nine pinned programs and a separator in eighth place |
| ItemList.TasksAdded | src/view/dock_panel.cc:691-700 | adding the listed tasks adds at most one item per task |
| ItemList.TasksAddedKeepHead | src/view/dock_panel.cc:691-700 | the leading items stay in place and the icon tables stay consistent |
| ItemList.TasksAddedHoldAll | src/view/dock_panel.cc:691-700 | when the program created for each window accepts it, every listed window is shown afterwards |
| ItemList.TasksAddedKeepWindows | src/view/dock_panel.cc:691-700 | windows already shown stay shown |
| ItemList.KeepThen | src/view/dock_panel.cc:703-707 | the kept head followed by the new tail |
| ItemList.Reloaded | src/view/dock_panel.cc:702-713 | the reloaded list holds the kept head, the launchers and the clock, and at least that many items |
| ItemList.ReloadBaseFits | src/view/dock_panel.cc:702-710 | the kept head and the launchers keep the head fixed and the tables consistent |
| ItemList.ReloadedKeepsHead | src/view/dock_panel.cc:702-713 | after reload the head is unchanged, the clock comes last when shown, and every task is shown when the program created for it accepts it |
| ItemList.ReloadedFits | src/view/dock_panel.cc:702-713 | reloading keeps every icon table consistent |
| ItemList.AddTask | src/view/dock_panel.cc:715-745 | the loops compute TaskAdded |
| ItemList.RemoveTask | src/view/dock_panel.cc:747-757 | the loop computes TaskRemoved |
| ItemList.UpdateTask | src/view/dock_panel.cc:759-766 | the loop computes TaskUpdated |
| ItemList.Refresh | src/view/dock_panel.cc:181-189 | the loop computes Refreshed, and reports an erasure exactly when some item was removable |
| ItemList.InitLaunchers | src/view/dock_panel.cc:669-679 | the loop appends the launcher items |
| ItemList.InitTasks | src/view/dock_panel.cc:691-700 | the loop computes TasksAdded |
| PanelState.Panel.M | src/view/dock_panel.cc:775-822 | the layout parameters of the panel: its orientation, edge, size range and spacing, with a positive radius |
| PanelState.Panel.ApplicationMenuItemCount | src/view/dock_panel.h:197-209 | one item exactly when the application menu is shown |
| PanelState.Panel.PagerItemCount | src/view/dock_panel.h:197-209 | one item per desktop when the pager is shown, none otherwise |
| PanelState.Panel.ClockItemCount | src/view/dock_panel.h:197-209 | one item exactly when the clock is shown |
| PanelState.Panel.KeepCount | src/view/dock_panel.cc:1043-1044 | the items kept by a resize are the menu and pager items |
| PanelState.ModeQueries | src/view/dock_panel.h:184-189 | horizontal exactly for top and bottom panels; auto-hide and windows-can-cover exclude each other |
| PanelState.DockedWindow | src/view/dock_panel.cc:115-134 | the minimized window has the requested size and touches its screen edge |
| PanelState.Thin | src/view/dock_panel.cc:886 | a hidden panel is one pixel thick; otherwise it is one item pitch thick |
| PanelState.Oriented | src/view/dock_panel.cc:853-859 | the extents have the given length along the panel and the given thickness across it |
| PanelState.AfterInitLayoutVars | src/view/dock_panel.cc:775-822 | only the layout variables change; the minimum length is the packed length of the items, and the magnified window contains the minimized one |
| PanelState.AfterResize | src/view/dock_panel.cc:115-144 | the window takes the new size; a minimized panel is docked against its edge, and a magnified one keeps its position |
| PanelState.AfterUpdateLayout | src/view/dock_panel.cc:824-902 | settings, launchers and item kinds are kept; the items get the minimized layout, animated when leaving |
| PanelState.LeavingItems | src/view/dock_panel.cc:826-882 | when leaving, every item's start snapshot is its current geometry |
| PanelState.AfterUpdateLayoutAt | src/view/dock_panel.cc:904-1028 | the panel becomes magnified at full size and no longer entering; settings and item kinds are kept |
| PanelState.AfterZoomLayout | src/view/dock_panel.cc:934-995 | a plain pointer move re-zooms the items, records the pointer, and leaves the animation alone |
| PanelState.AfterEnteringLayout | src/view/dock_panel.cc:906-1019 | entering starts the zoom-in animation from step 0 and from the start background |
| PanelState.EnteredMotion | src/view/dock_panel.cc:925-1019 | the zoom-in background runs from the minimum length to the magnified length |
| PanelState.Unminimized | src/view/dock_panel.cc:1026 | only the minimized flag changes, and it is cleared |
| PanelState.ZoomedFor | src/view/dock_panel.cc:934-995 | the zoomed items keep their kinds and consistent icon tables |
| PanelState.EnteringItems | src/view/dock_panel.cc:906-1001 | every item ends at its zoomed geometry and starts at its previous size |
| PanelState.BackgroundAt | src/view/dock_panel.cc:250-255 | the background reaches its end size at the last step and stays between start and end |
| PanelState.AfterTick | src/view/dock_panel.cc:245-267 | one tick advances the step; before the last step the animation goes on, and after the last step a leaving panel minimizes |
| PanelState.AfterMouseMove | src/view/dock_panel.cc:423-443 | a running animation, or a pointer near the inner border while entering a panel that is not auto-hide, changes nothing; any other move zooms the layout for the pointer, and the first move after entering starts the zoom-in animation |
| PanelState.AfterEnter | src/view/dock_panel.cc:458-463 | only the entering flag is set |
| PanelState.AfterLeave | src/view/dock_panel.cc:465-477 | a minimized panel is unchanged; otherwise the leaving animation starts from step 0 |
| PanelState.AfterResizeTaskManager | src/view/dock_panel.cc:1030-1116 | the layout variables are recomputed; a minimized panel is laid out minimized again, and item kinds are kept |
| PanelState.AfterResizeZoomed | src/view/dock_panel.cc:1036-1113 | a magnified panel grows to full size in place and relays its items, keeping the head items |
| PanelState.GrownBackground | src/view/dock_panel.cc:1040-1045 | the background takes the magnified length and keeps its thickness |
| PanelState.ResizedFor | src/view/dock_panel.cc:1043-1113 | the resized items keep their kinds, and the menu and pager items are untouched |
| PanelState.ResizedKinds | src/view/dock_panel.cc:1048-1113 | resizing keeps item kinds and icon tables and leaves the head items untouched |
| PanelItems.PagerCells | src/view/dock_panel.cc:681-689 | one pager cell per desktop, numbered from 1 |
| PanelItems.HeadItems | src/view/dock_panel.cc:662-689 | the head is the application menu, if shown, followed by the pager cells |
| PanelItems.AfterAddTask | src/view/dock_panel.cc:715-745 | only the items change, by at most one new item; a window already shown changes nothing |
| PanelItems.AfterWindowAdded | src/view/dock_panel.cc:343-353 | nothing changes unless the task manager is on and the window is valid; then the task is added and the layout follows |
| PanelItems.WindowAddedHolds | src/view/dock_panel.cc:343-353 | after a valid window appears, the panel shows it when the program created for the window accepts it, and it keeps showing every earlier window |
| PanelItems.AfterRemoveTask | src/view/dock_panel.cc:747-757 | an unknown window changes nothing; otherwise the items are those of TaskRemoved |
| PanelItems.TaskRemovedFits | src/view/dock_panel.cc:747-757 | removing a task keeps every icon table consistent |
| PanelItems.AfterWindowRemoved | src/view/dock_panel.cc:355-361 | nothing changes unless the task manager is on and the window is shown; then the task is removed |
| PanelItems.OpenThenCloseKeepsKinds | src/view/dock_panel.cc:343-361 | a window that opens a new program and then closes leaves the same item kinds |
| PanelItems.AfterUpdateTask | src/view/dock_panel.cc:759-766 | at most the first accepting item changes |
| PanelItems.UpdateTaskKeepsWindows | src/view/dock_panel.cc:759-766 | an update neither adds nor loses windows |
| PanelItems.AfterWindowChanged | src/view/dock_panel.cc:363-383 | a desktop or geometry change adds or removes the window by validity; a state change updates it; other changes do nothing |
| PanelItems.AfterRefresh | src/view/dock_panel.cc:181-189 | nothing changes when no item is removable; otherwise the first removable item goes |
| PanelItems.RefreshKeepsWindows | src/view/dock_panel.cc:181-189 | refreshing keeps every window and removes at most one item |
| PanelItems.Loaded | src/view/dock_panel.cc:60-113 | a freshly loaded panel is minimized, idle and empty, with consistent sizes |
| PanelItems.AfterReloadTasks | src/view/dock_panel.cc:702-713 | without the task manager nothing changes; otherwise the items are the kept head, the launchers, the tasks and the clock |
| PanelItems.ReloadTasksKeepsHead | src/view/dock_panel.cc:702-713 | reloading tasks keeps the head kinds, ends with the clock when shown, and shows every task when the program created for it accepts it |
| PanelItems.ReloadedKindsKeepHead | src/view/dock_panel.cc:702-713 | any list with the reloaded kinds keeps the head, the tasks and the trailing clock |
| PanelItems.InitialItems | src/view/dock_panel.cc:479-484 | the initial items number at least head + launchers + clock |
| PanelItems.AfterInitUi | src/view/dock_panel.cc:479-488 | initUi keeps the settings and sizes, builds the initial items, and leaves the panel minimized unless it is leaving |
| PanelItems.InitialItemsShape | src/view/dock_panel.cc:479-484 | the initial row is menu, pager cells, launchers, task programs, and then the clock when shown |
| PanelItems.HeadLeads | src/view/dock_panel.cc:662-689 | the menu and pager items stay at the front when tasks are inserted |
| PanelItems.ShapeByKinds | src/view/dock_panel.cc:479-488 | the initial shape depends only on item kinds |
| PanelItems.InitUiItems | src/view/dock_panel.cc:479-488 | after initUi the items have the initial shape |
| PanelItems.AfterReload | src/view/dock_panel.cc:174-179 | reload takes the new appearance and launchers and keeps the settings and the animation flags |
| PanelItems.ReloadCanLeaveNoItems | src/view/dock_panel.cc:662-689 | with the menu, pager, clock and task manager off and no launcher, a reload leaves no item |
| PanelItems.AfterUpdatePosition | src/view/dock_panel.h:99-103 | only the edge and the orientation it implies change in the settings |
| PanelItems.AfterUpdateVisibility | src/view/dock_panel.h:105-109 | only the visibility setting changes |
| PanelItems.AfterToggleApplicationMenu | src/view/dock_panel.h:111-115 | only the application-menu setting flips |
| PanelItems.AfterTogglePager | src/view/dock_panel.cc:231-235 | only the pager setting flips |
| PanelItems.AfterToggleClock | src/view/dock_panel.h:131-135 | only the clock setting flips |
| PanelItems.AfterToggleTaskManager | src/view/dock_panel.h:125-129 | only the task-manager setting flips |
| PanelItems.ReloadKindsFromSettings | src/view/dock_panel.cc:174-179 | two panels with the same settings reload to items of the same kinds, whatever their layout or animation state |
| PanelItems.ToggleApplicationMenuTwiceRestores | src/view/dock_panel.h:111-115 | toggling the application menu twice gives the settings back and the items of a plain reload |
| PanelItems.TogglePagerTwiceRestores | src/view/dock_panel.cc:231-235 | toggling the pager twice gives the settings back and the items of a plain reload |
| PanelItems.ToggleClockTwiceRestores | src/view/dock_panel.h:131-135 | toggling the clock twice gives the settings back and the items of a plain reload |
| PanelItems.ToggleTaskManagerTwiceRestores | src/view/dock_panel.h:125-129 | toggling the task manager twice gives the settings back and the items of a plain reload |
| PanelItems.AfterUpdatePager | src/view/dock_panel.h:119-123 | the desktop count is recorded; without a pager nothing else changes |
| PanelItems.AfterDockLaunchersChanged | src/view/dock_panel.h:90-94 | a change to another dock's launchers does nothing; a change to this dock's reloads its launchers |
| DockPanels.EnteringPass | src/view/dock_panel.cc:906-1001 | the loops compute the entering items |
| DockPanels.LeavingPass | src/view/dock_panel.cc:826-882 | the loops compute the leaving items |
| DockPanels.ResizedPass | src/view/dock_panel.cc:1048-1113 | the loops compute the resized items |
| DockPanels.InitPager | src/view/dock_panel.cc:681-689 | the loop appends one pager cell per desktop |
| DockPanels.PagerCellsGrow | src/view/dock_panel.cc:681-689 | one more desktop appends exactly one more pager cell |
| DockPanels.InitialItemsPass | src/view/dock_panel.cc:479-484 | the init steps build the initial items |
| DockPanels.DockPanel.constructor | src/view/dock_panel.cc:60-113 | a new panel is the loaded, minimized panel after initUi |
| DockPanels.DockPanel.InitLayoutVars | src/view/dock_panel.cc:775-822 | the panel state moves as AfterInitLayoutVars says |
| DockPanels.DockPanel.Resize | src/view/dock_panel.cc:115-144 | the panel state moves as AfterResize says |
| DockPanels.DockPanel.UpdateLayout | src/view/dock_panel.cc:824-902 | the panel state moves as AfterUpdateLayout says |
| DockPanels.DockPanel.UpdateLayoutAt | src/view/dock_panel.cc:904-1028 | the panel state moves as AfterUpdateLayoutAt says |
| DockPanels.DockPanel.EnteringLayout | src/view/dock_panel.cc:906-1019 | the panel state moves as AfterEnteringLayout says |
| DockPanels.DockPanel.ZoomLayout | src/view/dock_panel.cc:934-1023 | the panel state moves as AfterZoomLayout says |
| DockPanels.DockPanel.Tick | src/view/dock_panel.cc:245-267 | the panel state moves as AfterTick says |
| DockPanels.DockPanel.MouseMove | src/view/dock_panel.cc:423-443 | the panel state moves as AfterMouseMove says |
| DockPanels.DockPanel.MousePress | src/view/dock_panel.cc:445-456 | no item is hit while animating; otherwise the hit item is the one FindActiveItem selects |
| DockPanels.DockPanel.Enter | src/view/dock_panel.cc:458-463 | the panel state moves as AfterEnter says |
| DockPanels.DockPanel.Leave | src/view/dock_panel.cc:465-477 | the panel state moves as AfterLeave says |
| DockPanels.DockPanel.ResizeTaskManager | src/view/dock_panel.cc:1030-1116 | the panel state moves as AfterResizeTaskManager says |
| DockPanels.DockPanel.ResizeZoomed | src/view/dock_panel.cc:1036-1113 | the panel state moves as AfterResizeZoomed says |
| DockPanels.DockPanel.AddTask | src/view/dock_panel.cc:715-745 | the panel state moves as AfterAddTask says |
| DockPanels.DockPanel.WindowAdded | src/view/dock_panel.cc:343-353 | the panel state moves as AfterWindowAdded says |
| DockPanels.DockPanel.RemoveTask | src/view/dock_panel.cc:747-757 | the panel state moves as AfterRemoveTask says |
| DockPanels.DockPanel.WindowRemoved | src/view/dock_panel.cc:355-361 | the panel state moves as AfterWindowRemoved says |
| DockPanels.DockPanel.UpdateTask | src/view/dock_panel.cc:759-766 | the panel state moves as AfterUpdateTask says |
| DockPanels.DockPanel.WindowChanged | src/view/dock_panel.cc:363-383 | the panel state moves as AfterWindowChanged says |
| DockPanels.DockPanel.Refresh | src/view/dock_panel.cc:181-189 | the panel state moves as AfterRefresh says |
| DockPanels.DockPanel.ReloadTasks | src/view/dock_panel.cc:702-713 | the panel state moves as AfterReloadTasks says |
| DockPanels.DockPanel.InitUi | src/view/dock_panel.cc:479-488 | the panel state moves as AfterInitUi says |
| DockPanels.DockPanel.Reload | src/view/dock_panel.cc:174-179 | the panel state moves as AfterReload says |
| DockPanels.DockPanel.UpdatePosition | src/view/dock_panel.h:99-103 | the panel state moves as AfterUpdatePosition says |
| DockPanels.DockPanel.UpdateVisibility | src/view/dock_panel.h:105-109 | the panel state moves as AfterUpdateVisibility says |
| DockPanels.DockPanel.ToggleApplicationMenu | src/view/dock_panel.h:111-115 | the panel state moves as AfterToggleApplicationMenu says |
| DockPanels.DockPanel.TogglePager | src/view/dock_panel.cc:231-235 | the panel state moves as AfterTogglePager says |
| DockPanels.DockPanel.ToggleClock | src/view/dock_panel.h:131-135 | the panel state moves as AfterToggleClock says |
| DockPanels.DockPanel.ToggleTaskManager | src/view/dock_panel.h:125-129 | the panel state moves as AfterToggleTaskManager says |
| DockPanels.DockPanel.UpdatePager | src/view/dock_panel.h:119-123 | the panel state moves as AfterUpdatePager says |
| DockPanels.DockPanel.DockLaunchersChanged | src/view/dock_panel.h:90-94 | the panel state moves as AfterDockLaunchersChanged says |
| DockPanels.DockPanel.SetScreen | src/view/dock_panel.cc:237-243 | only the screen index and its geometry change |

## Left out

- Painting, tooltips, the right-click menus, the settings dialogs and `Program::draw` are left out. They produce pixels and windows, not state the layout depends on.
- Window-system calls are left out: keep-above/below states, `setOnAllDesktops`, strut reservation (`setStrut(int)`) and `setStrutForApplicationMenu`. `StrutWidth` computes the width that would be reserved.
- The `QTimer` is left out. The animation advances through an explicit `Tick`, and the timer interval is `Placement.TickInterval`.
- `delayedRefresh` is left out: it only schedules `refresh` on a timer.
- KConfig files are left out: `loadDockConfig`, `saveDockConfig`, `loadAppearanceConfig` and `convertConfig`. The settings a panel reads arrive as a value, and saving is not modelled.
- Deleting launcher files, and the dock config files `removeDock` deletes, is left out. The directory listing and file reading are parameters of `Launchers.LoadedLaunchers`.
- The add-dock, clone-dock and remove-dock dialogs are left out, as is the public `addDock(position, screen)` overload that creates the config files. `MultiDockModel.AddDock` takes the paths it would have created.
- Which windows count as tasks, and their properties, come from `TaskHelper` outside these files. They become the `isValidTask` and `TaskInfo` parameters.
- `areTheSameCommand`, `findApplication`, `getTaskCommand` and icon scaling live outside these files. They become function fields of the environment.
- The number of desktops is a panel field that `UpdatePager` sets, not a live `KX11Extras` query.
- Strings are compared character by character (`Text.LexLess`). `QString` compares UTF-16 code units, so the two orders can differ only for characters outside the Basic Multilingual Plane.
- `itemSpacing` is an integer input (`minSize * spacingFactor` after conversion). The documented bound `spacing < minSize` is not assumed.
- The `DockItem` base class (`dock_item.cc`) is not part of this model. Per-item animation uses the same linear, truncating formula as the background (`Animation.Stepped`). `shouldBeRemoved` is taken to mean an unpinned program with no tasks (`ItemList.ShouldBeRemoved`). The menu, pager, separator and clock items answer `beforeTask` through the `otherBefore` field of `ItemList.Env`. `PanelItems.HeadFirst` assumes that the menu and pager sort first.
- `PanelItems.HeadFirst`: that the menu and pager items sort before every task is a hypothesis about the environment. It is needed because `beforeTask` for those items lives in files outside this model.
- `Program::launch`, and the `mousePressEvent` branches for show-desktop and lock-screen, are left out. So are minimize, activate-all and shift-click, which are window-system calls. Only the choice of the next window when cycling is modelled (`Programs.NextTask`).
- `PanelItems.AfterToggleTaskManager`: models the menu action as flipping the stored setting. The source reads the action's checked state, which the action has already flipped.
- `DockPanels.DockPanel.MouseMove`: requires at least one item. `updateLayout(x, y)` writes `items_[0]` without checking the count (dock_panel.cc:937-941), which is undefined behaviour on an empty list. The list can be empty: the clock, menu and pager are optional and every launcher can be unpinned (`PanelItems.ReloadCanLeaveNoItems`). The model does not say what the source does then.
- `DockPanels.DockPanel.UpdateLayoutAt`: requires at least one item, for the same reason as MouseMove: it is `updateLayout(x, y)` itself.
- `Launchers.SyncThenLoad`: holds for 1 to 99 launchers only. A dock saved with no launchers loads back the defaults (multi_dock_model.cc:216-218, `Launchers.SyncNoneThenLoad`). From launcher 100 on, `arg(launcherId, 2, 10, QChar('0'))` (line 204) writes three digits, so "100 - …" sorts between "10 - …" and "11 - …" and the reload changes the order (`Launchers.SavedLaunchersOutOfOrderPast99`).
- `DockPanels.DockPanel.ReloadTasks`: requires the menu and pager items to be present. `reloadTasks` truncates the list with `items_.resize(itemsToKeep)`, and on a shorter list that call would append empty pointers.
- `PanelState.Panel.M`: the panel's layout fields are grouped into a configuration record, layout variables, and an animation record. This grouping is a change of representation only.
- `Icons.IconBasedDockItem.SetIcon`: models the corrected behaviour, in which the table is rebuilt. See Findings.

## Findings

| source | as written | input that shows it | evidently intended | confidence | as-written member | corrected member |
|---|---|---|---|---|---|---|
| src/iconbaseddockitem.cc:45-50 | `setIcon` calls `icons_.clear()` and `icons_.reserve(n)`, then `generateIcons`, which assigns `icons_[size - minSize_]`; `reserve` does not change the size, so every assignment indexes an empty vector | any item whose icon is set after construction, e.g. minSize 32, maxSize 64 | rebuild the table with one icon per size (`resize`, or `push_back` in `generateIcons`) | not executed | Icons.SetIconAsWrittenStoresPastEnd | Icons.IconBasedDockItem.SetIcon |
