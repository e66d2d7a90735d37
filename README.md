# groups-3d placement and highlighting logic, in Dafny

groups-3d is a React/three.js front end that shows invoice-like files in a 3D grid. The
day runs along x, the group (a row) along y and the person (a layer) along z. The view
is driven by the scroll bars and the wheel, and files, group labels, priority lanes and
day columns are dimmed or highlighted by the current selection and filters. Below the
rendering sits a thin layer of deterministic logic. This project models that layer and
proves what it promises:

- **Files** (`files.dfy`): a file's position from its day offset and the `findIndex` of
  its group and person, and its opacity from the selection precedence (file, then
  person, then group), overridden in fly mode.
- **Store** (`store.dfy`): the shared store as a class whose four setters each
  overwrite one field. A value-level reducer `Apply`/`Run` states the same merge, and
  the lemmas about it cover idempotence, last write wins, commutation of different
  setters and the fields that never change.
- **App** (`app.dfy`): the scroll and wheel handlers that write world units into the
  store, the fly-mode toggle, the timeline wheel redirection (a class holding the
  strip's `scrollLeft`), and the spacer and label pixel arithmetic.
- **Rig** (`rig.dfy`): the per-frame camera update, specified by a pose function. A
  method performs it on a camera object.
- **Data** (`data.ts` in `data.dfy`): the generated dataset, with every random draw
  passed in as a bounded index. The proofs cover counts, ids, names, colours,
  referential integrity and uniqueness.
- **Utils** (`utils.dfy`): the priority label table and the node colour palette.
- **Label and lane rules** (`group_layers.dfy`, `people_layers.dfy`,
  `priority_layers.dfy`, `scene_timeline.dfy`): the position and the
  selected/dimmed/colour state of group labels, person pillars, priority lanes and day
  columns.
- **Alignment** (`alignment.dfy`): how the pieces line up. In generated data each
  file sits on its group label's row, its person pillar's layer and its day column.
  Scrolling a scroll bar to a day label or a sidebar row brings the view to that day
  or row.

Modelling choices:

- JavaScript numbers are `real`.
- A file's ISO date is its whole-day offset from the month start. A `YYYY-MM-DD` key is
  `DayKey(offset)`, which is distinct per offset.
- JavaScript truthiness of an optional id is `Types.Truthy`, under which the empty
  string is falsy.
- The components read the selection, the filters, `selectFile`, `selectGroup`,
  `setFilterDate`, `setFilterPriority` and `dimensions.priorityDepth` from the store,
  but `groups-3d/src/store.ts` defines none of them. The store is modelled as defined:
  - the display rules take the selection, the filters and the priority depth as
    parameters;
  - a click handler's effect is the `Command` value it would pass to the store.
- `Priority` is imported but not defined in `groups-3d/src/types.ts`. Here it is p1..p9,
  following the keys of the label table.
- For the camera (`Rig.tsx`) and for file opacity (`Files.tsx`), the view modes top and
  side behave like grid: only fly mode is special there, and the camera moves to the
  scroll values at once, with no eased transition and no per-mode preset. The view-mode
  button does tell them apart: it sends grid to fly but top and side to grid. A file's
  depth comes from its person; files carry no priority.

## Model

| member | source | states |
|---|---|---|
| Strings.NatToString | groups-3d/src/data.ts:6 | the decimal rendering of a number used in ids and names is a non-empty string of digits with no leading zero (except "0" itself); with Strings.ParseNatToString this makes it the one canonical rendering `${n}` gives |
| Strings.ParseNatToString | groups-3d/src/data.ts:28 | reading the rendering of n back gives n, so the rendering loses nothing |
| Strings.NatToStringInjective | groups-3d/src/data.ts:28 | two numbers render the same exactly when they are equal |
| Strings.PrefixedNatInjective | groups-3d/src/data.ts:6 | a fixed prefix followed by a number ("p-", "g-", "f-") identifies the number |
| Strings.UpperChar | groups-3d/src/components/ui/PeopleLayers.tsx:64 | upper-casing maps a-z to A-Z at the same alphabet position and leaves every other character alone |
| Strings.ToUpper | groups-3d/src/components/ui/PeopleLayers.tsx:78 | upper-casing a string keeps its length and upper-cases each character in place |
| Utils.Rank | groups-3d/src/lib/utils.ts:9-19 | every priority has a position in the label table's key order, and the table holds that priority there |
| Utils.PriorityLabel | groups-3d/src/lib/utils.ts:9-19 | definition: the label of each priority, from p1 Critical to p9 Trivial; its promises are stated by Utils.PriorityLabelsDistinct |
| Utils.PrioritiesEnumerateOnce | groups-3d/src/lib/utils.ts:9-19 | the key order lists nine priorities, each exactly once, and Rank inverts it |
| Utils.PriorityLabelsDistinct | groups-3d/src/lib/utils.ts:9-19 | the label table is total and injective: two priorities share a label exactly when they are equal |
| Utils.PaletteDistinct | groups-3d/src/lib/utils.ts:27-40 | the six palette colours are pairwise distinct: no bright shade equals a dark one, and shades of the same kind agree exactly for the same action |
| Utils.Palette | groups-3d/src/lib/utils.ts:27-40 | definition: the bright and dark shade of each action; its promises are stated by Utils.PaletteDistinct and Utils.NodeColor |
| Utils.NodeColor | groups-3d/src/lib/utils.ts:21-43 | getNodeColor gives the action's bright shade exactly when the priority is p1 and its dark shade exactly otherwise |
| Utils.NodeColorDeterminesActionAndUrgency | groups-3d/src/lib/utils.ts:25-42 | two node colours are equal exactly when the actions are equal and both or neither priority is p1 |
| Data.PersonIdInjective | groups-3d/src/data.ts:6 | person ids p-i are equal exactly when the indexes are |
| Data.GroupIdInjective | groups-3d/src/data.ts:13 | group ids g-i are equal exactly when the indexes are |
| Data.FileIdInjective | groups-3d/src/data.ts:28 | file ids f-i are equal exactly when the indexes are |
| Data.PersonId | groups-3d/src/data.ts:6 | definition: the id `p-${i}`; its promises are stated by Data.PersonIdInjective and Strings.NatToString |
| Data.GroupId | groups-3d/src/data.ts:13 | definition: the id `g-${i}`; its promises are stated by Data.GroupIdInjective and Strings.NatToString |
| Data.FileId | groups-3d/src/data.ts:28 | definition: the id `f-${i}`; its promises are stated by Data.FileIdInjective and Strings.NatToString |
| Data.GroupNameLayout | groups-3d/src/data.ts:14 | a group name is "Group ", then the number i+1, then a space |
| Data.GroupName | groups-3d/src/data.ts:14 | definition: "Group ", the number i+1, " - " and the suffix chosen by i mod 4; its promises are stated by Data.GroupNameLayout and Data.GroupNameInjective |
| Data.GroupNameInjective | groups-3d/src/data.ts:14 | group names are pairwise distinct: the number before " - " tells them apart even where the suffix repeats |
| Data.FileColorIsBrightNodeColor | groups-3d/src/data.ts:34 | the colour data.ts gives a file of an action is getNodeColor of that action at p1, the bright shade |
| Data.FileColor | groups-3d/src/data.ts:34 | definition: the colour of a file of each action; its promises are stated by Data.FileColorIsBrightNodeColor |
| Data.MakePerson | groups-3d/src/data.ts:5-10 | definition: person i with id p-i, the i-th name, hue 45·i and zIndex -i; its promises are stated by Data.GenerateData |
| Data.MakeGroup | groups-3d/src/data.ts:12-16 | definition: group i with id g-i, its name and yIndex -i; its promises are stated by Data.GenerateData |
| Data.MakeFile | groups-3d/src/data.ts:20-35 | definition: file i from its draw, taking the drawn group's and person's ids; its promises are stated by Data.GenerateData |
| Data.People | groups-3d/src/data.ts:5-10 | exactly eight people, person i built from index i |
| Data.Groups | groups-3d/src/data.ts:12-16 | exactly twenty groups, group i built from index i |
| Data.Files | groups-3d/src/data.ts:20-36 | exactly one hundred files, file k built from draw k |
| Data.GenerateData | groups-3d/src/data.ts:4-39 | 8 people, 20 groups and 100 files; person i is p-i with the i-th name, colour hsl(45·i, 70%, 50%) and zIndex -i; group i is g-i with its name and yIndex -i; file k is f-k named "Invoice #(1000+k)" on draw k's day in [0, 30), with draw k's group and person ids and action, coloured as its action's bright node colour; every file's group and person exist; all ids are unique |
| Files.FindIndex | groups-3d/src/components/ui/Files.tsx:91 | findIndex gives -1 exactly when nothing matches, and otherwise the first matching index |
| Files.GroupIndex | groups-3d/src/components/ui/Files.tsx:91 | the group lookup is -1 exactly when no group has the id, otherwise the first group holding it |
| Files.PersonIndex | groups-3d/src/components/ui/Files.tsx:94 | the person lookup is -1 exactly when no person has the id, otherwise the first person holding it |
| Files.FilePosition | groups-3d/src/components/ui/Files.tsx:87-95 | x is the day offset times dayWidth; a file whose group is first found at k sits at y = -k·groupHeight and whose person is first found at k at z = -k·personDepth; a missing group or person puts it one step outside the grid, at y = +groupHeight or z = +personDepth |
| Files.PositionAtIndexes | groups-3d/src/components/ui/Files.tsx:88-95 | once the first indexes of the file's group and person are known, the whole position follows from them and the day |
| Files.FileXMonotone | groups-3d/src/components/ui/Files.tsx:88-89 | with a non-negative day width, a later file never sits left of an earlier one |
| Files.SharedRowAndLayer | groups-3d/src/components/ui/Files.tsx:91-95 | files of the same group share y, files of the same person share z |
| Files.SelectionOpacity | groups-3d/src/components/ui/Files.tsx:98-106 | the selection rule gives 1 or 0.3, and the first truthy tier decides which file gets 1: with a selected file, exactly that file; else with a selected person, exactly that person's files; else with a selected group, exactly that group's files; with nothing selected, every file |
| Files.FileOpacity | groups-3d/src/components/ui/Files.tsx:98-108 | the opacity is one of 0.3, 0.5, 1; it is 0.5 exactly in fly mode; outside fly mode with a selected file, it is 1 exactly for that file; outside fly mode it is the selection rule's value |
| Files.NothingSelectedNothingDimmed | groups-3d/src/components/ui/Files.tsx:98-106 | outside fly mode with no file, person or group selected, every file is fully opaque |
| Files.SelectedFileTakesPrecedence | groups-3d/src/components/ui/Files.tsx:100-106 | a selected file decides alone: changing the person and group selection changes nothing |
| Files.SelectedPersonOverridesGroup | groups-3d/src/components/ui/Files.tsx:102-106 | without a selected file, a selected person overrides any group selection and lights exactly that person's files |
| Files.SelectedGroupLightsItsFiles | groups-3d/src/components/ui/Files.tsx:104-105 | without a selected file or a truthy selected person, a truthy selected group puts exactly its own files at 1 and every other file at 0.3, outside fly mode |
| Files.Pills | groups-3d/src/components/ui/Files.tsx:87-118 | one pill per file, in file order, each with its file's position, fly flag, opacity and select-file click |
| Files.Pill | groups-3d/src/components/ui/Files.tsx:110-117 | definition: a file's pill with its position, fly flag, opacity and select-file click; its promises are stated by Files.FilePosition, Files.FileOpacity and Files.BackgroundClickUndims |
| Files.ClearedSelection | groups-3d/src/Scene.tsx:17-21 | a background click leaves no file, no person and no group selected |
| Files.BackgroundClickUndims | groups-3d/src/Scene.tsx:17-21 | after a background click clears the selection, no pill is dimmed outside fly mode |
| Store.Apply | groups-3d/src/store.ts:43-46 | each setter writes its own field with the given value and leaves every other field unchanged |
| Store.ApplyIdempotent | groups-3d/src/store.ts:43-46 | calling a setter twice with the same value is calling it once |
| Store.LastWriteWins | groups-3d/src/store.ts:43-46 | two calls of the same setter leave the second call's value |
| Store.DifferentSettersCommute | groups-3d/src/store.ts:43-46 | calls of different setters can be swapped |
| Store.Run | groups-3d/src/store.ts:43-46 | no series of setter calls changes zoomLevel, pixelsPerUnit or the dimensions |
| Store.RunConcat | groups-3d/src/store.ts:43-46 | running two series of setter calls one after the other is running their concatenation |
| Store.FixedFieldsNeverChange | groups-3d/src/store.ts:28-41 | from the initial store, the fields without a setter keep their initial values, pixelsPerUnit 50 in particular |
| Store.Store.constructor | groups-3d/src/store.ts:27-41 | the store starts at scroll (0, 0, 10), zoom 1, grid mode, 50 pixels per unit, dimensions (2, 1.5, 5) |
| Store.Store.SetScrollX | groups-3d/src/store.ts:43 | setScrollX changes scrollX to the value and nothing else |
| Store.Store.SetScrollY | groups-3d/src/store.ts:44 | setScrollY changes scrollY to the value and nothing else |
| Store.Store.SetScrollZ | groups-3d/src/store.ts:45 | setScrollZ changes scrollZ to the value and nothing else |
| Store.Store.SetViewMode | groups-3d/src/store.ts:46 | setViewMode changes viewMode to the mode and nothing else |
| App.DayLabelsTileTimeline | groups-3d/src/App.tsx:143-147 | day labels start inside the timeline spacer, one day-width of pixels apart, and a label after the last day would start exactly at the spacer's right edge |
| App.TimelineWidth | groups-3d/src/App.tsx:24 | definition: thirty day-widths in pixels; its promises are stated by App.DayLabelsTileTimeline |
| App.DayLabelLeft | groups-3d/src/App.tsx:147 | definition: i day-widths in pixels; its promises are stated by App.DayLabelsTileTimeline and App.ScrollToDayLabel |
| App.RowsFillSidebar | groups-3d/src/App.tsx:100-112 | the stacked group rows of the sidebar overlay are exactly as tall as the spacer that makes the sidebar scroll |
| App.StackedRows | groups-3d/src/App.tsx:100-112 | definition: the height of the first n sidebar rows stacked one under another; its promises are stated by App.RowsFillSidebar and App.ScrollToSidebarRow |
| App.SidebarRowHeight | groups-3d/src/App.tsx:104 | definition: one group height in pixels; its promises are stated by App.RowsFillSidebar |
| App.SidebarHeight | groups-3d/src/App.tsx:27 | definition: all group heights in pixels; its promises are stated by App.RowsFillSidebar and App.ScrollToSidebarRow |
| App.WorldX | groups-3d/src/App.tsx:38 | the world x times pixelsPerUnit is the pixel scroll, and is non-negative for a non-negative scroll |
| App.WorldY | groups-3d/src/App.tsx:32 | the world y times pixelsPerUnit is minus the pixel scroll, so scrolling down never moves the view up |
| App.ScrollToDayLabel | groups-3d/src/App.tsx:147 | scrolling the timeline to day label i's left edge sets the view x to i day-widths |
| App.ScrollToSidebarRow | groups-3d/src/App.tsx:104 | scrolling the sidebar past k rows sets the view y to k group-heights below the top |
| App.WheelDepth | groups-3d/src/App.tsx:45-46 | a zero wheel delta keeps the depth, a positive one increases it and a negative one decreases it |
| App.ToggleTarget | groups-3d/src/App.tsx:80 | the header button switches to fly exactly from grid and to grid from every other mode |
| App.ToggleTwice | groups-3d/src/App.tsx:80 | two presses return to the starting mode exactly when it was grid or fly |
| App.HandleScrollY | groups-3d/src/App.tsx:30-34 | the sidebar scroll writes -(scrollTop / pixelsPerUnit) to scrollY, changes nothing else and keeps the store's fixed fields |
| App.HandleScrollX | groups-3d/src/App.tsx:36-40 | the timeline scroll writes scrollLeft / pixelsPerUnit to scrollX, changes nothing else and keeps the store's fixed fields |
| App.HandleWheel | groups-3d/src/App.tsx:42-48 | in fly mode the canvas wheel changes nothing; otherwise it writes scrollZ + 0.05·deltaY to scrollZ and nothing else |
| App.ToggleViewMode | groups-3d/src/App.tsx:80 | the header button writes the toggle target of the current mode and nothing else |
| App.TimelineStrip.HandleTimelineWheel | groups-3d/src/App.tsx:51-57 | a non-zero vertical wheel delta scrolls the timeline sideways by that delta; a zero one leaves it |
| Rig.FramePose | groups-3d/src/components/ui/Rig.tsx:7-19 | in fly mode the frame sets no pose; otherwise the camera goes to (scrollX, scrollY, scrollZ) and looks at (scrollX, scrollY, 0), which is scrollZ towards -z from the camera |
| Rig.NonFlyModesAlike | groups-3d/src/components/ui/Rig.tsx:8 | top and side views give exactly the grid view's pose |
| Rig.PoseDependsOnScrollAndMode | groups-3d/src/components/ui/Rig.tsx:5-12 | the pose depends on the three scroll values and the mode only |
| Rig.Frame | groups-3d/src/components/ui/Rig.tsx:7-19 | in fly mode the camera is untouched; otherwise its position and look-at point are the frame pose of the store, whatever they were before, so a repeated frame changes nothing further |
| GroupLayers.Label | groups-3d/src/components/ui/GroupLayers.tsx:20-42 | the label sits at (-3, yIndex·groupHeight, 0.5); it is active exactly when its group is the selected group or owns the selected file; it is white and underlined exactly when active; it is at 0.3 exactly when a truthy group is selected and it is inactive, otherwise at 1; clicking selects its own group |
| GroupLayers.Labels | groups-3d/src/components/ui/GroupLayers.tsx:20 | one label per group, in group order |
| GroupLayers.FileSelectionNeverDims | groups-3d/src/components/ui/GroupLayers.tsx:36 | with no truthy group selected, a file selection alone never dims a label |
| GroupLayers.ClickedLabelStandsOut | groups-3d/src/components/ui/GroupLayers.tsx:30-42 | with distinct group ids, after the id a label passes on click is selected, that label is the only active one and, for a non-empty id, every other label is dimmed |
| PeopleLayers.Initials | groups-3d/src/components/ui/PeopleLayers.tsx:64 | the avatar text is the first two characters (Unicode scalar values) of the name, or the whole name if shorter, upper-cased |
| PeopleLayers.Pillar | groups-3d/src/components/ui/PeopleLayers.tsx:14-78 | the pillar for index i stands at (-4, 0, -i·personDepth), is groups·groupHeight tall and spans y from 0 down to -groups·groupHeight; its avatar shows the initials and its vertical name is the upper-cased name |
| PeopleLayers.Pillars | groups-3d/src/components/ui/PeopleLayers.tsx:18 | exactly one pillar per person, in people order |
| PriorityLayers.MakeLane | groups-3d/src/components/ui/PriorityLayers.tsx:25-43 | the lane carries its priority's label; it is selected exactly when the filter is its priority; it is at 0.2 exactly when another priority is the filter, otherwise at 1; it is getNodeColor('paid', p): bright green exactly for p1 and the dark paid green for p2–p9; its header sphere is at x = -4 and the lane at z = -index·priorityDepth; clicking filters by its priority |
| PriorityLayers.Lanes | groups-3d/src/components/ui/PriorityLayers.tsx:16-25 | one lane per key of the label table, in key order |
| PriorityLayers.LanePlacement | groups-3d/src/components/ui/PriorityLayers.tsx:25-28 | lane i holds the i-th priority, sits at z = -i·priorityDepth with its header at 8 + 1.5·i |
| PriorityLayers.HeadersClimb | groups-3d/src/components/ui/PriorityLayers.tsx:27-28 | header heights strictly increase from p1 to p9 |
| PriorityLayers.FilterSelectsOneLane | groups-3d/src/components/ui/PriorityLayers.tsx:31-33 | at most one lane is selected; without a filter none is selected or dimmed; with one, its lane is selected and every other lane dimmed |
| PriorityLayers.OnlyFirstLaneBright | groups-3d/src/components/ui/PriorityLayers.tsx:37 | lane i is bright green exactly when i is 0, the p1 lane |
| PriorityLayers.ClickedLaneSelected | groups-3d/src/components/ui/PriorityLayers.tsx:18-21 | clicking lane i filters by the i-th priority, which then selects lane i |
| SceneTimeline.Column | groups-3d/src/components/ui/SceneTimeline.tsx:25-86 | column i is day i at x = i·dayWidth; it is a week start exactly when i mod 7 is 0; it is selected exactly when the date filter is its day; it is at 0.3 exactly when another day is the filter, otherwise at 1; it is blue exactly when selected, white exactly when an unselected week start, slate otherwise; week starts get the large font and the guide line; its labels sit at y = 4 and at the bottom line; clicking filters by its day |
| SceneTimeline.Columns | groups-3d/src/components/ui/SceneTimeline.tsx:13-25 | exactly thirty columns, day 0 first |
| SceneTimeline.WeekStarts | groups-3d/src/components/ui/SceneTimeline.tsx:29 | the week-start columns are exactly days 0, 7, 14, 21 and 28 |
| SceneTimeline.DateFilterSelectsAtMostOne | groups-3d/src/components/ui/SceneTimeline.tsx:31-33 | at most one column is selected; without a filter every column is at 1; with one, every unselected column is at 0.3 |
| SceneTimeline.ClickedColumnSelected | groups-3d/src/components/ui/SceneTimeline.tsx:18-21 | clicking column i filters by day i, which then selects column i |
| SceneTimeline.BottomY | groups-3d/src/components/ui/SceneTimeline.tsx:14-16 | definition: the bottom label line, 5 below the total row height; its promises are stated by SceneTimeline.Column and SceneTimeline.BottomLabelsBelowTop |
| SceneTimeline.BottomLabelsBelowTop | groups-3d/src/components/ui/SceneTimeline.tsx:14-16 | with a non-negative row height the bottom labels sit below the top labels |
| Alignment.GeneratedLookups | groups-3d/src/data.ts:6-15 | in generated data the group with id g-i is found at index i and the person with id p-i at index i |
| Alignment.GeneratedFileIndexes | groups-3d/src/data.ts:20-32 | generated file k is on draw k's day, and its group and person are found at draw k's group and person indexes |
| Alignment.GeneratedMatchesDraws | groups-3d/src/data.ts:12-32 | the generated dataset has groups on rows 0, -1, -2, ..., unique ids, and every file found at its draw's day, group and person |
| Alignment.FilePositionFromDraws | groups-3d/src/components/ui/Files.tsx:87-95 | in a dataset matching its draws, file k sits at (day·dayWidth, -group·groupHeight, -person·personDepth) of draw k, never at a fallback position |
| Alignment.GroupLabelOnItsFilesRow | groups-3d/src/components/ui/GroupLayers.tsx:23 | a group's label sits on the row of that group's files |
| Alignment.PillarOnItsFilesLayer | groups-3d/src/components/ui/PeopleLayers.tsx:22 | a person's pillar stands at the depth of that person's files |
| Alignment.DayColumnOverItsFiles | groups-3d/src/components/ui/SceneTimeline.tsx:28 | day column i stands at the x of every file dated day i |
| Alignment.TimelineScrollReachesDay | groups-3d/src/App.tsx:38 | scrolling the timeline to day label i's left edge brings the view x to the x of the files of day i |
| Alignment.SidebarScrollReachesGroup | groups-3d/src/App.tsx:32 | scrolling the sidebar past a group's rows brings the view y to the row of that group's files |
| Alignment.GeneratedInitialsDistinct | groups-3d/src/components/ui/PeopleLayers.tsx:64 | the eight generated people show pairwise different avatar initials |

## Left out

- Rendering is not modelled. This covers meshes, geometries, materials, text, hover state, cursor styling, the JSX layout and the class strings. Of each component the model keeps the values it computes and the store call each click makes, as a `Command` value.
- `groups-3d/src/Scene.tsx` is not part of this model, except for its background-click rule, which is `Files.ClearedSelection`.
- dayjs is not modelled: the month start, `add`, `diff`, `format` and `toISOString`. A date is a whole-day offset and a day key is `DayKey(offset)`, so the wall-clock start date and the formatted labels are outside the model.
- `Math.random` is not modelled. Each file's four draws are an input, `Data.FileDraw`, already floored into the range of its collection.
- `cn` is not modelled. It wraps class-name libraries that are not part of this model.
- Floating point: numbers are `real`. Nothing is claimed about the rounding of 1.5, 0.05, 0.3 or of the divisions by pixelsPerUnit.
- App.WorldX: requires a non-zero pixelsPerUnit. The store fixes it at 50, and a zero divisor (Infinity or NaN in JavaScript) is not modelled.
- App.WorldY: requires a non-zero pixelsPerUnit, for the same reason.
- App.HandleScrollX: browser clamping of scrollLeft and the scroll event itself are not modelled. The handler takes the element's scroll offset as a number.
- App.HandleWheel: reads the store's current scrollZ. The source reads the value captured at the last render, which is the same value unless the store changed after that render.
- App.TimelineStrip.HandleTimelineWheel: the browser's clamping of scrollLeft to the scrollable range is not modelled, and neither is the native horizontal (deltaX) scrolling.
- Strings.UpperChar: upper-cases only ASCII a-z. JavaScript `toUpperCase` also maps other letters, including some that become two characters.
- Strings.ToUpper: keeps the length of the string, character by character. JavaScript `toUpperCase` can lengthen it: "ß" becomes "SS". So for names with such letters the modelled vertical name differs from the rendered one.
- PeopleLayers.Initials: takes the first two Unicode scalar values of the name, since a Dafny `char` is one scalar value. JavaScript `substring(0, 2)` takes two UTF-16 code units, so for a name that starts with a character outside the Basic Multilingual Plane it gives only that one character (as a surrogate pair), not two. UTF-16 encoding is not modelled.
- Rig.FramePose: the camera orientation is modelled as the point it looks at. The rotation three.js derives from it is not modelled.
- PriorityLayers.MakeLane: the lane guide plane and its position are not modelled.
- SceneTimeline.Column: the tick and guide-line mesh positions are not modelled.
- PriorityLayers and SceneTimeline are not mounted by the scene. Their rules are modelled as standalone functions.
- The store has no selection, filter or priorityDepth fields, and no `selectFile`, `selectPerson`, `selectGroup`, `setFilterDate` or `setFilterPriority` setters. These values are parameters, and the setters' effects are not modelled.
- Behaviour the code does not have is not modelled:
  - eased view-mode transitions and camera presets for top and side;
  - toggling filters and clearing filters;
  - filters clearing the selection;
  - placing files by priority.
