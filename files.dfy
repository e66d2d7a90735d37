/** Placement and dimming of the file pills (groups-3d/src/components/ui/Files.tsx):
    x from the file's day, y from its group's index, z from its person's index, and an
    opacity chosen by the current selection, overridden in fly mode. */
module Files {
  import opened Types

  /** Array.prototype.findIndex: the first index whose element satisfies `matches`, or -1. */
  function FindIndex<T>(xs: seq<T>, matches: T -> bool): (r: int)
    ensures -1 <= r < |xs|
    ensures r == -1 <==> forall j :: 0 <= j < |xs| ==> !matches(xs[j])
    ensures 0 <= r ==> matches(xs[r]) && forall j :: 0 <= j < r ==> !matches(xs[j])
  {
    if |xs| == 0 then -1
    else if matches(xs[0]) then 0
    else
      var k := FindIndex(xs[1..], matches);
      if k == -1 then -1 else k + 1
  }

  /** `k` is the first index of a group with this id. */
  predicate FirstGroupWithId(groups: seq<Group>, k: int, id: string) {
    0 <= k < |groups| && groups[k].id == id && forall j :: 0 <= j < k ==> groups[j].id != id
  }

  /** `k` is the first index of a person with this id. */
  predicate FirstPersonWithId(people: seq<Person>, k: int, id: string) {
    0 <= k < |people| && people[k].id == id && forall j :: 0 <= j < k ==> people[j].id != id
  }

  function GroupIndex(groups: seq<Group>, id: string): (r: int)
    ensures r == -1 <==> forall j :: 0 <= j < |groups| ==> groups[j].id != id
    ensures r != -1 ==> FirstGroupWithId(groups, r, id)
  {
    FindIndex(groups, (g: Group) => g.id == id)
  }

  function PersonIndex(people: seq<Person>, id: string): (r: int)
    ensures r == -1 <==> forall j :: 0 <= j < |people| ==> people[j].id != id
    ensures r != -1 ==> FirstPersonWithId(people, r, id)
  {
    FindIndex(people, (p: Person) => p.id == id)
  }

  /** Where a file sits: the day along x, the group row along y (downwards), the
      person layer along z (away from the camera). A group or person that is not found
      gives index -1, one step outside the grid on the positive side. */
  function FilePosition(file: FileNode, groups: seq<Group>, people: seq<Person>, dims: Dimensions): (p: Vec3)
    ensures p.x == file.dayOffset as real * dims.dayWidth
    ensures forall k :: FirstGroupWithId(groups, k, file.groupId) ==> p.y == -(k as real) * dims.groupHeight
    ensures (forall j :: 0 <= j < |groups| ==> groups[j].id != file.groupId) ==> p.y == dims.groupHeight
    ensures forall k :: FirstPersonWithId(people, k, file.personId) ==> p.z == -(k as real) * dims.personDepth
    ensures (forall j :: 0 <= j < |people| ==> people[j].id != file.personId) ==> p.z == dims.personDepth
  {
    var dayDiff := file.dayOffset;
    var x := dayDiff as real * dims.dayWidth;
    var groupIndex := GroupIndex(groups, file.groupId);
    var y := groupIndex as real * -dims.groupHeight;
    var personIndex := PersonIndex(people, file.personId);
    var z := personIndex as real * -dims.personDepth;
    Vec3(x, y, z)
  }

  /** Where a file sits, once the first indexes of its group and its person are known. */
  lemma PositionAtIndexes(file: FileNode, groups: seq<Group>, people: seq<Person>, dims: Dimensions, g: int, q: int)
    requires FirstGroupWithId(groups, g, file.groupId) && FirstPersonWithId(people, q, file.personId)
    ensures FilePosition(file, groups, people, dims)
      == Vec3(file.dayOffset as real * dims.dayWidth, -(g as real) * dims.groupHeight, -(q as real) * dims.personDepth)
  {
  }

  /** Later files never sit to the left of earlier ones. */
  lemma FileXMonotone(f: FileNode, g: FileNode, groups: seq<Group>, people: seq<Person>, dims: Dimensions)
    requires dims.dayWidth >= 0.0 && f.dayOffset <= g.dayOffset
    ensures FilePosition(f, groups, people, dims).x <= FilePosition(g, groups, people, dims).x
  {
  }

  /** Files of one group share a row, files of one person share a layer. */
  lemma SharedRowAndLayer(f: FileNode, g: FileNode, groups: seq<Group>, people: seq<Person>, dims: Dimensions)
    ensures f.groupId == g.groupId ==> FilePosition(f, groups, people, dims).y == FilePosition(g, groups, people, dims).y
    ensures f.personId == g.personId ==> FilePosition(f, groups, people, dims).z == FilePosition(g, groups, people, dims).z
  {
  }

  /** The selection the pills react to: the selected file, person and group. */
  datatype Selection = Selection(file: Option<FileNode>, personId: Option<string>, groupId: Option<string>)

  /** A background click clears all three (groups-3d/src/Scene.tsx). */
  function ClearedSelection(): (s: Selection)
    ensures s.file.None? && !Truthy(s.personId) && !Truthy(s.groupId)
  {
    Selection(None, None, None)
  }

  /** The opacity chosen by the selection: the first of file, person, group that is set decides. */
  function SelectionOpacity(file: FileNode, sel: Selection): (o: real)
    ensures o == 1.0 || o == 0.3
    ensures sel.file.Some? ==> (o == 1.0 <==> sel.file.value.id == file.id)
    ensures sel.file.None? && Truthy(sel.personId) ==> (o == 1.0 <==> file.personId == sel.personId.value)
    ensures sel.file.None? && !Truthy(sel.personId) && Truthy(sel.groupId) ==>
      (o == 1.0 <==> file.groupId == sel.groupId.value)
    ensures sel.file.None? && !Truthy(sel.personId) && !Truthy(sel.groupId) ==> o == 1.0
  {
    if sel.file.Some? then
      (if sel.file.value.id == file.id then 1.0 else 0.3)
    else if Truthy(sel.personId) then
      (if file.personId == sel.personId.value then 1.0 else 0.3)
    else if Truthy(sel.groupId) then
      (if file.groupId == sel.groupId.value then 1.0 else 0.3)
    else
      1.0
  }

  /** The opacity of a pill: the selection's choice, replaced by 0.5 in fly mode. */
  function FileOpacity(file: FileNode, viewMode: ViewMode, sel: Selection): (o: real)
    ensures o == 0.3 || o == 0.5 || o == 1.0
    ensures o == 0.5 <==> viewMode == Fly
    ensures viewMode != Fly && sel.file.Some? ==> (o == 1.0 <==> sel.file.value.id == file.id)
    ensures viewMode != Fly ==> o == SelectionOpacity(file, sel)
  {
    var opacity := SelectionOpacity(file, sel);
    if viewMode == Fly then 0.5 else opacity
  }

  /** Outside fly mode, with nothing selected, every file is fully opaque. */
  lemma NothingSelectedNothingDimmed(file: FileNode, viewMode: ViewMode, sel: Selection)
    requires viewMode != Fly && sel.file.None? && !Truthy(sel.personId) && !Truthy(sel.groupId)
    ensures FileOpacity(file, viewMode, sel) == 1.0
  {
  }

  /** A selected file decides alone: the person and group selections do not matter. */
  lemma SelectedFileTakesPrecedence(file: FileNode, viewMode: ViewMode, sel: Selection, personId: Option<string>, groupId: Option<string>)
    requires sel.file.Some?
    ensures FileOpacity(file, viewMode, sel) == FileOpacity(file, viewMode, Selection(sel.file, personId, groupId))
  {
  }

  /** Without a selected file, a selected person overrides a selected group. */
  lemma SelectedPersonOverridesGroup(file: FileNode, viewMode: ViewMode, sel: Selection, groupId: Option<string>)
    requires sel.file.None? && Truthy(sel.personId)
    ensures FileOpacity(file, viewMode, sel) == FileOpacity(file, viewMode, sel.(groupId := groupId))
    ensures viewMode != Fly ==> (FileOpacity(file, viewMode, sel) == 1.0 <==> file.personId == sel.personId.value)
  {
  }

  /** Without a selected file or a selected person, a selected group lights exactly its
      own files and dims the rest. */
  lemma SelectedGroupLightsItsFiles(file: FileNode, viewMode: ViewMode, sel: Selection)
    requires sel.file.None? && !Truthy(sel.personId) && Truthy(sel.groupId)
    ensures viewMode != Fly ==> (FileOpacity(file, viewMode, sel) == 1.0 <==> file.groupId == sel.groupId.value)
    ensures viewMode != Fly ==> (FileOpacity(file, viewMode, sel) == 0.3 <==> file.groupId != sel.groupId.value)
  {
  }

  /** What one pill is drawn with, and what clicking it asks of the store. */
  datatype FilePill = FilePill(position: Vec3, isFlyMode: bool, opacity: real, onClick: Command)

  function Pill(file: FileNode, data: Dataset, dims: Dimensions, viewMode: ViewMode, sel: Selection): FilePill {
    FilePill(FilePosition(file, data.groups, data.people, dims), viewMode == Fly, FileOpacity(file, viewMode, sel), SelectFile(file))
  }

  /** One pill per file, in the order of the files. */
  function Pills(data: Dataset, dims: Dimensions, viewMode: ViewMode, sel: Selection): (ps: seq<FilePill>)
    ensures |ps| == |data.files|
    ensures forall k :: 0 <= k < |ps| ==> ps[k] == Pill(data.files[k], data, dims, viewMode, sel)
  {
    seq(|data.files|, k requires 0 <= k < |data.files| => Pill(data.files[k], data, dims, viewMode, sel))
  }

  /** After a background click, outside fly mode, no pill is dimmed. */
  lemma BackgroundClickUndims(data: Dataset, dims: Dimensions, viewMode: ViewMode)
    requires viewMode != Fly
    ensures forall p :: p in Pills(data, dims, viewMode, ClearedSelection()) ==> p.opacity == 1.0
  {
  }
}
