/** The group labels to the left of the grid (groups-3d/src/components/ui/GroupLayers.tsx):
    one label per group at its row, highlighted when its group is selected or owns the
    selected file, dimmed when another group is selected. */
module GroupLayers {
  import opened Types

  const LabelX: real := -3.0
  const LabelZ: real := 0.5
  const ActiveColor: string := "white"
  const IdleColor: string := "#94a3b8"

  /** What one label is drawn with, and what clicking it asks of the store. */
  datatype GroupLabel = GroupLabel(
    position: Vec3,
    text: string,
    active: bool,
    color: string,
    opacity: real,
    highlightLine: bool,
    onClick: Command)

  function Label(group: Group, groupHeight: real, selectedGroupId: Option<string>, selectedFile: Option<FileNode>): (l: GroupLabel)
    ensures l.position.y == group.yIndex as real * groupHeight
    ensures l.position.x == LabelX && l.position.z == LabelZ
    ensures l.active <==> selectedGroupId == Some(group.id) || (selectedFile.Some? && selectedFile.value.groupId == group.id)
    ensures l.color == ActiveColor <==> l.active
    ensures l.highlightLine <==> l.active
    ensures l.opacity == 0.3 <==> Truthy(selectedGroupId) && !l.active
    ensures l.opacity == 1.0 <==> !(Truthy(selectedGroupId) && !l.active)
    ensures l.onClick == SelectGroup(group.id)
  {
    var y := group.yIndex as real * groupHeight;
    var isSelected := selectedGroupId == Some(group.id);
    var isFileOwner := selectedFile.Some? && selectedFile.value.groupId == group.id;
    var isActive := isSelected || isFileOwner;
    var color := if isActive then ActiveColor else IdleColor;
    var opacity := if Truthy(selectedGroupId) && !isActive then 0.3 else 1.0;
    GroupLabel(Vec3(LabelX, y, LabelZ), group.name, isActive, color, opacity, isActive, SelectGroup(group.id))
  }

  /** One label per group, in the order of the groups. */
  function Labels(groups: seq<Group>, groupHeight: real, selectedGroupId: Option<string>, selectedFile: Option<FileNode>): (ls: seq<GroupLabel>)
    ensures |ls| == |groups|
    ensures forall i :: 0 <= i < |ls| ==> ls[i] == Label(groups[i], groupHeight, selectedGroupId, selectedFile)
  {
    seq(|groups|, i requires 0 <= i < |groups| => Label(groups[i], groupHeight, selectedGroupId, selectedFile))
  }

  /** Selecting a file alone never dims a label. */
  lemma FileSelectionNeverDims(groups: seq<Group>, groupHeight: real, selectedGroupId: Option<string>, selectedFile: Option<FileNode>)
    requires !Truthy(selectedGroupId)
    ensures forall l :: l in Labels(groups, groupHeight, selectedGroupId, selectedFile) ==> l.opacity == 1.0
  {
  }

  /** When the selection holds the id that label `i` passes on click, and no file is
      selected, label `i` is the only active label; if that id is non-empty, every
      other label is dimmed. Group ids are assumed distinct, as generated. */
  lemma ClickedLabelStandsOut(groups: seq<Group>, groupHeight: real, i: int)
    requires 0 <= i < |groups|
    requires forall a, b :: 0 <= a < b < |groups| ==> groups[a].id != groups[b].id
    ensures var ls := Labels(groups, groupHeight, Some(groups[i].id), None);
      && ls[i].onClick == SelectGroup(groups[i].id)
      && ls[i].active && ls[i].opacity == 1.0
      && (forall j :: 0 <= j < |ls| && j != i ==> !ls[j].active)
      && (groups[i].id != "" ==> forall j :: 0 <= j < |ls| && j != i ==> ls[j].opacity == 0.3)
  {
  }
}
