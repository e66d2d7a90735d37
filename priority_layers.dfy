/** The priority lanes (groups-3d/src/components/ui/PriorityLayers.tsx): one lane per
    priority in label-table order, each further back and higher than the one before,
    dimmed when another priority is the filter, coloured as a paid node of its priority. */
module PriorityLayers {
  import opened Types
  import opened Utils

  /** The x of every lane's header sphere; its caption starts 2.5 further right. */
  const LaneX: real := -4.0
  const HeaderBaseY: real := 8.0
  const StairStep: real := 1.5

  /** What one lane is drawn with, and what clicking it asks of the store. */
  datatype Lane = Lane(
    priority: Priority,
    caption: string,
    headerX: real,
    z: real,
    yTop: real,
    opacity: real,
    selectedIndicator: bool,
    color: string,
    onClick: Command)

  function MakeLane(index: nat, p: Priority, priorityDepth: real, filter: Option<Priority>): (l: Lane)
    ensures l.priority == p && l.caption == PriorityLabel(p)
    ensures l.selectedIndicator <==> filter == Some(p)
    ensures l.opacity == 0.2 <==> filter.Some? && filter != Some(p)
    ensures l.opacity == 1.0 <==> !(filter.Some? && filter != Some(p))
    ensures l.color == Palette(Paid).bright <==> p == P1
    ensures p != P1 ==> l.color == Palette(Paid).dark
    ensures l.headerX == LaneX && l.z == index as real * -priorityDepth
    ensures l.onClick == SetFilterPriority(p)
  {
    var z := index as real * -priorityDepth;
    var staircaseOffset := index as real * StairStep;
    var yTop := HeaderBaseY + staircaseOffset;
    var isSelected := filter == Some(p);
    var isDimmed := filter.Some? && !isSelected;
    var opacity := if isDimmed then 0.2 else 1.0;
    Lane(p, PriorityLabel(p), LaneX, z, yTop, opacity, isSelected, NodeColor(Paid, p), SetFilterPriority(p))
  }

  /** The lanes, one per key of the label table, in key order. */
  function Lanes(priorityDepth: real, filter: Option<Priority>): (ls: seq<Lane>)
    ensures |ls| == |Priorities|
    ensures forall i :: 0 <= i < |ls| ==> ls[i] == MakeLane(i, Priorities[i], priorityDepth, filter)
  {
    seq(|Priorities|, i requires 0 <= i < |Priorities| => MakeLane(i, Priorities[i], priorityDepth, filter))
  }

  /** Lane `i` holds the `i`-th priority, `i` lane-depths back and `i` stair steps up. */
  lemma LanePlacement(priorityDepth: real, filter: Option<Priority>, i: int)
    requires 0 <= i < |Priorities|
    ensures var l := Lanes(priorityDepth, filter)[i];
      && l.priority == Priorities[i]
      && Rank(l.priority) == i
      && l.z == -(i as real) * priorityDepth
      && l.yTop == 8.0 + 1.5 * i as real
  {
  }

  /** The header spheres climb strictly from p1 to p9. */
  lemma HeadersClimb(priorityDepth: real, filter: Option<Priority>, i: int, j: int)
    requires 0 <= i < j < |Priorities|
    ensures Lanes(priorityDepth, filter)[i].yTop < Lanes(priorityDepth, filter)[j].yTop
  {
  }

  /** At most one lane shows the selected indicator; with a filter, it is the filter's
      lane and every other lane is dimmed; without one, no lane is dimmed. */
  lemma FilterSelectsOneLane(priorityDepth: real, filter: Option<Priority>)
    ensures var ls := Lanes(priorityDepth, filter);
      && (forall i, j :: 0 <= i < |ls| && 0 <= j < |ls| && ls[i].selectedIndicator && ls[j].selectedIndicator ==> i == j)
      && (filter.None? ==> forall i :: 0 <= i < |ls| ==> ls[i].opacity == 1.0 && !ls[i].selectedIndicator)
      && (filter.Some? ==> ls[Rank(filter.value)].selectedIndicator)
      && (filter.Some? ==> forall j :: 0 <= j < |ls| && j != Rank(filter.value) ==> ls[j].opacity == 0.2)
  {
  }

  /** Only the p1 lane is bright green. */
  lemma OnlyFirstLaneBright(priorityDepth: real, filter: Option<Priority>, i: int)
    requires 0 <= i < |Priorities|
    ensures Lanes(priorityDepth, filter)[i].color == Palette(Paid).bright <==> i == 0
  {
  }

  /** Clicking lane `i` passes its own priority; once that is the filter, lane `i` is the selected one. */
  lemma ClickedLaneSelected(priorityDepth: real, i: int)
    requires 0 <= i < |Priorities|
    ensures var p := Lanes(priorityDepth, None)[i].onClick.priority;
      p == Priorities[i] && Lanes(priorityDepth, Some(p))[i].selectedIndicator
  {
  }
}
