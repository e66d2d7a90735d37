/** The day columns of the in-scene timeline (groups-3d/src/components/ui/SceneTimeline.tsx):
    thirty columns, one day-width apart, with labels above and below the grid; week
    starts are emphasised and the column of the date filter is selected. */
module SceneTimeline {
  import opened Types

  const TotalDays: nat := 30
  const TopY: real := 4.0
  const SelectedColor: string := "#3b82f6"
  const WeekStartColor: string := "#ffffff"
  const DefaultColor: string := "#94a3b8"

  /** What one column is drawn with, and what clicking it asks of the store. */
  datatype DayColumn = DayColumn(
    day: DayKey,
    x: real,
    weekStart: bool,
    selected: bool,
    opacity: real,
    color: string,
    fontSize: real,
    topY: real,
    bottomY: real,
    guideLine: bool,
    onClick: Command)

  /** The y of the labels under the grid, five units below its last row. */
  function BottomY(groupCount: nat, groupHeight: real): real {
    -(groupCount as real * groupHeight + 5.0)
  }

  function Column(i: nat, dayWidth: real, groupCount: nat, groupHeight: real, filter: Option<DayKey>): (c: DayColumn)
    ensures c.day == DayKey(i) && c.x == i as real * dayWidth
    ensures c.weekStart <==> i % 7 == 0
    ensures c.selected <==> filter == Some(DayKey(i))
    ensures c.opacity == 0.3 <==> filter.Some? && !c.selected
    ensures c.opacity == 1.0 <==> !(filter.Some? && !c.selected)
    ensures c.color == SelectedColor <==> c.selected
    ensures c.color == WeekStartColor <==> !c.selected && c.weekStart
    ensures c.color == DefaultColor <==> !c.selected && !c.weekStart
    ensures c.guideLine <==> c.weekStart
    ensures c.fontSize == 0.8 <==> c.weekStart
    ensures c.fontSize == 0.5 <==> !c.weekStart
    ensures c.topY == TopY && c.bottomY == BottomY(groupCount, groupHeight)
    ensures c.onClick == SetFilterDate(c.day)
  {
    var day := DayKey(i);
    var x := i as real * dayWidth;
    var isWeekStart := i % 7 == 0;
    var isSelected := filter == Some(day);
    var isDimmed := filter.Some? && !isSelected;
    var opacity := if isDimmed then 0.3 else 1.0;
    var color := if isSelected then SelectedColor else if isWeekStart then WeekStartColor else DefaultColor;
    var fontSize := if isWeekStart then 0.8 else 0.5;
    DayColumn(day, x, isWeekStart, isSelected, opacity, color, fontSize, TopY, BottomY(groupCount, groupHeight),
      isWeekStart, SetFilterDate(day))
  }

  /** The thirty columns, day 0 first. */
  function Columns(dayWidth: real, groupCount: nat, groupHeight: real, filter: Option<DayKey>): (cs: seq<DayColumn>)
    ensures |cs| == TotalDays
    ensures forall i :: 0 <= i < |cs| ==> cs[i] == Column(i, dayWidth, groupCount, groupHeight, filter)
  {
    seq(TotalDays, i requires 0 <= i < TotalDays => Column(i, dayWidth, groupCount, groupHeight, filter))
  }

  /** The week-start columns are exactly days 0, 7, 14, 21 and 28. */
  lemma WeekStarts(dayWidth: real, groupCount: nat, groupHeight: real, filter: Option<DayKey>)
    ensures var cs := Columns(dayWidth, groupCount, groupHeight, filter);
      (set i | 0 <= i < |cs| && cs[i].weekStart) == {0, 7, 14, 21, 28}
  {
  }

  /** Day keys are distinct, so at most one column is selected; with a filter every
      other column is dimmed, and without one none is. */
  lemma DateFilterSelectsAtMostOne(dayWidth: real, groupCount: nat, groupHeight: real, filter: Option<DayKey>)
    ensures var cs := Columns(dayWidth, groupCount, groupHeight, filter);
      && (forall i, j :: 0 <= i < |cs| && 0 <= j < |cs| && cs[i].selected && cs[j].selected ==> i == j)
      && (filter.None? ==> forall i :: 0 <= i < |cs| ==> cs[i].opacity == 1.0)
      && (filter.Some? ==> forall i :: 0 <= i < |cs| && !cs[i].selected ==> cs[i].opacity == 0.3)
  {
  }

  /** Clicking column `i` passes its own day key; once that is the filter, column `i`
      is the selected one. */
  lemma ClickedColumnSelected(dayWidth: real, groupCount: nat, groupHeight: real, i: int)
    requires 0 <= i < TotalDays
    ensures var key := Columns(dayWidth, groupCount, groupHeight, None)[i].onClick.day;
      key == DayKey(i) && Columns(dayWidth, groupCount, groupHeight, Some(key))[i].selected
  {
  }

  /** With a non-negative row height the bottom labels sit below the top labels. */
  lemma BottomLabelsBelowTop(groupCount: nat, groupHeight: real)
    requires groupHeight >= 0.0
    ensures BottomY(groupCount, groupHeight) < TopY
  {
  }
}
