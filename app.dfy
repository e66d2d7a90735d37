/** The application shell's arithmetic and event handlers (groups-3d/src/App.tsx): the
    sizes of the scroll spacers, the conversion of pixel scrolls and wheel deltas into
    world units written to the store, the fly-mode toggle and the timeline's wheel
    redirection. */
module App {
  import opened Types
  import opened Store

  const TotalDays: nat := 30
  const WheelSensitivity: real := 0.05

  /** Width in pixels of the timeline spacer. */
  function TimelineWidth(dims: Dimensions, pixelsPerUnit: real): real {
    TotalDays as real * dims.dayWidth * pixelsPerUnit
  }

  /** Left edge in pixels of the timeline label of day `i`. */
  function DayLabelLeft(i: nat, dims: Dimensions, pixelsPerUnit: real): real {
    i as real * dims.dayWidth * pixelsPerUnit
  }

  /** The day labels tile the spacer: each starts inside it, one day-width apart, and
      the label after the last day would start exactly at its right edge. */
  lemma DayLabelsTileTimeline(i: nat, dims: Dimensions, pixelsPerUnit: real)
    requires i < TotalDays && dims.dayWidth >= 0.0 && pixelsPerUnit >= 0.0
    ensures 0.0 <= DayLabelLeft(i, dims, pixelsPerUnit)
    ensures DayLabelLeft(i + 1, dims, pixelsPerUnit) == DayLabelLeft(i, dims, pixelsPerUnit) + dims.dayWidth * pixelsPerUnit
    ensures DayLabelLeft(i + 1, dims, pixelsPerUnit) <= TimelineWidth(dims, pixelsPerUnit)
    ensures DayLabelLeft(TotalDays, dims, pixelsPerUnit) == TimelineWidth(dims, pixelsPerUnit)
  {
    var w := dims.dayWidth * pixelsPerUnit;
    assert w >= 0.0;
    assert DayLabelLeft(i, dims, pixelsPerUnit) == i as real * w;
    assert DayLabelLeft(i + 1, dims, pixelsPerUnit) == (i + 1) as real * w;
    assert TimelineWidth(dims, pixelsPerUnit) == TotalDays as real * w;
    var rest := (TotalDays - (i + 1)) as real;
    assert rest >= 0.0;
    assert rest * w >= 0.0;
    assert TotalDays as real * w == (i + 1) as real * w + rest * w;
  }

  /** Height in pixels of one group row of the sidebar overlay. */
  function SidebarRowHeight(dims: Dimensions, pixelsPerUnit: real): real {
    dims.groupHeight * pixelsPerUnit
  }

  /** Height in pixels of the sidebar spacer. */
  function SidebarHeight(groupCount: nat, dims: Dimensions, pixelsPerUnit: real): real {
    groupCount as real * dims.groupHeight * pixelsPerUnit
  }

  /** Height of the first `n` overlay rows stacked one under another. */
  function StackedRows(n: nat, dims: Dimensions, pixelsPerUnit: real): real {
    if n == 0 then 0.0 else StackedRows(n - 1, dims, pixelsPerUnit) + SidebarRowHeight(dims, pixelsPerUnit)
  }

  /** The overlay of group rows is exactly as tall as the spacer that makes the sidebar scroll. */
  lemma {:induction false} RowsFillSidebar(n: nat, dims: Dimensions, pixelsPerUnit: real)
    ensures StackedRows(n, dims, pixelsPerUnit) == SidebarHeight(n, dims, pixelsPerUnit)
  {
    if n > 0 {
      RowsFillSidebar(n - 1, dims, pixelsPerUnit);
      var h := dims.groupHeight * pixelsPerUnit;
      assert SidebarHeight(n - 1, dims, pixelsPerUnit) == (n - 1) as real * h;
      assert SidebarHeight(n, dims, pixelsPerUnit) == n as real * h;
    }
  }

  /** World x for a horizontal pixel scroll. */
  function WorldX(scrollLeft: real, pixelsPerUnit: real): (x: real)
    requires pixelsPerUnit != 0.0
    ensures x * pixelsPerUnit == scrollLeft
    ensures pixelsPerUnit > 0.0 && scrollLeft >= 0.0 ==> x >= 0.0
  {
    scrollLeft / pixelsPerUnit
  }

  /** World y for a vertical pixel scroll: scrolling down moves the view down. */
  function WorldY(scrollTop: real, pixelsPerUnit: real): (y: real)
    requires pixelsPerUnit != 0.0
    ensures y * pixelsPerUnit == -scrollTop
    ensures pixelsPerUnit > 0.0 && scrollTop >= 0.0 ==> y <= 0.0
  {
    -(scrollTop / pixelsPerUnit)
  }

  /** Scrolling the timeline to the left edge of day label `i` puts the view at `i` day-widths. */
  lemma ScrollToDayLabel(i: nat, dims: Dimensions, pixelsPerUnit: real)
    requires pixelsPerUnit != 0.0
    ensures WorldX(DayLabelLeft(i, dims, pixelsPerUnit), pixelsPerUnit) == i as real * dims.dayWidth
  {
  }

  /** Scrolling the sidebar down past `k` rows puts the view at `k` group-heights below the top. */
  lemma ScrollToSidebarRow(k: nat, dims: Dimensions, pixelsPerUnit: real)
    requires pixelsPerUnit != 0.0
    ensures WorldY(StackedRows(k, dims, pixelsPerUnit), pixelsPerUnit) == -(k as real) * dims.groupHeight
  {
  }

  /** The depth after a wheel step: positive deltas move the camera back, negative ones forward. */
  function WheelDepth(scrollZ: real, deltaY: real): (z: real)
    ensures deltaY == 0.0 ==> z == scrollZ
    ensures deltaY > 0.0 ==> z > scrollZ
    ensures deltaY < 0.0 ==> z < scrollZ
  {
    scrollZ + deltaY * WheelSensitivity
  }

  /** The mode the header button switches to: grid goes to fly, every other mode to grid. */
  function ToggleTarget(mode: ViewMode): (r: ViewMode)
    ensures r == Fly <==> mode == Grid
    ensures r == Grid <==> mode != Grid
  {
    if mode == Grid then Fly else Grid
  }

  /** Two presses return to the starting mode exactly when it was grid or fly. */
  lemma ToggleTwice(mode: ViewMode)
    ensures ToggleTarget(ToggleTarget(mode)) == mode <==> mode == Grid || mode == Fly
  {
  }

  method HandleScrollY(store: Store, scrollTop: real)
    requires store.Valid()
    modifies store
    ensures store.Valid()
    ensures store.State() == Apply(old(store.State()), Action.SetScrollY(WorldY(scrollTop, old(store.pixelsPerUnit))))
  {
    var y3d := WorldY(scrollTop, store.pixelsPerUnit);
    store.SetScrollY(y3d);
  }

  method HandleScrollX(store: Store, scrollLeft: real)
    requires store.Valid()
    modifies store
    ensures store.Valid()
    ensures store.State() == Apply(old(store.State()), Action.SetScrollX(WorldX(scrollLeft, old(store.pixelsPerUnit))))
  {
    var x3d := WorldX(scrollLeft, store.pixelsPerUnit);
    store.SetScrollX(x3d);
  }

  /** The canvas wheel moves the camera in depth, except in fly mode. */
  method HandleWheel(store: Store, deltaY: real)
    modifies store
    ensures old(store.viewMode) == Fly ==> store.State() == old(store.State())
    ensures old(store.viewMode) != Fly ==>
      store.State() == Apply(old(store.State()), Action.SetScrollZ(WheelDepth(old(store.scrollZ), deltaY)))
    ensures store.Valid() == old(store.Valid())
  {
    if store.viewMode == Fly {
      return;
    }
    var newZ := WheelDepth(store.scrollZ, deltaY);
    store.SetScrollZ(newZ);
  }

  /** The header button. */
  method ToggleViewMode(store: Store)
    modifies store
    ensures store.State() == Apply(old(store.State()), Action.SetViewMode(ToggleTarget(old(store.viewMode))))
    ensures store.Valid() == old(store.Valid())
  {
    store.SetViewMode(ToggleTarget(store.viewMode));
  }

  /** The horizontally scrolling timeline bar, whose scroll offset the wheel handler moves. */
  class TimelineStrip {
    var scrollLeft: real

    constructor (scrollLeft: real)
      ensures this.scrollLeft == scrollLeft
    {
      this.scrollLeft := scrollLeft;
    }

    /** A vertical wheel step scrolls the timeline sideways by the same amount. */
    method HandleTimelineWheel(deltaY: real)
      modifies this
      ensures deltaY != 0.0 ==> scrollLeft == old(scrollLeft) + deltaY
      ensures deltaY == 0.0 ==> scrollLeft == old(scrollLeft)
    {
      if deltaY != 0.0 {
        scrollLeft := scrollLeft + deltaY;
      }
    }
  }
}
