/** The shared store (groups-3d/src/store.ts): three scroll values, the zoom level, the
    view mode, the pixel scale and the layout dimensions, with one setter per scroll
    value and one for the view mode. Each setter merges a one-field patch into the
    store; `Apply` states that merge on values and the class `Store` performs it in place. */
module Store {
  import opened Types

  datatype StoreState = StoreState(
    scrollX: real,
    scrollY: real,
    scrollZ: real,
    zoomLevel: real,
    viewMode: ViewMode,
    pixelsPerUnit: real,
    dimensions: Dimensions)

  const InitialDimensions: Dimensions := Dimensions(2.0, 1.5, 5.0)

  const InitialState: StoreState := StoreState(0.0, 0.0, 10.0, 1.0, Grid, 50.0, InitialDimensions)

  /** The calls the store offers: setScrollX, setScrollY, setScrollZ, setViewMode. */
  datatype Action =
    | SetScrollX(x: real)
    | SetScrollY(y: real)
    | SetScrollZ(z: real)
    | SetViewMode(mode: ViewMode)

  /** The fields no action writes. */
  predicate SameFixedFields(s: StoreState, t: StoreState) {
    s.zoomLevel == t.zoomLevel && s.pixelsPerUnit == t.pixelsPerUnit && s.dimensions == t.dimensions
  }

  /** Two actions are calls of the same setter. */
  predicate SameSetter(a: Action, b: Action) {
    (a.SetScrollX? && b.SetScrollX?) || (a.SetScrollY? && b.SetScrollY?) ||
    (a.SetScrollZ? && b.SetScrollZ?) || (a.SetViewMode? && b.SetViewMode?)
  }

  /** The state after one setter call. */
  function Apply(s: StoreState, a: Action): (r: StoreState)
    ensures SameFixedFields(r, s)
    ensures r.scrollX == (if a.SetScrollX? then a.x else s.scrollX)
    ensures r.scrollY == (if a.SetScrollY? then a.y else s.scrollY)
    ensures r.scrollZ == (if a.SetScrollZ? then a.z else s.scrollZ)
    ensures r.viewMode == (if a.SetViewMode? then a.mode else s.viewMode)
  {
    match a
    case SetScrollX(x) => s.(scrollX := x)
    case SetScrollY(y) => s.(scrollY := y)
    case SetScrollZ(z) => s.(scrollZ := z)
    case SetViewMode(m) => s.(viewMode := m)
  }

  /** Calling a setter twice with the same value is calling it once. */
  lemma ApplyIdempotent(s: StoreState, a: Action)
    ensures Apply(Apply(s, a), a) == Apply(s, a)
  {
  }

  /** For the same setter, the last write wins. */
  lemma LastWriteWins(s: StoreState, a: Action, b: Action)
    requires SameSetter(a, b)
    ensures Apply(Apply(s, a), b) == Apply(s, b)
  {
  }

  /** Calls of different setters touch different fields, so their order does not matter. */
  lemma DifferentSettersCommute(s: StoreState, a: Action, b: Action)
    requires !SameSetter(a, b)
    ensures Apply(Apply(s, a), b) == Apply(Apply(s, b), a)
  {
  }

  /** The state after a series of setter calls, in order. */
  function Run(s: StoreState, actions: seq<Action>): (r: StoreState)
    ensures SameFixedFields(r, s)
    decreases |actions|
  {
    if actions == [] then s else Run(Apply(s, actions[0]), actions[1..])
  }

  /** Running two series one after the other is running their concatenation. */
  lemma {:induction false} RunConcat(s: StoreState, xs: seq<Action>, ys: seq<Action>)
    ensures Run(Run(s, xs), ys) == Run(s, xs + ys)
    decreases |xs|
  {
    if xs != [] {
      assert (xs + ys)[0] == xs[0];
      assert (xs + ys)[1..] == xs[1..] + ys;
      RunConcat(Apply(s, xs[0]), xs[1..], ys);
    } else {
      assert xs + ys == ys;
    }
  }

  /** Whatever the calls, zoomLevel, pixelsPerUnit and the dimensions keep their initial values. */
  lemma FixedFieldsNeverChange(actions: seq<Action>)
    ensures SameFixedFields(Run(InitialState, actions), InitialState)
    ensures Run(InitialState, actions).pixelsPerUnit == 50.0
  {
  }

  class Store {
    var scrollX: real
    var scrollY: real
    var scrollZ: real
    var zoomLevel: real
    var viewMode: ViewMode
    var pixelsPerUnit: real
    var dimensions: Dimensions

    /** The store's current contents as a value. */
    function State(): StoreState
      reads this
    {
      StoreState(scrollX, scrollY, scrollZ, zoomLevel, viewMode, pixelsPerUnit, dimensions)
    }

    /** The fields without a setter still hold their initial values. */
    predicate Valid()
      reads this
    {
      SameFixedFields(State(), InitialState)
    }

    constructor ()
      ensures State() == InitialState
      ensures Valid()
    {
      scrollX, scrollY, scrollZ := 0.0, 0.0, 10.0;
      zoomLevel := 1.0;
      viewMode := Grid;
      pixelsPerUnit := 50.0;
      dimensions := InitialDimensions;
    }

    method SetScrollX(val: real)
      modifies this
      ensures State() == Apply(old(State()), Action.SetScrollX(val))
      ensures Valid() == old(Valid())
    {
      scrollX := val;
    }

    method SetScrollY(val: real)
      modifies this
      ensures State() == Apply(old(State()), Action.SetScrollY(val))
      ensures Valid() == old(Valid())
    {
      scrollY := val;
    }

    method SetScrollZ(val: real)
      modifies this
      ensures State() == Apply(old(State()), Action.SetScrollZ(val))
      ensures Valid() == old(Valid())
    {
      scrollZ := val;
    }

    method SetViewMode(mode: ViewMode)
      modifies this
      ensures State() == Apply(old(State()), Action.SetViewMode(mode))
      ensures Valid() == old(Valid())
    {
      viewMode := mode;
    }
  }
}
