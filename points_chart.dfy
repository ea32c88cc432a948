/**
  The chart window that plots one quantity against time (PointsChartWindow.java):
  its four range fields with the auto-scaling rule, and the point it pushes
  into its panel for every state update.

  The window's layout, title, buttons and colour selector, and its
  subscription to the controller, are not modelled.
 */
module Chart {
  import opened Snapshot
  import opened Points
  import Integrator

  /** The plotted range: time on one axis, the selected quantity on the other. */
  datatype Range = Range(minTime: real, maxTime: real, minValue: real, maxValue: real)

  /** The range a window starts with and returns to on reset. */
  const INITIAL_RANGE: Range := Range(0.0, 10.0, -5.0, 5.0)

  /** The capacity of the window's panel. */
  const CAPACITY: int := 500

  /**
    What holds of every range the window shows: the time window starts at a
    non-negative time, is non-empty and reaches at least 10, and the value
    window contains [-5, 5].
   */
  ghost predicate Sane(r: Range) {
    0.0 <= r.minTime < r.maxTime && 10.0 <= r.maxTime && r.minValue <= -5.0 && 5.0 <= r.maxValue
  }

  /** Whether the auto-scaling rule changes the range for a point (time, value). */
  function Outside(r: Range, time: real, value: real): bool {
    time > r.maxTime || value < r.minValue || value > r.maxValue
  }

  /**
    The auto-scaling rule: a later time stretches the time window to 1.2 times
    that time and moves its start (computed with the new end), and a value
    below or above the value window moves that bound to 1.2 times the value.
   */
  function Rescale(r: Range, time: real, value: real): Range {
    var t := if time > r.maxTime then
        var newMax := time * 1.2;
        r.(maxTime := newMax, minTime := Integrator.Max(0.0, time - (newMax - r.minTime) * 0.8))
      else r;
    var lo := if value < t.minValue then t.(minValue := value * 1.2) else t;
    if value > lo.maxValue then lo.(maxValue := value * 1.2) else lo
  }

  /**
    On a sane range, the rule keeps the range sane and afterwards the point
    lies inside it; bounds only ever widen, and a point already inside leaves
    the range as it was.
   */
  lemma RescaleCovers(r: Range, time: real, value: real)
    requires Sane(r)
    ensures var s := Rescale(r, time, value);
      && Sane(s)
      && time <= s.maxTime && s.minValue <= value <= s.maxValue
      && r.maxTime <= s.maxTime && s.minValue <= r.minValue && r.maxValue <= s.maxValue
      && (!Outside(r, time, value) <==> s == r)
  {
    var s := Rescale(r, time, value);
    if time > r.maxTime {
      var newMax := time * 1.2;
      assert newMax > time > 0.0;
      assert time - (newMax - r.minTime) * 0.8 == 0.04 * time + 0.8 * r.minTime;
      assert 0.04 * time + 0.8 * r.minTime < newMax;
    }
  }

  /** The time bounds: stretched exactly when the time is past the end. */
  lemma RescaleTime(r: Range, time: real, value: real)
    ensures var s := Rescale(r, time, value);
      && (time > r.maxTime ==>
            s.maxTime == 1.2 * time && s.minTime == Integrator.Max(0.0, time - (1.2 * time - r.minTime) * 0.8))
      && (time <= r.maxTime ==> s.maxTime == r.maxTime && s.minTime == r.minTime)
  {
  }

  /** The value bounds: each moves exactly when the value is beyond it. */
  lemma RescaleValue(r: Range, time: real, value: real)
    ensures var s := Rescale(r, time, value);
      && s.minValue == (if value < r.minValue then 1.2 * value else r.minValue)
      && s.maxValue == (if value > r.maxValue then 1.2 * value else r.maxValue)
  {
  }

  class PointsChartWindow {
    const parameterName: string
    const panel: PointsPanel
    var minTime: real
    var maxTime: real
    var minValue: real
    var maxValue: real
    var autoScale: bool

    function Bounds(): Range
      reads this
    {
      Range(minTime, maxTime, minValue, maxValue)
    }

    /** The range of the panel, read back as a Range. */
    function PanelRange(): Range
      reads this, panel
    {
      Range(panel.minX, panel.maxX, panel.minY, panel.maxY)
    }

    /** The window's range is sane and is the range its panel shows; the panel holds at most 500 points. */
    ghost predicate Valid()
      reads this, panel
    {
      && panel.Valid() && panel.maxPoints == CAPACITY
      && Sane(Bounds()) && PanelRange() == Bounds()
    }

    /** A window for the quantity labelled `parameterName`: the initial range, auto-scaling on, an empty panel. */
    constructor (parameterName: string)
      ensures Valid() && fresh(panel)
      ensures this.parameterName == parameterName
      ensures Bounds() == INITIAL_RANGE && autoScale && panel.points == []
    {
      this.parameterName := parameterName;
      minTime := 0.0;
      maxTime := 10.0;
      minValue := -5.0;
      maxValue := 5.0;
      autoScale := true;
      panel := new PointsPanel(0.0, 10.0, -5.0, 5.0, CAPACITY);
    }

    /**
      onStateUpdate: with auto-scaling on, the range follows the rule and the
      panel gets the new range when it changed; in every case exactly one point
      (time, selected value) is pushed into the panel.
     */
    method OnStateUpdate(state: PhysicsState)
      requires Valid()
      modifies this`minTime, this`maxTime, this`minValue, this`maxValue, panel
      ensures Valid()
      ensures var value := state.GetParameter(parameterName);
        && Bounds() == (if autoScale then Rescale(old(Bounds()), state.time, value) else old(Bounds()))
        && panel.points == Pushed(old(panel.points), Point(state.time, value), CAPACITY)
    {
      var value := state.GetParameter(parameterName);
      var time := state.time;
      if autoScale {
        var rangeChanged := false;
        if time > maxTime {
          maxTime := time * 1.2;
          minTime := Integrator.Max(0.0, time - (maxTime - minTime) * 0.8);
          rangeChanged := true;
        }
        if value < minValue {
          minValue := value * 1.2;
          rangeChanged := true;
        }
        if value > maxValue {
          maxValue := value * 1.2;
          rangeChanged := true;
        }
        RescaleCovers(old(Bounds()), time, value);
        if rangeChanged {
          panel.SetRange(minTime, maxTime, minValue, maxValue);
        }
      }
      panel.Update(time, value);
    }

    /** onSimulationReset: the panel is emptied and both window and panel return to the initial range. */
    method OnSimulationReset()
      requires Valid()
      modifies this`minTime, this`maxTime, this`minValue, this`maxValue, panel
      ensures Valid()
      ensures Bounds() == INITIAL_RANGE && panel.points == []
    {
      panel.ClearPoints();
      minTime := 0.0;
      maxTime := 10.0;
      minValue := -5.0;
      maxValue := 5.0;
      panel.SetRange(minTime, maxTime, minValue, maxValue);
    }

    /** The auto-scale check box. */
    method SetAutoScale(on: bool)
      modifies this`autoScale
      ensures autoScale == on
    {
      autoScale := on;
    }
  }

  /**
    After any state update on a valid window with auto-scaling on, the plotted
    point lies inside the range the panel shows.
   */
  method UpdateThenInRange(w: PointsChartWindow, state: PhysicsState)
    requires w.Valid() && w.autoScale
    modifies w, w.panel
    ensures w.Valid()
    ensures state.time <= w.panel.maxX
    ensures w.panel.minY <= state.GetParameter(w.parameterName) <= w.panel.maxY
  {
    RescaleCovers(w.Bounds(), state.time, state.GetParameter(w.parameterName));
    w.OnStateUpdate(state);
  }
}
