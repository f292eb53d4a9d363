/**
 * The divider drag rule shared by `VerticalSplitPane` and
 * `HorizontalSplitPane` (`SplitPane.kt`). Pixel sizes, offsets and
 * fractions are Kotlin `Float`s in the source; here they are exact reals.
 */
module SplitPane {
  import opened Wrappers

  /** The divider never goes nearer to either edge than a tenth of the pane. */
  const MinSplitFraction: real := 0.1
  const MaxSplitFraction: real := 0.9

  /** Each drag moves the divider by half of the pointer's movement. */
  const DragScale: real := 0.5

  /** Kotlin `coerceIn(minimumValue, maximumValue)` on a `Float`. */
  function CoerceIn(x: real, minimumValue: real, maximumValue: real): (r: real)
    requires minimumValue <= maximumValue
    ensures minimumValue <= r <= maximumValue
    ensures minimumValue <= x <= maximumValue ==> r == x
    ensures x < minimumValue ==> r == minimumValue
    ensures x > maximumValue ==> r == maximumValue
  {
    if x < minimumValue then minimumValue
    else if x > maximumValue then maximumValue
    else x
  }

  /**
   * The fraction one `onDrag` event computes before clamping: the divider's
   * pixel position at drag start, moved by half of the event's drag amount,
   * over the pane's current extent.
   */
  function UnclampedFraction(dragStartExtent: real, initialFraction: real, dragAmount: real, parentExtent: real): (r: real)
    requires parentExtent > 0.0
    ensures r * parentExtent == dragStartExtent * initialFraction + dragAmount / 2.0
  {
    (dragStartExtent * initialFraction + dragAmount * DragScale) / parentExtent
  }

  /**
   * What one `onDrag` event reports through `onSplitChanged`: nothing when
   * the pane has no positive extent, otherwise the clamped fraction.
   */
  function DragReport(dragStartExtent: real, initialFraction: real, dragAmount: real, parentExtent: real): (r: Option<real>)
    ensures r.Some? <==> parentExtent > 0.0
    ensures r.Some? ==> MinSplitFraction <= r.value <= MaxSplitFraction
  {
    if parentExtent > 0.0 then
      Some(CoerceIn(UnclampedFraction(dragStartExtent, initialFraction, dragAmount, parentExtent),
                    MinSplitFraction, MaxSplitFraction))
    else None
  }

  /**
   * When the pane has the size it had at drag start, an event moves the
   * divider from where it was by `dragAmount / (2 * extent)`.
   */
  lemma SameExtentShift(initialFraction: real, extent: real, dragAmount: real)
    requires extent > 0.0
    ensures UnclampedFraction(extent, initialFraction, dragAmount, extent)
         == initialFraction + dragAmount / (2.0 * extent)
    ensures DragReport(extent, initialFraction, dragAmount, extent)
         == Some(CoerceIn(initialFraction + dragAmount / (2.0 * extent), MinSplitFraction, MaxSplitFraction))
  {
  }

  /**
   * The damping: moving the divider by the whole drag amount would give a
   * fraction larger by exactly `dragAmount / (2 * parentExtent)`.
   */
  lemma DampingHalvesMovement(dragStartExtent: real, initialFraction: real, dragAmount: real, parentExtent: real)
    requires parentExtent > 0.0
    ensures (dragStartExtent * initialFraction + dragAmount) / parentExtent
            - UnclampedFraction(dragStartExtent, initialFraction, dragAmount, parentExtent)
         == dragAmount / (2.0 * parentExtent)
    ensures dragAmount > 0.0 ==>
      UnclampedFraction(dragStartExtent, initialFraction, dragAmount, parentExtent)
      < (dragStartExtent * initialFraction + dragAmount) / parentExtent
  {
  }

  /** Without movement, a divider inside the bounds stays where it was. */
  lemma ZeroDragKeepsFraction(initialFraction: real, extent: real)
    requires extent > 0.0
    requires MinSplitFraction <= initialFraction <= MaxSplitFraction
    ensures DragReport(extent, initialFraction, 0.0, extent) == Some(initialFraction)
  {
    SameExtentShift(initialFraction, extent, 0.0);
  }

  /** A longer drag in the same direction never moves the divider back. */
  lemma DragReportMonotone(dragStartExtent: real, initialFraction: real, a: real, b: real, parentExtent: real)
    requires parentExtent > 0.0 && a <= b
    ensures DragReport(dragStartExtent, initialFraction, a, parentExtent).value
         <= DragReport(dragStartExtent, initialFraction, b, parentExtent).value
  {
    var p := dragStartExtent * initialFraction;
    assert p + a * 0.5 <= p + b * 0.5;
    DivideMonotone(p + a * 0.5, p + b * 0.5, parentExtent);
  }

  lemma DivideMonotone(x: real, y: real, c: real)
    requires c > 0.0 && x <= y
    ensures x / c <= y / c
  {
  }

  /** The scenarios of the split pane tests, with exact arithmetic. */
  lemma TestScenarios()
    ensures DragReport(1000.0, 0.5, 100.0, 1000.0) == Some(0.55)
    ensures DragReport(800.0, 0.5, 80.0, 800.0) == Some(0.55)
    ensures DragReport(1000.0, 0.5, 500.0, 1000.0) == Some(0.75)
    ensures DragReport(1000.0, 0.5, -500.0, 1000.0) == Some(0.25)
    ensures DragReport(1000.0, 0.5, 1000.0, 1000.0) == Some(0.9)
    ensures DragReport(1000.0, 0.5, -1000.0, 1000.0) == Some(0.1)
  {
  }

  /** The axis a divider splits along. */
  datatype Axis = Vertical | Horizontal

  /** Compose `Offset`: a drag amount in pixels. */
  datatype Offset = Offset(x: real, y: real)

  /** Compose `IntSize`: the pointer input area's size in whole pixels. */
  datatype IntSize = IntSize(width: int, height: int)

  /** The component of a drag amount along the axis (`dragAmount.y` or `dragAmount.x`). */
  function DragAlong(axis: Axis, dragAmount: Offset): real {
    match axis
    case Vertical => dragAmount.y
    case Horizontal => dragAmount.x
  }

  /** The extent along the axis (`size.height` or `size.width`, as a `Float`). */
  function ExtentAlong(axis: Axis, size: IntSize): real {
    match axis
    case Vertical => size.height as real
    case Horizontal => size.width as real
  }

  /**
   * The horizontal divider computes what the vertical one computes with
   * x and y, width and height exchanged.
   */
  lemma HorizontalIsTransposedVertical(dragStartExtent: real, initialFraction: real, dragAmount: Offset, size: IntSize)
    ensures DragReport(dragStartExtent, initialFraction, DragAlong(Horizontal, dragAmount), ExtentAlong(Horizontal, size))
         == DragReport(dragStartExtent, initialFraction,
                       DragAlong(Vertical, Offset(dragAmount.y, dragAmount.x)),
                       ExtentAlong(Vertical, IntSize(size.height, size.width)))
  {
  }

  /**
   * The state the divider's pointer-input block captures: the fraction it
   * was started with, and the two `var`s that `onDragStart` assigns.
   */
  class DividerDrag {
    const axis: Axis
    /** `splitFraction` as the pointer-input block saw it when it started. */
    const splitFraction: real
    var initialFraction: real
    var dragStartExtent: real

    constructor (axis: Axis, splitFraction: real)
      ensures this.axis == axis && this.splitFraction == splitFraction
      ensures initialFraction == splitFraction && dragStartExtent == 0.0
    {
      this.axis := axis;
      this.splitFraction := splitFraction;
      initialFraction := splitFraction;
      dragStartExtent := 0.0;
    }

    /** `onDragStart`: remember the fraction and the extent the drag starts from. */
    method OnDragStart(size: IntSize)
      modifies this
      ensures initialFraction == splitFraction
      ensures dragStartExtent == ExtentAlong(axis, size)
    {
      initialFraction := splitFraction;
      dragStartExtent := ExtentAlong(axis, size);
    }

    /**
     * `onDrag`: the value passed to `onSplitChanged`, if any. It changes
     * nothing, so `initialFraction` and `dragStartExtent` stay as
     * `onDragStart` left them.
     */
    method OnDrag(dragAmount: Offset, size: IntSize) returns (splitChanged: Option<real>)
      ensures splitChanged.Some? <==> ExtentAlong(axis, size) > 0.0
      ensures splitChanged.Some? ==> MinSplitFraction <= splitChanged.value <= MaxSplitFraction
      ensures splitChanged == DragReport(dragStartExtent, initialFraction, DragAlong(axis, dragAmount), ExtentAlong(axis, size))
    {
      var parentExtent := ExtentAlong(axis, size);
      if parentExtent > 0.0 {
        var initialPosition := dragStartExtent * initialFraction;
        var scaledDragAmount := DragAlong(axis, dragAmount) * DragScale;
        var newPosition := initialPosition + scaledDragAmount;
        var newSplitFraction := newPosition / parentExtent;
        splitChanged := Some(CoerceIn(newSplitFraction, MinSplitFraction, MaxSplitFraction));
      } else {
        splitChanged := None;
      }
    }
  }
}
