/**
 * A movable, resizable text box on the slide canvas.  Pointer positions
 * arrive in screen pixels; the handlers turn them into virtual canvas units
 * (the container is 1920 virtual units wide) and report rounded
 * `{x, y, width, height}` updates.  Two pieces of state survive between
 * events: the cursor's offset inside the box, recorded when a move starts,
 * and a snapshot of the box, recorded when a resize starts.
 */
module DraggableText {
  import opened JsValue
  import opened Text
  import CoordinateSystem

  /** The smallest width or height a resize handle lets through, in virtual units. */
  const MinSize: real := 40.0

  /** The props the handlers read, after the component's defaults are applied. */
  datatype Props = Props(position: XY, width: real, height: real, isPreview: bool, hasOnUpdate: bool)

  /** Default props: a box at (100,350) of 1720x150, editable. */
  function PropsWithDefaults(position: Option<XY>, width: Option<real>, height: Option<real>,
                             isPreview: Option<bool>, hasOnUpdate: bool): (p: Props)
    ensures position.None? ==> p.position == XY(100.0, 350.0)
    ensures position.Some? ==> p.position == position.value
    ensures p.width == (if width.Some? then width.value else 1720.0)
    ensures p.height == (if height.Some? then height.value else 150.0)
    ensures p.isPreview == (isPreview.Some? && isPreview.value)
    ensures p.hasOnUpdate == hasOnUpdate
  {
    Props(if position.Some? then position.value else XY(100.0, 350.0),
          if width.Some? then width.value else 1720.0,
          if height.Some? then height.value else 150.0,
          isPreview.Some? && isPreview.value,
          hasOnUpdate)
  }

  /** The screen rectangle of a DOM element: left and top edges and rendered width. */
  datatype ScreenRect = ScreenRect(left: real, top: real, width: real)

  /** A box in virtual units, as snapshotted when a resize starts. */
  datatype Box = Box(x: real, y: real, width: real, height: real)

  /** What `onUpdate` receives: rounded coordinates and a width and height. */
  datatype Update = Update(x: int, y: int, width: real, height: real)

  /** Screen pixels per virtual unit for a container of the given rendered width. */
  function CanvasScale(parent: ScreenRect): (s: real)
    requires parent.width > 0.0
    ensures s > 0.0 && s * CoordinateSystem.VirtualWidth == parent.width
  {
    parent.width / CoordinateSystem.VirtualWidth
  }

  /** A screen point in virtual units relative to the container's top-left corner. */
  function ToVirtual(parent: ScreenRect, point: XY): (v: XY)
    requires parent.width > 0.0
    ensures v.x * CanvasScale(parent) == point.x - parent.left
    ensures v.y * CanvasScale(parent) == point.y - parent.top
  {
    var s := CanvasScale(parent);
    XY((point.x - parent.left) / s, (point.y - parent.top) / s)
  }

  /** Where the cursor grabbed the box, in virtual units from the box's top-left corner. */
  function DragOffset(parent: ScreenRect, element: ScreenRect, point: XY): (o: XY)
    requires parent.width > 0.0
    ensures o.x * CanvasScale(parent) == point.x - element.left
    ensures o.y * CanvasScale(parent) == point.y - element.top
  {
    var s := CanvasScale(parent);
    XY((point.x - element.left) / s, (point.y - element.top) / s)
  }

  /** The unrounded top-left corner a move reports: the cursor minus the grab offset. */
  function DragPosition(parent: ScreenRect, offset: XY, point: XY): XY
    requires parent.width > 0.0
  {
    var v := ToVirtual(parent, point);
    XY(v.x - offset.x, v.y - offset.y)
  }

  /**
   * A move whose cursor has not left the point where it started reports the
   * box where it already is: its corner relative to the container, in
   * virtual units.
   */
  lemma DragInPlace(parent: ScreenRect, element: ScreenRect, point: XY)
    requires parent.width > 0.0
    ensures var p := DragPosition(parent, DragOffset(parent, element, point), point);
            p.x * CanvasScale(parent) == element.left - parent.left
            && p.y * CanvasScale(parent) == element.top - parent.top
  {
    var s := CanvasScale(parent);
    var v := ToVirtual(parent, point);
    var o := DragOffset(parent, element, point);
    assert (v.x - o.x) * s == v.x * s - o.x * s;
    assert (v.y - o.y) * s == v.y * s - o.y * s;
  }

  /** Moving the cursor by `d` screen pixels moves the reported corner by `d` divided by the scale. */
  lemma DragTranslates(parent: ScreenRect, offset: XY, point: XY, dx: real, dy: real)
    requires parent.width > 0.0
    ensures var p := DragPosition(parent, offset, point);
            var q := DragPosition(parent, offset, XY(point.x + dx, point.y + dy));
            (q.x - p.x) * CanvasScale(parent) == dx && (q.y - p.y) * CanvasScale(parent) == dy
  {
    var s := CanvasScale(parent);
    var v := ToVirtual(parent, point);
    var w := ToVirtual(parent, XY(point.x + dx, point.y + dy));
    assert (w.x - v.x) * s == w.x * s - v.x * s;
    assert (w.y - v.y) * s == w.y * s - v.y * s;
  }

  /**
   * The box a resize handle produces from the snapshot and the cursor, in
   * virtual units and before rounding.  A handle naming "left" moves the left
   * edge and keeps the right edge; otherwise one naming "right" moves the
   * right edge and keeps the left; "top" and "bottom" do the same vertically.
   * A moved edge stops 40 units short of the fixed one, and an axis the
   * handle does not name is left as it was.
   */
  function ResizedBox(snap: Box, mouse: XY, direction: string): (b: Box)
    ensures Includes(direction, "left") ==>
              b.x == Min(mouse.x, snap.x + snap.width - MinSize)
              && b.x + b.width == snap.x + snap.width && b.width >= MinSize
    ensures !Includes(direction, "left") && Includes(direction, "right") ==>
              b.x == snap.x && b.width == Max(MinSize, mouse.x - snap.x) && b.width >= MinSize
    ensures !Includes(direction, "left") && !Includes(direction, "right") ==>
              b.x == snap.x && b.width == snap.width
    ensures Includes(direction, "top") ==>
              b.y == Min(mouse.y, snap.y + snap.height - MinSize)
              && b.y + b.height == snap.y + snap.height && b.height >= MinSize
    ensures !Includes(direction, "top") && Includes(direction, "bottom") ==>
              b.y == snap.y && b.height == Max(MinSize, mouse.y - snap.y) && b.height >= MinSize
    ensures !Includes(direction, "top") && !Includes(direction, "bottom") ==>
              b.y == snap.y && b.height == snap.height
  {
    var right := snap.x + snap.width;
    var bottom := snap.y + snap.height;
    var x := if Includes(direction, "left") then Min(mouse.x, right - MinSize) else snap.x;
    var width := if Includes(direction, "left") then right - x
                 else if Includes(direction, "right") then Max(MinSize, mouse.x - snap.x)
                 else snap.width;
    var y := if Includes(direction, "top") then Min(mouse.y, bottom - MinSize) else snap.y;
    var height := if Includes(direction, "top") then bottom - y
                  else if Includes(direction, "bottom") then Max(MinSize, mouse.y - snap.y)
                  else snap.height;
    Box(x, y, width, height)
  }

  /** All four values rounded with `Math.round`. */
  function RoundBox(b: Box): (u: Update)
    ensures b.x - 0.5 < u.x as real <= b.x + 0.5 && b.y - 0.5 < u.y as real <= b.y + 0.5
    ensures b.width - 0.5 < u.width <= b.width + 0.5 && b.height - 0.5 < u.height <= b.height + 0.5
    ensures u.width == u.width.Floor as real && u.height == u.height.Floor as real
  {
    Update(Round(b.x), Round(b.y), Round(b.width) as real, Round(b.height) as real)
  }

  /** A resized width or height keeps its 40-unit minimum after rounding. */
  lemma ResizeMinimumAfterRounding(snap: Box, mouse: XY, direction: string)
    ensures var u := RoundBox(ResizedBox(snap, mouse, direction));
            (Includes(direction, "left") || Includes(direction, "right") ==> u.width >= MinSize)
            && (Includes(direction, "top") || Includes(direction, "bottom") ==> u.height >= MinSize)
  {
    var b := ResizedBox(snap, mouse, direction);
    RoundOfInteger(40);
    if Includes(direction, "left") || Includes(direction, "right") {
      RoundMonotone(MinSize, b.width);
    }
    if Includes(direction, "top") || Includes(direction, "bottom") {
      RoundMonotone(MinSize, b.height);
    }
  }

  /**
   * The edge a left (or top) handle keeps fixed survives rounding only up to
   * one unit: on a snapshot with a whole-number right edge the rounded box
   * ends at that edge or one unit past it, and a cursor at a half unit
   * shows the second case.
   */
  lemma FixedEdgeAfterRounding(snap: Box, mouse: XY, direction: string)
    requires Includes(direction, "left")
    requires snap.x + snap.width == (snap.x + snap.width).Floor as real
    ensures var u := RoundBox(ResizedBox(snap, mouse, direction));
            var right := snap.x + snap.width;
            u.x as real + u.width == right || u.x as real + u.width == right + 1.0
    ensures RoundBox(ResizedBox(Box(0.0, 0.0, 100.0, 50.0), XY(10.5, 0.0), "left"))
            == Update(11, 0, 90.0, 50.0)
  {
    var b := ResizedBox(snap, mouse, direction);
    var r := (snap.x + snap.width).Floor;
    assert b.width == r as real - b.x;
    var fx := Round(b.x);
    var fw := Round(b.width);
    assert fx as real <= b.x + 0.5 < fx as real + 1.0;
    assert fw as real <= r as real - b.x + 0.5 < fw as real + 1.0;
    assert r - 1 < fx + fw < r + 2;
    assert Includes("left", "left") by {
      assert StartsWith("left", "left");
    }
    var s := Box(0.0, 0.0, 100.0, 50.0);
    var m := XY(10.5, 0.0);
    NotIncludes("left", "top", 'o');
    NotIncludes("left", "bottom", 'b');
    var rb := ResizedBox(s, m, "left");
    assert rb == Box(10.5, 0.0, 89.5, 50.0);
  }

  /** The left handle keeps the right edge and the vertical axis. */
  lemma LeftHandle(snap: Box, mouse: XY)
    ensures var b := ResizedBox(snap, mouse, "left");
            b.y == snap.y && b.height == snap.height
            && b.x + b.width == snap.x + snap.width && b.width >= MinSize
  {
    assert 'o' !in "left" && 'b' !in "left" && StartsWith("left", "left");
    NotIncludes("left", "top", 'o');
    NotIncludes("left", "bottom", 'b');
  }

  /** The right handle keeps the left edge and the vertical axis. */
  lemma RightHandle(snap: Box, mouse: XY)
    ensures var b := ResizedBox(snap, mouse, "right");
            b.y == snap.y && b.height == snap.height && b.x == snap.x && b.width >= MinSize
  {
    assert 'l' !in "right" && 'o' !in "right" && 'b' !in "right" && StartsWith("right", "right");
    NotIncludes("right", "left", 'l');
    NotIncludes("right", "top", 'o');
    NotIncludes("right", "bottom", 'b');
  }

  /** The top handle keeps the bottom edge and the horizontal axis. */
  lemma TopHandle(snap: Box, mouse: XY)
    ensures var b := ResizedBox(snap, mouse, "top");
            b.x == snap.x && b.width == snap.width
            && b.y + b.height == snap.y + snap.height && b.height >= MinSize
  {
    assert 'l' !in "top" && 'r' !in "top" && StartsWith("top", "top");
    NotIncludes("top", "left", 'l');
    NotIncludes("top", "right", 'r');
  }

  /** The bottom handle keeps the top edge and the horizontal axis. */
  lemma BottomHandle(snap: Box, mouse: XY)
    ensures var b := ResizedBox(snap, mouse, "bottom");
            b.x == snap.x && b.width == snap.width && b.y == snap.y && b.height >= MinSize
  {
    assert 'l' !in "bottom" && 'r' !in "bottom" && 'p' !in "bottom" && StartsWith("bottom", "bottom");
    NotIncludes("bottom", "left", 'l');
    NotIncludes("bottom", "right", 'r');
    NotIncludes("bottom", "top", 'p');
  }

  /** The top-left corner keeps the bottom-right corner fixed. */
  lemma TopLeftHandle(snap: Box, mouse: XY)
    ensures var b := ResizedBox(snap, mouse, "top-left");
            b.x + b.width == snap.x + snap.width && b.y + b.height == snap.y + snap.height
            && b.width >= MinSize && b.height >= MinSize
  {
    assert StartsWith("top-left", "top");
    IncludesAt("top-left", "left", 4);
  }

  /** The bottom-right corner keeps the top-left corner fixed. */
  lemma BottomRightHandle(snap: Box, mouse: XY)
    ensures var b := ResizedBox(snap, mouse, "bottom-right");
            b.x == snap.x && b.y == snap.y && b.width >= MinSize && b.height >= MinSize
  {
    assert 'l' !in "bottom-right" && 'p' !in "bottom-right" && StartsWith("bottom-right", "bottom");
    IncludesAt("bottom-right", "right", 7);
    NotIncludes("bottom-right", "left", 'l');
    NotIncludes("bottom-right", "top", 'p');
  }

  /** The two refs of the component: the grab offset and the resize snapshot. */
  class Handles {
    var dragOffset: XY
    var initialRect: Option<Box>

    constructor ()
      ensures dragOffset == XY(0.0, 0.0) && initialRect == None
    {
      dragOffset := XY(0.0, 0.0);
      initialRect := None;
    }

    /**
     * `handleDragStart`: in edit mode, and when both the canvas container and
     * the box are found, records where the cursor grabbed the box.
     */
    method HandleDragStart(props: Props, parent: Option<ScreenRect>, element: Option<ScreenRect>, point: XY)
      requires parent.Some? ==> parent.value.width > 0.0
      modifies this
      ensures initialRect == old(initialRect)
      ensures props.isPreview || parent.None? || element.None? ==> dragOffset == old(dragOffset)
      ensures !props.isPreview && parent.Some? && element.Some? ==>
                dragOffset == DragOffset(parent.value, element.value, point)
    {
      if props.isPreview {
        return;
      }
      if parent.None? || element.None? {
        return;
      }
      var canvasScale := parent.value.width / CoordinateSystem.VirtualWidth;
      dragOffset := XY((point.x - element.value.left) / canvasScale,
                       (point.y - element.value.top) / canvasScale);
    }

    /**
     * `handleDrag`: the rounded corner under the cursor minus the grab
     * offset, with the width and height passed through; no update in
     * preview, without a listener or without a container.
     */
    method HandleDrag(props: Props, parent: Option<ScreenRect>, point: XY) returns (u: Option<Update>)
      requires parent.Some? ==> parent.value.width > 0.0
      ensures u.Some? <==> !props.isPreview && props.hasOnUpdate && parent.Some?
      ensures u.Some? ==>
                var p := DragPosition(parent.value, dragOffset, point);
                u.value.x == Round(p.x) && u.value.y == Round(p.y)
                && u.value.width == props.width && u.value.height == props.height
    {
      if props.isPreview || !props.hasOnUpdate {
        return None;
      }
      if parent.None? {
        return None;
      }
      var canvasScale := parent.value.width / CoordinateSystem.VirtualWidth;
      var x := Round((point.x - parent.value.left) / canvasScale - dragOffset.x);
      var y := Round((point.y - parent.value.top) / canvasScale - dragOffset.y);
      u := Some(Update(x, y, props.width, props.height));
    }

    /** `handleResizeStart`: in edit mode, snapshots the box's props. */
    method HandleResizeStart(props: Props)
      modifies this
      ensures dragOffset == old(dragOffset)
      ensures props.isPreview ==> initialRect == old(initialRect)
      ensures !props.isPreview ==>
                initialRect == Some(Box(props.position.x, props.position.y, props.width, props.height))
    {
      if props.isPreview {
        return;
      }
      initialRect := Some(Box(props.position.x, props.position.y, props.width, props.height));
    }

    /**
     * `handleResizing`: the snapshot resized towards the cursor by the
     * handle named `direction`, rounded; no update in preview, without a
     * listener, before any resize started or without a container.
     */
    method HandleResizing(props: Props, parent: Option<ScreenRect>, point: XY, direction: string)
      returns (u: Option<Update>)
      requires parent.Some? ==> parent.value.width > 0.0
      ensures u.Some? <==> !props.isPreview && props.hasOnUpdate && initialRect.Some? && parent.Some?
      ensures u.Some? ==>
                u.value == RoundBox(ResizedBox(initialRect.value, ToVirtual(parent.value, point), direction))
    {
      if props.isPreview || !props.hasOnUpdate || initialRect.None? {
        return None;
      }
      if parent.None? {
        return None;
      }
      var canvasScale := parent.value.width / CoordinateSystem.VirtualWidth;
      var mouseX := (point.x - parent.value.left) / canvasScale;
      var mouseY := (point.y - parent.value.top) / canvasScale;
      var snap := initialRect.value;
      var newX := snap.x;
      var newY := snap.y;
      var newWidth := snap.width;
      var newHeight := snap.height;
      var right := snap.x + snap.width;
      var bottom := snap.y + snap.height;
      if Includes(direction, "left") {
        newX := Min(mouseX, right - MinSize);
        newWidth := right - newX;
      } else if Includes(direction, "right") {
        newWidth := Max(MinSize, mouseX - snap.x);
      }
      if Includes(direction, "top") {
        newY := Min(mouseY, bottom - MinSize);
        newHeight := bottom - newY;
      } else if Includes(direction, "bottom") {
        newHeight := Max(MinSize, mouseY - snap.y);
      }
      u := Some(Update(Round(newX), Round(newY), Round(newWidth) as real, Round(newHeight) as real));
    }
  }
}
