/**
 * The virtual canvas: every text box is stored in a fixed 1920x1080 space.
 * Older records stored percentages (0-100); `GetTextConfiguration` migrates
 * them on read with the "both components <= 100 means percent" rule and
 * falls back to per-role defaults.
 */
module CoordinateSystem {
  import opened JsValue

  const VirtualWidth: real := 1920.0
  const VirtualHeight: real := 1080.0

  /** The two positionable text boxes of a slide. */
  datatype Role = Title | Subtitle

  function RoleName(role: Role): string
  {
    match role
    case Title => "title"
    case Subtitle => "subtitle"
  }

  function PosKey(role: Role): string { RoleName(role) + "Pos" }
  function WidthKey(role: Role): string { RoleName(role) + "Width" }
  function HeightKey(role: Role): string { RoleName(role) + "Height" }

  predicate OnCanvas(p: XY)
  {
    0.0 <= p.x <= VirtualWidth && 0.0 <= p.y <= VirtualHeight
  }

  function Abs(a: real): real { if a < 0.0 then -a else a }

  /**
   * Clamps a position into the canvas.  The result is on the canvas, is the
   * input itself when that is already on the canvas, and on each axis is at
   * least as close to the input as any other point of the canvas.
   */
  function NormalizePixelPosition(p: XY): (r: XY)
    ensures OnCanvas(r)
    ensures OnCanvas(p) ==> r == p
    ensures forall q :: OnCanvas(q) ==>
              Abs(r.x - p.x) <= Abs(q.x - p.x) && Abs(r.y - p.y) <= Abs(q.y - p.y)
  {
    XY(Max(0.0, Min(VirtualWidth, p.x)), Max(0.0, Min(VirtualHeight, p.y)))
  }

  lemma NormalizeIdempotent(p: XY)
    ensures NormalizePixelPosition(NormalizePixelPosition(p)) == NormalizePixelPosition(p)
  {
  }

  /**
   * Converts a legacy percentage position to virtual units; `null` in, `null`
   * out.  Each component lands at the same fraction of its axis.
   */
  function LegacyToPixels(p: Option<XY>): (r: Option<XY>)
    ensures r.None? <==> p.None?
    ensures p.Some? ==> (r.value.x / VirtualWidth == p.value.x / 100.0 &&
                         r.value.y / VirtualHeight == p.value.y / 100.0)
  {
    match p
    case None => None
    case Some(q) => Some(XY(q.x / 100.0 * VirtualWidth, q.y / 100.0 * VirtualHeight))
  }

  /** Percentages within [0,100] land on the canvas, corners on corners. */
  lemma LegacyToPixelsOnCanvas(p: XY)
    requires 0.0 <= p.x <= 100.0 && 0.0 <= p.y <= 100.0
    ensures LegacyToPixels(Some(p)).Some? && OnCanvas(LegacyToPixels(Some(p)).value)
    ensures NormalizePixelPosition(LegacyToPixels(Some(p)).value) == LegacyToPixels(Some(p)).value
  {
  }

  lemma LegacyToPixelsExamples()
    ensures LegacyToPixels(Some(XY(50.0, 50.0))) == Some(XY(960.0, 540.0))
    ensures LegacyToPixels(Some(XY(0.0, 0.0))) == Some(XY(0.0, 0.0))
    ensures LegacyToPixels(Some(XY(100.0, 100.0))) == Some(XY(1920.0, 1080.0))
  {
  }

  /** A resolved text box: position, width and height as the record holds them. */
  datatype Placement = Placement(position: Value, width: Value, height: Value)

  function DefaultPlacement(role: Role): Placement
  {
    match role
    case Title => Placement(Point(XY(110.0, 250.0)), Num(1700.0), Num(250.0))
    case Subtitle => Placement(Point(XY(110.0, 520.0)), Num(1700.0), Num(500.0))
  }

  /** The stored position is taken for percentages: both components are <= 100. */
  predicate IsLegacyPosition(saved: Value)
  {
    saved.Point? && saved.p.x <= 100.0 && saved.p.y <= 100.0
  }

  /** The stored size is taken for a percentage: truthy and <= 100. */
  predicate IsLegacySize(saved: Value)
  {
    Truthy(saved) && LooseAtMost(saved, 100.0)
  }

  function MigratePosition(saved: Value): Value
  {
    if IsLegacyPosition(saved) then Point(LegacyToPixels(Some(saved.p)).value) else saved
  }

  function MigrateSize(saved: Value, span: real): Value
  {
    if IsLegacySize(saved) then Num(LooseNumber(saved).value / 100.0 * span) else saved
  }

  /**
   * Where a text box of `role` sits and how big it is.  Every component of
   * the result is truthy; positions and sizes that are not legacy values
   * pass through untouched (nothing is clamped), legacy ones are scaled.
   */
  function GetTextConfiguration(slide: Record, role: Role): (c: Placement)
    ensures Truthy(c.position) && Truthy(c.width) && Truthy(c.height)
    ensures var saved := Get(slide, PosKey(role));
            Truthy(saved) && !IsLegacyPosition(saved) ==> c.position == saved
    ensures var saved := Get(slide, WidthKey(role));
            Truthy(saved) && !IsLegacySize(saved) ==> c.width == saved
    ensures var saved := Get(slide, HeightKey(role));
            Truthy(saved) && !IsLegacySize(saved) ==> c.height == saved
    ensures !Truthy(Get(slide, PosKey(role))) ==> c.position == DefaultPlacement(role).position
    ensures !Truthy(Get(slide, WidthKey(role))) ==> c.width == DefaultPlacement(role).width
    ensures !Truthy(Get(slide, HeightKey(role))) ==> c.height == DefaultPlacement(role).height
  {
    var def := DefaultPlacement(role);
    var savedPos := MigratePosition(Get(slide, PosKey(role)));
    var savedW := MigrateSize(Get(slide, WidthKey(role)), VirtualWidth);
    var savedH := MigrateSize(Get(slide, HeightKey(role)), VirtualHeight);
    Placement(Or(savedPos, def.position), Or(savedW, def.width), Or(savedH, def.height))
  }

  /** With nothing (or only falsy values such as 0) stored, the role defaults apply. */
  lemma DefaultsWhenAbsent(slide: Record, role: Role)
    requires !Truthy(Get(slide, PosKey(role)))
    requires !Truthy(Get(slide, WidthKey(role))) && !Truthy(Get(slide, HeightKey(role)))
    ensures GetTextConfiguration(slide, role) == DefaultPlacement(role)
    ensures role == Title ==>
      GetTextConfiguration(slide, role) == Placement(Point(XY(110.0, 250.0)), Num(1700.0), Num(250.0))
    ensures role == Subtitle ==>
      GetTextConfiguration(slide, role) == Placement(Point(XY(110.0, 520.0)), Num(1700.0), Num(500.0))
  {
  }

  /** A stored position with both components <= 100 is read as percentages. */
  lemma LegacyPositionScaled(slide: Record, role: Role, p: XY)
    requires Get(slide, PosKey(role)) == Point(p) && p.x <= 100.0 && p.y <= 100.0
    ensures GetTextConfiguration(slide, role).position
            == Point(XY(p.x * VirtualWidth / 100.0, p.y * VirtualHeight / 100.0))
  {
  }

  /** A stored position with a component above 100 is already in virtual units. */
  lemma PixelPositionKept(slide: Record, role: Role, p: XY)
    requires Get(slide, PosKey(role)) == Point(p) && (p.x > 100.0 || p.y > 100.0)
    ensures GetTextConfiguration(slide, role).position == Point(p)
  {
  }

  /** Sizes: a truthy value <= 100 is a percentage of its own axis; larger ones pass through. */
  lemma SizeMigration(slide: Record, role: Role, w: real, h: real)
    requires Get(slide, WidthKey(role)) == Num(w) && Get(slide, HeightKey(role)) == Num(h)
    requires w != 0.0 && h != 0.0
    ensures w <= 100.0 ==> GetTextConfiguration(slide, role).width == Num(w * VirtualWidth / 100.0)
    ensures w > 100.0 ==> GetTextConfiguration(slide, role).width == Num(w)
    ensures h <= 100.0 ==> GetTextConfiguration(slide, role).height == Num(h * VirtualHeight / 100.0)
    ensures h > 100.0 ==> GetTextConfiguration(slide, role).height == Num(h)
  {
  }

  lemma WorkedExample()
    ensures GetTextConfiguration(
              map["titlePos" := Point(XY(60.0, 40.0)), "titleWidth" := Num(70.0), "titleHeight" := Num(15.0)],
              Title)
            == Placement(Point(XY(1152.0, 432.0)), Num(1344.0), Num(162.0))
  {
    var slide := map["titlePos" := Point(XY(60.0, 40.0)), "titleWidth" := Num(70.0), "titleHeight" := Num(15.0)];
    assert PosKey(Title) == "titlePos" && WidthKey(Title) == "titleWidth" && HeightKey(Title) == "titleHeight";
  }

  /** Nothing is clamped: an off-canvas virtual position comes back as stored. */
  lemma NoClamping()
    ensures var c := GetTextConfiguration(map["subtitlePos" := Point(XY(-50.0, 2000.0))], Subtitle);
            c.position == Point(XY(-50.0, 2000.0)) && !OnCanvas(c.position.p)
  {
    assert PosKey(Subtitle) == "subtitlePos";
  }

  /**
   * The percentage heuristic cannot tell a small virtual position from a
   * percentage: a box stored at (50, 80) virtual units is read back at
   * (960, 864).
   */
  lemma SmallVirtualPositionMisread()
    ensures GetTextConfiguration(map["titlePos" := Point(XY(50.0, 80.0))], Title).position
            == Point(XY(960.0, 864.0))
  {
    assert PosKey(Title) == "titlePos";
  }
}
