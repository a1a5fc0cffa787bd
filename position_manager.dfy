/**
 * The older percentage-space validator: positions clamped into [0,100] on
 * both axes, sizes into [min,max], with per-role defaults, and the update
 * patches written back into a slide.
 */
module PositionManager {
  import opened JsValue
  import opened CoordinateSystem

  predicate InPercentSpace(p: XY)
  {
    0.0 <= p.x <= 100.0 && 0.0 <= p.y <= 100.0
  }

  /**
   * A missing position, or one whose `x`/`y` are not numbers, becomes the
   * centre (50,50); any other position is clamped into [0,100] per axis.
   */
  function ValidatePosition(position: Value): (r: XY)
    ensures InPercentSpace(r)
    ensures !position.Point? ==> r == XY(50.0, 50.0)
    ensures position.Point? && InPercentSpace(position.p) ==> r == position.p
    ensures position.Point? ==>
              forall q :: InPercentSpace(q) ==>
                Abs(r.x - position.p.x) <= Abs(q.x - position.p.x) &&
                Abs(r.y - position.p.y) <= Abs(q.y - position.p.y)
  {
    match position
    case Point(p) => XY(Max(0.0, Min(100.0, p.x)), Max(0.0, Min(100.0, p.y)))
    case _ => XY(50.0, 50.0)
  }

  lemma ValidatePositionIdempotent(position: Value)
    ensures ValidatePosition(Point(ValidatePosition(position))) == ValidatePosition(position)
  {
  }

  /**
   * A value that is not a number (or is NaN) becomes `min`; a number is
   * clamped into [min,max].  With `min <= max` the result is within bounds
   * and a number already within them is returned as is.
   */
  function ValidateDimension(value: Value, min: real, max: real): (r: real)
    ensures !value.Num? ==> r == min
    ensures min <= max ==> min <= r <= max
    ensures value.Num? && min <= value.n <= max ==> r == value.n
    ensures value.Num? && value.n < min ==> r == min
    ensures value.Num? && value.n > max && min <= max ==> r == max
  {
    match value
    case Num(n) => Max(min, Min(max, n))
    case _ => min
  }

  lemma ValidateDimensionIdempotent(value: Value, min: real, max: real)
    requires min <= max
    ensures ValidateDimension(Num(ValidateDimension(value, min, max)), min, max)
            == ValidateDimension(value, min, max)
  {
  }

  function DefaultPercentPosition(role: Role): XY
  {
    match role
    case Title => XY(5.0, 35.0)
    case Subtitle => XY(10.0, 55.0)
  }

  function DefaultPercentSize(role: Role): (size: (real, real))
  {
    match role
    case Title => (90.0, 12.0)
    case Subtitle => (80.0, 25.0)
  }

  /**
   * The stored position if it is truthy, else the role default, validated.
   */
  function GetTextPosition(slide: Record, role: Role): (r: XY)
    ensures InPercentSpace(r)
    ensures !Truthy(Get(slide, PosKey(role))) ==> r == DefaultPercentPosition(role)
    ensures Truthy(Get(slide, PosKey(role))) ==> r == ValidatePosition(Get(slide, PosKey(role)))
  {
    ValidatePosition(Or(Get(slide, PosKey(role)), Point(DefaultPercentPosition(role))))
  }

  /**
   * Width and height with falsy stored values (including 0) replaced by the
   * role default, then width clamped into [5,100] and height into [2,100].
   */
  function GetTextDimensions(slide: Record, role: Role): (r: (real, real))
    ensures 5.0 <= r.0 <= 100.0 && 2.0 <= r.1 <= 100.0
    ensures !Truthy(Get(slide, WidthKey(role))) ==> r.0 == DefaultPercentSize(role).0
    ensures !Truthy(Get(slide, HeightKey(role))) ==> r.1 == DefaultPercentSize(role).1
    ensures Truthy(Get(slide, WidthKey(role))) ==> r.0 == ValidateDimension(Get(slide, WidthKey(role)), 5.0, 100.0)
    ensures Truthy(Get(slide, HeightKey(role))) ==> r.1 == ValidateDimension(Get(slide, HeightKey(role)), 2.0, 100.0)
  {
    var def := DefaultPercentSize(role);
    (ValidateDimension(Or(Get(slide, WidthKey(role)), Num(def.0)), 5.0, 100.0),
     ValidateDimension(Or(Get(slide, HeightKey(role)), Num(def.1)), 2.0, 100.0))
  }

  /** The patch `{ <role>Pos: validated }`: one key, holding a valid position. */
  function CreatePositionUpdate(role: Role, position: Value): (u: Record)
    ensures u.Keys == {PosKey(role)}
    ensures u[PosKey(role)].Point? && InPercentSpace(u[PosKey(role)].p)
    ensures position.Point? && InPercentSpace(position.p) ==> u[PosKey(role)] == position
  {
    map[PosKey(role) := Point(ValidatePosition(position))]
  }

  /** The patch `{ <role>Width, <role>Height }` with both sizes validated. */
  function CreateDimensionUpdate(role: Role, width: Value, height: Value): (u: Record)
    ensures u.Keys == {WidthKey(role), HeightKey(role)}
    ensures u[WidthKey(role)].Num? && 5.0 <= u[WidthKey(role)].n <= 100.0
    ensures u[HeightKey(role)].Num? && 2.0 <= u[HeightKey(role)].n <= 100.0
  {
    assert WidthKey(role) != HeightKey(role) by {
      assert WidthKey(role)[|RoleName(role)|] == 'W';
      assert HeightKey(role)[|RoleName(role)|] == 'H';
    }
    map[WidthKey(role) := Num(ValidateDimension(width, 5.0, 100.0)),
        HeightKey(role) := Num(ValidateDimension(height, 2.0, 100.0))]
  }

  /**
   * Reading back what a position patch wrote gives the validated position:
   * the patch and `GetTextPosition` agree.
   */
  lemma PositionUpdateReadBack(slide: Record, role: Role, position: Value)
    ensures GetTextPosition(slide + CreatePositionUpdate(role, position), role)
            == ValidatePosition(position)
  {
  }

  /** Likewise for the size patch and `GetTextDimensions`. */
  lemma DimensionUpdateReadBack(slide: Record, role: Role, width: Value, height: Value)
    ensures GetTextDimensions(slide + CreateDimensionUpdate(role, width, height), role)
            == (ValidateDimension(width, 5.0, 100.0), ValidateDimension(height, 2.0, 100.0))
  {
    var u := CreateDimensionUpdate(role, width, height);
    assert Truthy(u[WidthKey(role)]) && Truthy(u[HeightKey(role)]);
  }
}
