/**
 * How the canvas renders one slide: the dark-background rule that picks the
 * fallback text colour, the colour, size, weight and timing fallbacks of
 * the two text boxes, their placement, the patch a moved or resized box
 * writes back, and the render scale kept up to date by a resize observer.
 */
module SlideCanvas {
  import opened JsValue
  import opened Text
  import opened CoordinateSystem
  import DraggableText

  /** Background class fragments that make a slide count as dark. */
  const DarkWords: seq<string> := ["black", "indigo", "blue", "slate", "gray"]

  const LightText: string := "#ffffff"
  const DarkText: string := "#1e293b"

  /**
   * A slide is dark when it has a custom image, or when its background
   * classes mention one of the dark colour words.
   */
  predicate IsDark(slide: Record)
  {
    var bg := Get(slide, "background");
    Truthy(Get(slide, "customImage"))
    || (Truthy(bg) && bg.Str?
        && (Includes(bg.s, "black") || Includes(bg.s, "indigo") || Includes(bg.s, "blue")
            || Includes(bg.s, "slate") || Includes(bg.s, "gray")))
  }

  /** The dark rule, stated over the word list. */
  lemma IsDarkWords(slide: Record)
    ensures IsDark(slide) <==>
              Truthy(Get(slide, "customImage"))
              || (Get(slide, "background").Str?
                  && exists i :: 0 <= i < |DarkWords| && Includes(Get(slide, "background").s, DarkWords[i]))
  {
    var bg := Get(slide, "background");
    if bg.Str? {
      if Includes(bg.s, "black") { assert Includes(bg.s, DarkWords[0]); }
      if Includes(bg.s, "indigo") { assert Includes(bg.s, DarkWords[1]); }
      if Includes(bg.s, "blue") { assert Includes(bg.s, DarkWords[2]); }
      if Includes(bg.s, "slate") { assert Includes(bg.s, DarkWords[3]); }
      if Includes(bg.s, "gray") { assert Includes(bg.s, DarkWords[4]); }
      if exists i :: 0 <= i < |DarkWords| && Includes(bg.s, DarkWords[i]) {
        var i :| 0 <= i < |DarkWords| && Includes(bg.s, DarkWords[i]);
        var k := IncludesWitness(bg.s, DarkWords[i]);
        assert bg.s != "";
      }
    }
  }

  /** White text on dark slides, slate text otherwise. */
  function DefaultTextColor(slide: Record): (c: string)
    ensures IsDark(slide) <==> c == LightText
    ensures !IsDark(slide) <==> c == DarkText
  {
    if IsDark(slide) then LightText else DarkText
  }

  /** The slide key holding a role's own colour, size, boldness or slant. */
  function ColorKey(role: Role): string { RoleName(role) + "Color" }
  function FontSizeKey(role: Role): string { RoleName(role) + "FontSize" }
  function BoldKey(role: Role): string { RoleName(role) + "Bold" }
  function ItalicKey(role: Role): string { RoleName(role) + "Italic" }

  /** The role's own colour, else the slide's text colour, else the fallback. */
  function TextColor(slide: Record, role: Role): (c: Value)
    ensures Truthy(Get(slide, ColorKey(role))) ==> c == Get(slide, ColorKey(role))
    ensures !Truthy(Get(slide, ColorKey(role))) && Truthy(Get(slide, "textColor")) ==>
              c == Get(slide, "textColor")
    ensures !Truthy(Get(slide, ColorKey(role))) && !Truthy(Get(slide, "textColor")) ==>
              c == Str(DefaultTextColor(slide))
    ensures Truthy(c)
  {
    Or(Or(Get(slide, ColorKey(role)), Get(slide, "textColor")), Str(DefaultTextColor(slide)))
  }

  function DefaultFontSize(role: Role): real
  {
    match role
    case Title => 80.0
    case Subtitle => 40.0
  }

  /** The stored font size, or 80 for the title and 40 for the subtitle when it is falsy. */
  function FontSize(slide: Record, role: Role): (v: Value)
    ensures Truthy(Get(slide, FontSizeKey(role))) ==> v == Get(slide, FontSizeKey(role))
    ensures !Truthy(Get(slide, FontSizeKey(role))) ==>
              v == Num(if role == Title then 80.0 else 40.0)
  {
    Or(Get(slide, FontSizeKey(role)), Num(DefaultFontSize(role)))
  }

  /** The title is bold whatever its flag says; the subtitle follows its flag. */
  function FontWeight(slide: Record, role: Role): (w: string)
    ensures role == Title ==> w == "bold"
    ensures role == Subtitle ==> (w == "bold" <==> Truthy(Get(slide, BoldKey(Subtitle))))
    ensures w == "bold" || w == "normal"
  {
    match role
    case Title => if Truthy(Get(slide, BoldKey(Title))) then "bold" else "bold"
    case Subtitle => if Truthy(Get(slide, BoldKey(Subtitle))) then "bold" else "normal"
  }

  function FontStyle(slide: Record, role: Role): (s: string)
    ensures s == "italic" <==> Truthy(Get(slide, ItalicKey(role)))
    ensures s == "italic" || s == "normal"
  {
    if Truthy(Get(slide, ItalicKey(role))) then "italic" else "normal"
  }

  /** Title boldness does not depend on the stored flag. */
  lemma TitleAlwaysBold(slide: Record, flag: Value)
    ensures FontWeight(slide[BoldKey(Title) := flag], Title) == FontWeight(slide, Title) == "bold"
  {
  }

  /** The text animation, `'none'` when unset. */
  function TextEffect(slide: Record): (v: Value)
    ensures Truthy(v)
    ensures Truthy(Get(slide, "textAnimation")) ==> v == Get(slide, "textAnimation")
  {
    Or(Get(slide, "textAnimation"), Str("none"))
  }

  /** Animation duration of both boxes, 1 second when unset or 0. */
  function AnimationDuration(slide: Record): (v: Value)
    ensures Truthy(v)
    ensures !Truthy(Get(slide, "textAnimationDuration")) ==> v == Num(1.0)
    ensures Truthy(Get(slide, "textAnimationDuration")) ==> v == Get(slide, "textAnimationDuration")
  {
    Or(Get(slide, "textAnimationDuration"), Num(1.0))
  }

  /** Animation delay of the title, 0 when unset. */
  function TitleDelay(slide: Record): (v: Value)
    ensures !Truthy(Get(slide, "textAnimationDelay")) ==> v == Num(0.0)
    ensures Truthy(Get(slide, "textAnimationDelay")) ==> v == Get(slide, "textAnimationDelay")
  {
    Or(Get(slide, "textAnimationDelay"), Num(0.0))
  }

  /** Animation delay of the subtitle: half a second after the title when that is a number. */
  function SubtitleDelay(slide: Record): (v: Option<real>)
    ensures TitleDelay(slide).Num? <==> v.Some?
    ensures v.Some? ==> v.value - TitleDelay(slide).n == 0.5
  {
    match TitleDelay(slide)
    case Num(n) => Some(n + 0.5)
    case _ => None
  }

  /** A slide with no delay set animates its title at once and its subtitle half a second later. */
  lemma DelaysWithoutSetting(slide: Record)
    requires "textAnimationDelay" !in slide
    ensures TitleDelay(slide) == Num(0.0) && SubtitleDelay(slide) == Some(0.5)
  {
  }

  /**
   * The patch a moved or resized box sends to `updateSlide`: its own
   * position, width and height, and no other key.
   */
  function BoxUpdateFields(role: Role, u: DraggableText.Update): (fields: Record)
    ensures fields.Keys == {PosKey(role), WidthKey(role), HeightKey(role)}
    ensures fields[PosKey(role)] == Point(XY(u.x as real, u.y as real))
    ensures fields[WidthKey(role)] == Num(u.width) && fields[HeightKey(role)] == Num(u.height)
  {
    map[PosKey(role) := Point(XY(u.x as real, u.y as real)),
        WidthKey(role) := Num(u.width),
        HeightKey(role) := Num(u.height)]
  }

  lemma KeysDistinct()
    ensures PosKey(Title) != PosKey(Subtitle) && WidthKey(Title) != WidthKey(Subtitle)
    ensures HeightKey(Title) != HeightKey(Subtitle)
    ensures PosKey(Title) != WidthKey(Subtitle) && PosKey(Title) != HeightKey(Subtitle)
    ensures WidthKey(Title) != PosKey(Subtitle) && WidthKey(Title) != HeightKey(Subtitle)
    ensures HeightKey(Title) != PosKey(Subtitle) && HeightKey(Title) != WidthKey(Subtitle)
  {
    assert PosKey(Title)[0] == 't' && PosKey(Subtitle)[0] == 's';
    assert WidthKey(Title)[0] == 't' && WidthKey(Subtitle)[0] == 's';
    assert HeightKey(Title)[0] == 't' && HeightKey(Subtitle)[0] == 's';
  }

  function Other(role: Role): Role
  {
    match role
    case Title => Subtitle
    case Subtitle => Title
  }

  /** Moving or resizing one box leaves where the other box is read from unchanged. */
  lemma UpdateLeavesOtherBox(slide: Record, role: Role, u: DraggableText.Update)
    ensures GetTextConfiguration(slide + BoxUpdateFields(role, u), Other(role))
            == GetTextConfiguration(slide, Other(role))
  {
    KeysDistinct();
    var s2 := slide + BoxUpdateFields(role, u);
    var o := Other(role);
    assert Get(s2, PosKey(o)) == Get(slide, PosKey(o));
    assert Get(s2, WidthKey(o)) == Get(slide, WidthKey(o));
    assert Get(s2, HeightKey(o)) == Get(slide, HeightKey(o));
  }

  /**
   * A box written back at a corner with a coordinate above 100 and a size
   * above 100 in both directions is read back exactly where it was put.
   */
  lemma UpdateReadBack(slide: Record, role: Role, u: DraggableText.Update)
    requires u.x > 100 || u.y > 100
    requires u.width > 100.0 && u.height > 100.0
    ensures GetTextConfiguration(slide + BoxUpdateFields(role, u), role)
            == Placement(Point(XY(u.x as real, u.y as real)), Num(u.width), Num(u.height))
  {
    var s2 := slide + BoxUpdateFields(role, u);
    assert Get(s2, PosKey(role)) == Point(XY(u.x as real, u.y as real));
    assert Get(s2, WidthKey(role)) == Num(u.width);
    assert Get(s2, HeightKey(role)) == Num(u.height);
  }

  /**
   * Resizing allows heights down to 40 virtual units, but a stored height of
   * at most 100 is read back as a percentage: a title box resized to 80
   * units high is drawn 864 units high.
   */
  lemma SmallResizeMisread(slide: Record)
    ensures var s2 := slide + BoxUpdateFields(Title, DraggableText.Update(300, 300, 600.0, 80.0));
            GetTextConfiguration(s2, Title).height == Num(864.0)
  {
    var s2 := slide + BoxUpdateFields(Title, DraggableText.Update(300, 300, 600.0, 80.0));
    assert Get(s2, HeightKey(Title)) == Num(80.0);
  }

  /** The render scale of the virtual canvas, kept by a resize observer. */
  class Scale {
    var scale: real

    constructor ()
      ensures scale == 1.0
    {
      scale := 1.0;
    }

    /**
     * The observer's callback: with the container mounted, the scale maps
     * the 1920 virtual units onto its rendered width; otherwise it stays.
     */
    method UpdateScale(offsetWidth: Option<real>)
      modifies this
      ensures offsetWidth.None? ==> scale == old(scale)
      ensures offsetWidth.Some? ==> scale * VirtualWidth == offsetWidth.value
    {
      if offsetWidth.Some? {
        scale := offsetWidth.value / VirtualWidth;
      }
    }
  }
}
