/**
 * The two exports of the export menu.  The web export copies every slide
 * with its custom image replaced by a data URL (or `null`), and the
 * soundtrack likewise.  The PowerPoint export maps each slide to a
 * background (image data, a colour looked up from its background classes,
 * or a dark fallback) and two text boxes whose colour, boldness, slant,
 * size and font face are derived from the slide.
 */
module ExportMenu {
  import opened JsValue
  import opened Text
  import opened BlobStore
  import CoordinateSystem
  import SlideCanvas

  /* ------------------------------------------------------------ web export */

  /**
   * `blobToBase64`: a string naming registered bytes resolves to their data
   * URL, as `encode` renders it; anything else makes the conversion fail.
   */
  function DataUrl(v: Value, blobs: map<string, Bytes>, encode: Bytes -> string): (r: Option<string>)
    ensures r.Some? <==> v.Str? && v.s in blobs
    ensures r.Some? ==> r.value == encode(blobs[v.s])
  {
    if v.Str? && v.s in blobs then Some(encode(blobs[v.s])) else None
  }

  /** A data URL for a truthy value that converts, `null` otherwise. */
  function Embedded(v: Value, blobs: map<string, Bytes>, encode: Bytes -> string): (r: Value)
    ensures r.Str? || r == Null
    ensures r.Str? <==> Truthy(v) && DataUrl(v, blobs, encode).Some?
    ensures r.Str? ==> r.s == DataUrl(v, blobs, encode).value
  {
    if Truthy(v) && DataUrl(v, blobs, encode).Some? then Str(DataUrl(v, blobs, encode).value) else Null
  }

  /** The processed copy of one slide: every field kept but the embedded image. */
  function HtmlSlide(slide: Record, blobs: map<string, Bytes>, encode: Bytes -> string): (r: Record)
    ensures r - {"customImage"} == slide - {"customImage"}
    ensures "customImage" in r && r["customImage"] == Embedded(Get(slide, "customImage"), blobs, encode)
  {
    slide["customImage" := Embedded(Get(slide, "customImage"), blobs, encode)]
  }

  /**
   * `exportToHtml`, up to the page template: one processed slide per slide,
   * in order, and the soundtrack as a data URL or `null`.  A failed
   * conversion does not stop the export.
   */
  method ExportToHtml(slides: seq<Record>, audioFile: Value, store: Store, encode: Bytes -> string)
    returns (processed: seq<Record>, audio: Value)
    ensures |processed| == |slides|
    ensures forall i :: 0 <= i < |slides| ==> processed[i] == HtmlSlide(slides[i], store.objects, encode)
    ensures audio == Embedded(audioFile, store.objects, encode)
  {
    processed := [];
    for i := 0 to |slides|
      invariant |processed| == i
      invariant forall j :: 0 <= j < i ==> processed[j] == HtmlSlide(slides[j], store.objects, encode)
    {
      var slide := slides[i];
      var image := Null;
      var customImage := Get(slide, "customImage");
      if Truthy(customImage) {
        var converted := DataUrl(customImage, store.objects, encode);
        if converted.Some? {
          image := Str(converted.value);
        }
      }
      processed := processed + [slide["customImage" := image]];
    }
    audio := Null;
    if Truthy(audioFile) {
      var converted := DataUrl(audioFile, store.objects, encode);
      if converted.Some? {
        audio := Str(converted.value);
      }
    }
  }

  /** A slide whose image is a registered handle is exported with that image's data. */
  lemma HtmlImageEmbedded(slide: Record, blobs: map<string, Bytes>, encode: Bytes -> string)
    requires Truthy(Get(slide, "customImage"))
    requires Get(slide, "customImage").Str? && Get(slide, "customImage").s in blobs
    ensures HtmlSlide(slide, blobs, encode)["customImage"] == Str(encode(blobs[Get(slide, "customImage").s]))
  {
  }

  /* ----------------------------------------------------- PowerPoint export */

  /** Background class fragments and their fill colours, in the map's key order. */
  const BgMap: seq<(string, string)> := [
    ("bg-white", "FFFFFF"),
    ("bg-slate-100", "F1F5F9"),
    ("bg-slate-900", "0F172A"),
    ("bg-red-500", "EF4444"),
    ("bg-blue-500", "3B82F6"),
    ("bg-emerald-500", "10B981"),
    ("bg-amber-500", "F59E0B"),
    ("bg-indigo-500", "6366F1"),
    ("from-blue-600", "2563EB"),
    ("from-purple-500", "A855F7"),
    ("from-gray-700", "374151"),
    ("from-emerald-400", "34D399")
  ]

  const DefaultFill: string := "FFFFFF"

  /** The colour after visiting `entries` in order: each key found in `bg` overwrites it. */
  function FillAfter(entries: seq<(string, string)>, bg: string): string
  {
    if entries == [] then DefaultFill
    else
      var last := entries[|entries| - 1];
      if Includes(bg, last.0) then last.1 else FillAfter(entries[..|entries| - 1], bg)
  }

  /**
   * The last matching key wins: the fill is the default when no key occurs
   * in `bg`, and otherwise the colour of a matching key after which no key
   * matches.
   */
  lemma {:induction false} LastMatchWins(entries: seq<(string, string)>, bg: string)
    ensures (forall i :: 0 <= i < |entries| ==> !Includes(bg, entries[i].0)) ==>
              FillAfter(entries, bg) == DefaultFill
    ensures (exists i :: 0 <= i < |entries| && Includes(bg, entries[i].0)) ==>
              exists i :: 0 <= i < |entries| && Includes(bg, entries[i].0)
                && FillAfter(entries, bg) == entries[i].1
                && forall j :: i < j < |entries| ==> !Includes(bg, entries[j].0)
  {
    if entries != [] {
      var pre := entries[..|entries| - 1];
      LastMatchWins(pre, bg);
      var k := |entries| - 1;
      if !Includes(bg, entries[k].0) {
        if exists i :: 0 <= i < |entries| && Includes(bg, entries[i].0) {
          var i :| 0 <= i < |entries| && Includes(bg, entries[i].0);
          assert pre[i] == entries[i];
          var m :| 0 <= m < |pre| && Includes(bg, pre[m].0) && FillAfter(pre, bg) == pre[m].1
                   && forall j :: m < j < |pre| ==> !Includes(bg, pre[j].0);
          assert entries[m] == pre[m];
          forall j | m < j < |entries|
            ensures !Includes(bg, entries[j].0)
          {
            if j < k {
              assert entries[j] == pre[j];
            }
          }
        } else {
          forall i | 0 <= i < |pre|
            ensures !Includes(bg, pre[i].0)
          {
            assert pre[i] == entries[i];
          }
        }
      }
    }
  }

  /** The `forEach` over the colour map. */
  method BackgroundColor(bg: string) returns (color: string)
    ensures color == FillAfter(BgMap, bg)
  {
    color := DefaultFill;
    for i := 0 to |BgMap|
      invariant color == FillAfter(BgMap[..i], bg)
    {
      assert BgMap[..i + 1][..i] == BgMap[..i];
      if Includes(bg, BgMap[i].0) {
        color := BgMap[i].1;
      }
    }
    assert BgMap[..|BgMap|] == BgMap;
  }

  /** A matching last key decides the colour. */
  lemma FillAfterLastMatch(entries: seq<(string, string)>, bg: string)
    requires entries != [] && Includes(bg, entries[|entries| - 1].0)
    ensures FillAfter(entries, bg) == entries[|entries| - 1].1
  {
  }

  /** Keys that do not occur after position `m` leave the colour found by then. */
  lemma {:induction false} FillAfterUnmatched(entries: seq<(string, string)>, bg: string, m: nat)
    requires m <= |entries|
    requires forall j :: m <= j < |entries| ==> !Includes(bg, entries[j].0)
    ensures FillAfter(entries, bg) == FillAfter(entries[..m], bg)
  {
    if m < |entries| {
      var pre := entries[..|entries| - 1];
      forall j | m <= j < |pre|
        ensures !Includes(bg, pre[j].0)
      {
        assert pre[j] == entries[j];
      }
      FillAfterUnmatched(pre, bg, m);
      assert pre[..m] == entries[..m];
    } else {
      assert entries[..m] == entries;
    }
  }

  /** The gradient of the initial slide. */
  const InitialGradient: string := "bg-gradient-to-br " + "from-blue-600" + " to-indigo-800"

  lemma GradientStop()
    ensures Includes(InitialGradient, "from-blue-600")
  {
    assert InitialGradient[18..31] == "from-blue-600";
    IncludesAt(InitialGradient, "from-blue-600", 18);
  }

  /** `c` occurs in none of the three words of the initial gradient. */
  lemma GradientLacks(c: char)
    requires c !in "bg-gradient-to-br " && c !in "from-blue-600" && c !in " to-indigo-800"
    ensures c !in InitialGradient
  {
  }

  /** The three characters that single out the last three keys, one lemma each. */
  lemma GradientLacksP() ensures 'p' !in InitialGradient { GradientLacks('p'); }
  lemma GradientLacks7() ensures '7' !in InitialGradient { GradientLacks('7'); }
  lemma GradientLacks4() ensures '4' !in InitialGradient { GradientLacks('4'); }

  /** A background lacking `p`, `7` and `4` matches none of the last three keys. */
  lemma LastKeysAbsent(bg: string)
    requires 'p' !in bg && '7' !in bg && '4' !in bg
    ensures forall j :: 9 <= j < |BgMap| ==> !Includes(bg, BgMap[j].0)
  {
    forall j | 9 <= j < |BgMap|
      ensures !Includes(bg, BgMap[j].0)
    {
      if j == 9 {
        IncludesChar(bg, BgMap[9].0, 'p');
      } else if j == 10 {
        IncludesChar(bg, BgMap[10].0, '7');
      } else {
        IncludesChar(bg, BgMap[11].0, '4');
      }
    }
  }

  /** A background with a `from-blue-600` stop and none of the later keys is filled with its colour. */
  lemma BlueStopFill(bg: string)
    requires Includes(bg, "from-blue-600")
    requires 'p' !in bg && '7' !in bg && '4' !in bg
    ensures FillAfter(BgMap, bg) == "2563EB"
  {
    LastKeysAbsent(bg);
    FillAfterUnmatched(BgMap, bg, 9);
    var pre := BgMap[..9];
    assert |pre| == 9 && pre[8] == ("from-blue-600", "2563EB");
    FillAfterLastMatch(pre, bg);
  }

  /** The initial slide's gradient is filled with the colour of its `from-blue-600` stop. */
  lemma GradientExample()
    ensures FillAfter(BgMap, InitialGradient) == "2563EB"
  {
    GradientLacksP();
    GradientLacks7();
    GradientLacks4();
    GradientStop();
    BlueStopFill(InitialGradient);
  }

  /** A slide background: embedded image data, or a fill colour. */
  datatype Background = ImageData(data: string) | Fill(color: string)

  const ImageFailureFill: string := "000000"

  /**
   * The background of a PowerPoint slide, or `None` when the export throws
   * (no image and a background that is not a string).
   */
  function PptxBackground(slide: Record, blobs: map<string, Bytes>, encode: Bytes -> string): (r: Option<Background>)
    ensures Truthy(Get(slide, "customImage")) ==>
              r.Some? && (r.value.ImageData? <==> DataUrl(Get(slide, "customImage"), blobs, encode).Some?)
              && (r.value.Fill? ==> r.value.color == ImageFailureFill)
              && (r.value.ImageData? ==> r.value.data == DataUrl(Get(slide, "customImage"), blobs, encode).value)
    ensures !Truthy(Get(slide, "customImage")) ==>
              (r.Some? <==> Get(slide, "background").Str?)
              && (r.Some? ==> r.value == Fill(FillAfter(BgMap, Get(slide, "background").s)))
  {
    var image := Get(slide, "customImage");
    if Truthy(image) then
      var data := DataUrl(image, blobs, encode);
      if data.Some? then Some(ImageData(data.value)) else Some(Fill(ImageFailureFill))
    else if Get(slide, "background").Str? then Some(Fill(FillAfter(BgMap, Get(slide, "background").s)))
    else None
  }

  /** The styling of one text box. */
  datatype TextOptions = TextOptions(fontSize: Value, color: string, bold: Value, italic: Value, fontFace: string)

  /** `(fontFamily || 'Arial').split(',')[0].replace(/"/g, '')`. */
  function FontFace(family: string): (face: string)
    ensures '"' !in face && ',' !in face
  {
    var first := FirstField(family, ',');
    RemoveAllKeeps(first, '"', ',');
    RemoveAll(first, '"')
  }

  /** Apart from double quotes, the face has exactly the characters of the part before the first comma. */
  lemma FontFaceChars(family: string, d: char)
    requires d != '"'
    ensures d in FontFace(family) <==> d in FirstField(family, ',')
  {
    RemoveAllKeeps(FirstField(family, ','), '"', d);
  }

  /** A quoted first name followed by fallbacks gives the name without its quotes. */
  lemma FontFaceQuoted(name: string, rest: string)
    requires '"' !in name && ',' !in name
    ensures FontFace("\"" + name + "\"," + rest) == name
  {
    var quoted := "\"" + name + "\"";
    assert "\"" + name + "\"," + rest == quoted + [','] + rest;
    FirstFieldAt(quoted, rest, ',');
    RemoveAllAppend("\"" + name, "\"", '"');
    RemoveAllAppend("\"", name, '"');
    RemoveAllAbsent(name, '"');
  }

  /** The Times New Roman entry of the font list exports as its bare name. */
  lemma TimesNewRomanFace()
    ensures FontFace("\"Times New Roman\", serif") == "Times New Roman"
  {
    var name := "Times New Roman";
    assert '"' !in name && ',' !in name;
    assert "\"Times New Roman\", serif" == "\"" + name + "\"," + " serif";
    FontFaceQuoted(name, " serif");
  }

  /** A family with a single unquoted name is used as it is. */
  lemma FontFacePlain(family: string)
    requires ',' !in family && '"' !in family
    ensures FontFace(family) == family
  {
    var first := FirstField(family, ',');
    assert first == family;
    RemoveAllAbsent(first, '"');
  }

  /**
   * The options of a role's text box, or `None` when the export throws
   * (a colour or font family that is not a string).  The colour is the
   * role's own, else the slide's text colour, else white, with its first
   * `#` dropped; the title is bold unless its flag holds some other truthy
   * value, the subtitle only when its flag is truthy.
   */
  function PptxText(slide: Record, role: CoordinateSystem.Role): (r: Option<TextOptions>)
    ensures var c := Or(Or(Get(slide, SlideCanvas.ColorKey(role)), Get(slide, "textColor")), Str("#ffffff"));
            var f := Or(Get(slide, "fontFamily"), Str("Arial"));
            (r.Some? <==> c.Str? && f.Str?)
            && (r.Some? ==> r.value.color == RemoveFirst(c.s, '#') && r.value.fontFace == FontFace(f.s))
    ensures r.Some? ==> r.value.fontSize == SlideCanvas.FontSize(slide, role)
    ensures r.Some? && role == CoordinateSystem.Title ==> Truthy(r.value.bold)
    ensures r.Some? && role == CoordinateSystem.Subtitle ==>
              (Truthy(r.value.bold) <==> Truthy(Get(slide, SlideCanvas.BoldKey(role))))
    ensures r.Some? ==> (Truthy(r.value.italic) <==> Truthy(Get(slide, SlideCanvas.ItalicKey(role))))
  {
    var c := Or(Or(Get(slide, SlideCanvas.ColorKey(role)), Get(slide, "textColor")), Str("#ffffff"));
    var f := Or(Get(slide, "fontFamily"), Str("Arial"));
    if !c.Str? || !f.Str? then None
    else
      var boldDefault := Bool(role == CoordinateSystem.Title);
      Some(TextOptions(
        SlideCanvas.FontSize(slide, role),
        RemoveFirst(c.s, '#'),
        Or(Get(slide, SlideCanvas.BoldKey(role)), boldDefault),
        Or(Get(slide, SlideCanvas.ItalicKey(role)), Bool(false)),
        FontFace(f.s)))
  }

  /** One PowerPoint slide: background, title and subtitle with their styling. */
  datatype PptxSlide = PptxSlide(background: Background, title: Value, titleOptions: TextOptions,
                                 subtitle: Value, subtitleOptions: TextOptions)

  function PptxSlideOf(slide: Record, blobs: map<string, Bytes>, encode: Bytes -> string): (r: Option<PptxSlide>)
    ensures r.Some? <==> (PptxBackground(slide, blobs, encode).Some?
                          && PptxText(slide, CoordinateSystem.Title).Some?
                          && PptxText(slide, CoordinateSystem.Subtitle).Some?)
    ensures r.Some? ==> r.value.title == Get(slide, "content") && r.value.subtitle == Get(slide, "subtitle")
    ensures r.Some? ==> r.value.background == PptxBackground(slide, blobs, encode).value
                        && r.value.titleOptions == PptxText(slide, CoordinateSystem.Title).value
                        && r.value.subtitleOptions == PptxText(slide, CoordinateSystem.Subtitle).value
  {
    var bg := PptxBackground(slide, blobs, encode);
    var t := PptxText(slide, CoordinateSystem.Title);
    var s := PptxText(slide, CoordinateSystem.Subtitle);
    if bg.Some? && t.Some? && s.Some? then
      Some(PptxSlide(bg.value, Get(slide, "content"), t.value, Get(slide, "subtitle"), s.value))
    else None
  }

  /** The body of the slide loop of `exportToPptx`. */
  method ConvertSlide(slide: Record, store: Store, encode: Bytes -> string) returns (r: Option<PptxSlide>)
    ensures r == PptxSlideOf(slide, store.objects, encode)
  {
    var background: Background;
    var image := Get(slide, "customImage");
    if Truthy(image) {
      var data := DataUrl(image, store.objects, encode);
      if data.Some? {
        background := ImageData(data.value);
      } else {
        background := Fill(ImageFailureFill);
      }
    } else {
      var bg := Get(slide, "background");
      if !bg.Str? {
        return None;
      }
      var color := BackgroundColor(bg.s);
      background := Fill(color);
    }
    var title := PptxText(slide, CoordinateSystem.Title);
    if title.None? {
      return None;
    }
    var subtitle := PptxText(slide, CoordinateSystem.Subtitle);
    if subtitle.None? {
      return None;
    }
    r := Some(PptxSlide(background, Get(slide, "content"), title.value, Get(slide, "subtitle"), subtitle.value));
  }

  /**
   * `exportToPptx`, up to the file writer: one slide per slide, in order, or
   * `None` when some slide makes the export throw.
   */
  method ExportToPptx(slides: seq<Record>, store: Store, encode: Bytes -> string)
    returns (deck: Option<seq<PptxSlide>>)
    ensures deck.Some? <==> forall i :: 0 <= i < |slides| ==> PptxSlideOf(slides[i], store.objects, encode).Some?
    ensures deck.Some? ==>
              |deck.value| == |slides|
              && forall i :: 0 <= i < |slides| ==> Some(deck.value[i]) == PptxSlideOf(slides[i], store.objects, encode)
  {
    var out: seq<PptxSlide> := [];
    for i := 0 to |slides|
      invariant |out| == i && Converted(slides, store.objects, encode, out)
    {
      var converted := ConvertSlide(slides[i], store, encode);
      if converted.None? {
        return None;
      }
      ConvertedSnoc(slides, store.objects, encode, out, converted.value);
      out := out + [converted.value];
    }
    deck := Some(out);
  }

  /** `out` holds the converted first `|out|` slides. */
  ghost predicate Converted(slides: seq<Record>, blobs: map<string, Bytes>, encode: Bytes -> string, out: seq<PptxSlide>)
  {
    |out| <= |slides| && forall j :: 0 <= j < |out| ==> Some(out[j]) == PptxSlideOf(slides[j], blobs, encode)
  }

  lemma ConvertedSnoc(slides: seq<Record>, blobs: map<string, Bytes>, encode: Bytes -> string,
                      out: seq<PptxSlide>, next: PptxSlide)
    requires Converted(slides, blobs, encode, out) && |out| < |slides|
    requires Some(next) == PptxSlideOf(slides[|out|], blobs, encode)
    ensures Converted(slides, blobs, encode, out + [next])
  {
    assert (out + [next])[|out|] == next;
  }

  /** A white slide with no colours set is drawn with slate text on the canvas. */
  lemma WhiteSlideDrawnDark()
    ensures SlideCanvas.TextColor(map["background" := Str("bg-white")], CoordinateSystem.Title)
            == Str(SlideCanvas.DarkText)
  {
    var slide := map["background" := Str("bg-white")];
    WhiteSlideNotDark();
    var key := SlideCanvas.ColorKey(CoordinateSystem.Title);
    assert key[0] == 't' && "background"[0] == 'b';
    assert key !in slide && "textColor" !in slide;
  }

  lemma WhiteSlideNotDark()
    ensures !SlideCanvas.IsDark(map["background" := Str("bg-white")])
  {
    var slide := map["background" := Str("bg-white")];
    assert Get(slide, "customImage") == Undefined;
    NoDarkWord("bg-white");
  }

  /** A background lacking one letter of each dark word mentions none of them. */
  lemma NoDarkWord(bg: string)
    requires 'c' !in bg && 'o' !in bg && 'u' !in bg && 's' !in bg && 'r' !in bg
    ensures !Includes(bg, "black") && !Includes(bg, "indigo") && !Includes(bg, "blue")
    ensures !Includes(bg, "slate") && !Includes(bg, "gray")
  {
    IncludesChar(bg, "black", 'c');
    IncludesChar(bg, "indigo", 'o');
    IncludesChar(bg, "blue", 'u');
    IncludesChar(bg, "slate", 's');
    IncludesChar(bg, "gray", 'r');
  }

  /** A `bg-white` background is filled white. */
  lemma WhiteSlideFill()
    ensures FillAfter(BgMap, "bg-white") == "FFFFFF"
  {
    var bg := "bg-white";
    forall j | 1 <= j < |BgMap|
      ensures !Includes(bg, BgMap[j].0)
    {
      IncludesChar(bg, BgMap[j].0, '0');
    }
    FillAfterUnmatched(BgMap, bg, 1);
    assert StartsWith(bg, "bg-white");
  }

  /**
   * Unlike the canvas, the PowerPoint export falls back to white text on
   * every background: a white slide with no colours set is drawn with slate
   * text but exported as white on white.
   */
  lemma WhiteOnWhite(blobs: map<string, Bytes>, encode: Bytes -> string)
    ensures var slide := map["background" := Str("bg-white")];
            SlideCanvas.TextColor(slide, CoordinateSystem.Title) == Str(SlideCanvas.DarkText)
            && PptxBackground(slide, blobs, encode) == Some(Fill("FFFFFF"))
            && PptxText(slide, CoordinateSystem.Title).Some?
            && PptxText(slide, CoordinateSystem.Title).value.color == "ffffff"
  {
    WhiteSlideDrawnDark();
    WhiteSlideFill();
    WhiteSlideExportText();
  }

  lemma WhiteSlideExportText()
    ensures var slide := map["background" := Str("bg-white")];
            PptxText(slide, CoordinateSystem.Title).Some?
            && PptxText(slide, CoordinateSystem.Title).value.color == "ffffff"
  {
    var slide := map["background" := Str("bg-white")];
    var key := SlideCanvas.ColorKey(CoordinateSystem.Title);
    assert key[0] == 't' && "background"[0] == 'b';
    assert key !in slide && "textColor" !in slide && "fontFamily" !in slide;
    RemoveFirstSpec("ffffff", '#');
    assert ['#'] + "ffffff" == "#ffffff";
  }
}
