/**
 * The editor's deck state: a non-empty list of slide records and the index
 * of the current slide, changed by the slide-list and presentation
 * handlers.  Every handler keeps the deck non-empty and the index in range.
 */
module App {
  import opened JsValue
  import opened Text
  import opened CoordinateSystem
  import opened BlobStore

  /** Fields shared by both slide templates. */
  function CommonFields(): Record
  {
    map[
      "customImage" := Null,
      "titleFontSize" := Num(80.0),
      "subtitleFontSize" := Num(40.0),
      "textColor" := Str("#ffffff"),
      "titleColor" := Str("#ffffff"),
      "subtitleColor" := Str("#ffffff"),
      "titleBold" := Bool(false),
      "titleItalic" := Bool(false),
      "subtitleBold" := Bool(false),
      "subtitleItalic" := Bool(false),
      "textAnimation" := Str("none"),
      "textAnimationDelay" := Num(0.5),
      "textAnimationDuration" := Num(1.0),
      "transitionDuration" := Num(1.0),
      "autoAdvance" := Bool(false),
      "autoAdvanceDelay" := Num(5.0)
    ]
  }

  /** A record with the six box fields of both roles set, over `base`. */
  function WithLayout(base: Record, titlePos: XY, subtitlePos: XY,
                      titleWidth: real, subtitleWidth: real,
                      titleHeight: real, subtitleHeight: real): (s: Record)
    ensures Get(s, PosKey(Title)) == Point(titlePos) && Get(s, PosKey(Subtitle)) == Point(subtitlePos)
    ensures Get(s, WidthKey(Title)) == Num(titleWidth) && Get(s, WidthKey(Subtitle)) == Num(subtitleWidth)
    ensures Get(s, HeightKey(Title)) == Num(titleHeight) && Get(s, HeightKey(Subtitle)) == Num(subtitleHeight)
  {
    assert PosKey(Title) == "titlePos" && WidthKey(Title) == "titleWidth" && HeightKey(Title) == "titleHeight";
    assert PosKey(Subtitle) == "subtitlePos" && WidthKey(Subtitle) == "subtitleWidth"
           && HeightKey(Subtitle) == "subtitleHeight";
    base + map[
      "titlePos" := Point(titlePos),
      "subtitlePos" := Point(subtitlePos),
      "titleWidth" := Num(titleWidth),
      "subtitleWidth" := Num(subtitleWidth),
      "titleHeight" := Num(titleHeight),
      "subtitleHeight" := Num(subtitleHeight)
    ]
  }

  /** The slide a new editor and a new project start with: boxes in virtual units. */
  function DefaultSlide(): Record
  {
    var base := CommonFields() + map[
      "id" := Str("1"),
      "background" := Str("bg-gradient-to-br from-blue-600 to-indigo-800"),
      "content" := Str("¡Bienvenidos Presentación Power!"),
      "subtitle" := Str("Tu editor de presentaciones interactivo"),
      "transition" := Str("fade")
    ];
    WithLayout(base, XY(110.0, 250.0), XY(110.0, 520.0), 1700.0, 1700.0, 250.0, 500.0)
  }

  /** The slide `addSlide` appends: boxes still written as percentages. */
  function NewSlide(id: string): Record
  {
    var base := CommonFields() + map[
      "id" := Str(id),
      "background" := Str("bg-slate-900"),
      "content" := Str("Nueva Diapositiva"),
      "subtitle" := Str("Haz clic para editar el texto"),
      "transition" := Str("slide")
    ];
    WithLayout(base, XY(5.0, 35.0), XY(10.0, 55.0), 90.0, 80.0, 12.0, 25.0)
  }

  /**
   * The two templates use different schemes, and the resolver reconciles
   * them: the default slide resolves to exactly what it stores, the new
   * slide's percentages to their share of the 1920x1080 canvas.
   */
  lemma DefaultSlideResolves()
    ensures GetTextConfiguration(DefaultSlide(), Title) == DefaultPlacement(Title)
    ensures GetTextConfiguration(DefaultSlide(), Subtitle) == DefaultPlacement(Subtitle)
  {
    var s := DefaultSlide();
    assert Get(s, PosKey(Title)) == Point(XY(110.0, 250.0));
    assert Get(s, WidthKey(Title)) == Num(1700.0) && Get(s, HeightKey(Title)) == Num(250.0);
    assert Get(s, PosKey(Subtitle)) == Point(XY(110.0, 520.0));
    assert Get(s, WidthKey(Subtitle)) == Num(1700.0) && Get(s, HeightKey(Subtitle)) == Num(500.0);
  }

  lemma NewSlideResolves(id: string)
    ensures GetTextConfiguration(NewSlide(id), Title)
            == Placement(Point(XY(96.0, 378.0)), Num(1728.0), Num(129.6))
    ensures GetTextConfiguration(NewSlide(id), Subtitle)
            == Placement(Point(XY(192.0, 594.0)), Num(1536.0), Num(270.0))
  {
    var s := NewSlide(id);
    LegacyPositionScaled(s, Title, XY(5.0, 35.0));
    SizeMigration(s, Title, 90.0, 12.0);
    LegacyPositionScaled(s, Subtitle, XY(10.0, 55.0));
    SizeMigration(s, Subtitle, 80.0, 25.0);
  }

  /** `slides.filter((_, i) => i !== index)`, element by element. */
  function FilterOutIndex(s: seq<Record>, index: int): seq<Record>
  {
    if s == [] then []
    else FilterOutIndex(s[..|s| - 1], index) + (if |s| - 1 != index then [s[|s| - 1]] else [])
  }

  /** The filter removes exactly the slide at `index`, keeping the rest in order. */
  lemma {:induction false} FilterOutIndexSpec(s: seq<Record>, index: int)
    ensures 0 <= index < |s| ==> FilterOutIndex(s, index) == s[..index] + s[index + 1..]
    ensures !(0 <= index < |s|) ==> FilterOutIndex(s, index) == s
  {
    if s != [] {
      var init := s[..|s| - 1];
      FilterOutIndexSpec(init, index);
      if 0 <= index < |s| - 1 {
        assert init[..index] == s[..index];
        assert init[index + 1..] + [s[|s| - 1]] == s[index + 1..];
      } else if index == |s| - 1 {
        assert s[index + 1..] == [];
      } else {
        assert init + [s[|s| - 1]] == s;
      }
    }
  }

  function NextIndex(index: int, count: int): int
  {
    if index < count - 1 then index + 1 else index
  }

  function PrevIndex(index: int): int
  {
    if index > 0 then index - 1 else index
  }

  class Editor {
    var slides: seq<Record>
    var currentSlideIndex: int
    var isPreviewMode: bool
    var isRecordingActive: bool
    /** The object URL of the background music, or `null`. */
    var audioFile: Value
    /** The file handle of the open project, if any. */
    var projectHandle: Option<nat>

    ghost predicate Valid()
      reads this
    {
      |slides| > 0 && 0 <= currentSlideIndex < |slides|
    }

    constructor ()
      ensures Valid()
      ensures slides == [DefaultSlide()] && currentSlideIndex == 0
      ensures !isPreviewMode && !isRecordingActive && audioFile == Null && projectHandle == None
    {
      slides := [DefaultSlide()];
      currentSlideIndex := 0;
      isPreviewMode := false;
      isRecordingActive := false;
      audioFile := Null;
      projectHandle := None;
    }

    /**
     * Appends one slide with id `now` in decimal and moves the index on by
     * one; that selects the new slide only when the last one was current.
     */
    method AddSlide(now: nat)
      requires Valid()
      modifies this`slides, this`currentSlideIndex
      ensures Valid()
      ensures slides == old(slides) + [NewSlide(ShowNat(now))]
      ensures currentSlideIndex == old(currentSlideIndex) + 1
      ensures currentSlideIndex == |slides| - 1 <==> old(currentSlideIndex) == |old(slides)| - 1
      ensures isPreviewMode == old(isPreviewMode) && audioFile == old(audioFile)
    {
      slides := slides + [NewSlide(ShowNat(now))];
      currentSlideIndex := currentSlideIndex + 1;
    }

    /**
     * A one-slide deck is kept; otherwise the slide at `index` is removed.
     * Either way the index steps back by one unless it is already 0.
     */
    method DeleteSlide(index: int)
      requires Valid()
      modifies this`slides, this`currentSlideIndex
      ensures Valid()
      ensures |old(slides)| == 1 ==> slides == old(slides)
      ensures |old(slides)| > 1 && 0 <= index < |old(slides)| ==>
                slides == old(slides)[..index] + old(slides)[index + 1..]
      ensures !(0 <= index < |old(slides)|) ==> slides == old(slides)
      ensures currentSlideIndex == if old(currentSlideIndex) > 0 then old(currentSlideIndex) - 1 else 0
      ensures isPreviewMode == old(isPreviewMode) && audioFile == old(audioFile)
    {
      if |slides| != 1 {
        FilterOutIndexSpec(slides, index);
        slides := FilterOutIndex(slides, index);
      }
      currentSlideIndex := if currentSlideIndex > 0 then currentSlideIndex - 1 else 0;
    }

    /** The current slide with `fields` spread over it; other slides untouched. */
    method UpdateSlide(fields: Record)
      requires Valid()
      modifies this`slides
      ensures Valid()
      ensures slides == old(slides)[old(currentSlideIndex) := old(slides)[old(currentSlideIndex)] + fields]
      ensures currentSlideIndex == old(currentSlideIndex)
      ensures isPreviewMode == old(isPreviewMode) && audioFile == old(audioFile)
    {
      var newSlides := slides;
      if 0 <= currentSlideIndex < |newSlides| {
        newSlides := newSlides[currentSlideIndex := newSlides[currentSlideIndex] + fields];
      }
      slides := newSlides;
    }

    method NextSlide()
      requires Valid()
      modifies this`currentSlideIndex
      ensures Valid() && slides == old(slides)
      ensures currentSlideIndex == NextIndex(old(currentSlideIndex), |slides|)
      ensures isPreviewMode == old(isPreviewMode)
    {
      currentSlideIndex := NextIndex(currentSlideIndex, |slides|);
    }

    method PrevSlide()
      requires Valid()
      modifies this`currentSlideIndex
      ensures Valid() && slides == old(slides)
      ensures currentSlideIndex == PrevIndex(old(currentSlideIndex))
      ensures isPreviewMode == old(isPreviewMode)
    {
      currentSlideIndex := PrevIndex(currentSlideIndex);
    }

    /**
     * The auto-advance callback: the next slide, or at the end of the deck
     * leave preview and, while recording, dispatch the stop-recording event.
     */
    method OnAutoAdvance() returns (stopRecordingDispatched: bool)
      requires Valid()
      modifies this`currentSlideIndex, this`isPreviewMode
      ensures Valid() && slides == old(slides)
      ensures old(currentSlideIndex) < |slides| - 1 ==>
                currentSlideIndex == old(currentSlideIndex) + 1
                && isPreviewMode == old(isPreviewMode) && !stopRecordingDispatched
      ensures old(currentSlideIndex) == |slides| - 1 ==>
                currentSlideIndex == old(currentSlideIndex) && !isPreviewMode
                && stopRecordingDispatched == old(isRecordingActive)
    {
      stopRecordingDispatched := false;
      if currentSlideIndex < |slides| - 1 {
        currentSlideIndex := currentSlideIndex + 1;
      } else {
        isPreviewMode := false;
        if isRecordingActive {
          stopRecordingDispatched := true;
        }
      }
    }

    /** A new project: the default slide alone, no audio, no file handle, index 0. */
    method CreateNewProject()
      requires Valid()
      modifies this`slides, this`currentSlideIndex, this`audioFile, this`projectHandle
      ensures Valid()
      ensures slides == [DefaultSlide()] && currentSlideIndex == 0
      ensures audioFile == Null && projectHandle == None
      ensures isPreviewMode == old(isPreviewMode)
    {
      slides := [DefaultSlide()];
      audioFile := Null;
      projectHandle := None;
      currentSlideIndex := 0;
    }

    /** A chosen image becomes a fresh object URL on the current slide, with no background class. */
    method HandleImageUpload(file: Option<Bytes>, store: Store)
      requires Valid() && store.Valid()
      modifies this`slides, store
      ensures Valid() && store.Valid()
      ensures file.None? ==> slides == old(slides) && unchanged(store)
      ensures file.Some? ==>
                var url := Handle(old(store.next));
                url !in old(store.objects) && store.objects == old(store.objects)[url := file.value]
                && slides == old(slides)[old(currentSlideIndex) :=
                     old(slides)[old(currentSlideIndex)] + map["customImage" := Str(url), "background" := Str("")]]
      ensures currentSlideIndex == old(currentSlideIndex)
    {
      if file.Some? {
        var url := store.CreateObjectURL(file.value);
        UpdateSlide(map["customImage" := Str(url), "background" := Str("")]);
      }
    }

    /** Only a file whose MIME type starts with `audio/` becomes the music. */
    method HandleAudioUpload(file: Option<Bytes>, mimeType: string, store: Store)
      requires Valid() && store.Valid()
      modifies this`audioFile, store
      ensures Valid() && store.Valid() && slides == old(slides)
      ensures file.Some? && StartsWith(mimeType, "audio/") ==>
                audioFile == Str(Handle(old(store.next)))
                && store.objects == old(store.objects)[Handle(old(store.next)) := file.value]
      ensures !(file.Some? && StartsWith(mimeType, "audio/")) ==> audioFile == old(audioFile) && unchanged(store)
    {
      if file.Some? && StartsWith(mimeType, "audio/") {
        var url := store.CreateObjectURL(file.value);
        audioFile := Str(url);
      }
    }

    /** A truthy audio URL is revoked and cleared; otherwise nothing happens. */
    method RemoveAudio(store: Store)
      requires Valid() && store.Valid()
      modifies this`audioFile, store
      ensures Valid() && store.Valid() && slides == old(slides)
      ensures Truthy(old(audioFile)) && old(audioFile).Str? ==>
                audioFile == Null && store.objects == old(store.objects) - {old(audioFile).s}
      ensures Truthy(old(audioFile)) ==> audioFile == Null
      ensures !Truthy(old(audioFile)) ==> audioFile == old(audioFile) && unchanged(store)
    {
      if Truthy(audioFile) {
        if audioFile.Str? {
          store.RevokeObjectURL(audioFile.s);
        }
        audioFile := Null;
      }
    }

    method EnterPreview()
      requires Valid()
      modifies this`isPreviewMode
      ensures Valid() && isPreviewMode && slides == old(slides)
      ensures currentSlideIndex == old(currentSlideIndex)
    {
      isPreviewMode := true;
    }

    /** Leaving preview, also when fullscreen ends on its own. */
    method ExitPreview()
      requires Valid()
      modifies this`isPreviewMode
      ensures Valid() && !isPreviewMode && slides == old(slides)
      ensures currentSlideIndex == old(currentSlideIndex)
    {
      isPreviewMode := false;
    }

    /**
     * Keys act only in preview: right arrow and space go forward, left
     * arrow goes back, Escape leaves preview.
     */
    method HandleKeyDown(key: string)
      requires Valid()
      modifies this`currentSlideIndex, this`isPreviewMode
      ensures Valid() && slides == old(slides)
      ensures !old(isPreviewMode) ==> currentSlideIndex == old(currentSlideIndex) && !isPreviewMode
      ensures old(isPreviewMode) && (key == "ArrowRight" || key == " ") ==>
                currentSlideIndex == NextIndex(old(currentSlideIndex), |slides|) && isPreviewMode
      ensures old(isPreviewMode) && key == "ArrowLeft" ==>
                currentSlideIndex == PrevIndex(old(currentSlideIndex)) && isPreviewMode
      ensures old(isPreviewMode) && key == "Escape" ==>
                currentSlideIndex == old(currentSlideIndex) && !isPreviewMode
      ensures old(isPreviewMode) && key !in {"ArrowRight", " ", "ArrowLeft", "Escape"} ==>
                currentSlideIndex == old(currentSlideIndex) && isPreviewMode
    {
      if isPreviewMode {
        if key == "ArrowRight" || key == " " {
          NextSlide();
        }
        if key == "ArrowLeft" {
          PrevSlide();
        }
        if key == "Escape" {
          isPreviewMode := false;
        }
      }
    }
  }

  /** Navigation never leaves the deck: next stops at the last slide, previous at the first. */
  lemma NavigationBounds(index: int, count: int)
    requires 0 <= index < count
    ensures 0 <= NextIndex(index, count) < count && 0 <= PrevIndex(index) < count
    ensures index == count - 1 ==> NextIndex(index, count) == index
    ensures index == 0 ==> PrevIndex(index) == 0
    ensures index < count - 1 ==> PrevIndex(NextIndex(index, count)) == index
  {
  }
}
