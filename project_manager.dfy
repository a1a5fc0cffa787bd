/**
 * The project archive codec.  Export copies every slide, moves the bytes of
 * each `blob:` image (and of the `blob:` music) into `assets/` entries of
 * the archive, rewrites the copies to point at those entries and writes the
 * manifest as `project.json`.  Import reads the manifest back and turns each
 * `assets/` reference whose entry exists into a fresh object URL.
 *
 * The archive is the map from entry names to bytes; the object-URL registry
 * is `BlobStore.Store`; `JSON.stringify`/`JSON.parse` of the manifest are
 * parameters.
 */
module ProjectManager {
  import opened JsValue
  import opened Text
  import opened BlobStore

  type Archive = map<string, Bytes>

  datatype Error =
    | LibraryUnavailable   // no compression library: nothing is done
    | NotAString           // a truthy `customImage` (or audio URL) that has no `startsWith`
    | ManifestMissing      // no `project.json` entry
    | ManifestUnparsable   // `JSON.parse` throws

  datatype Result<T> = Ok(value: T) | Err(error: Error)

  datatype AudioConfig = AudioConfig(path: string, name: string)

  /** The manifest: `{ version, slides, audio, timestamp }`. */
  datatype ProjectData = ProjectData(version: string, slides: seq<Record>, audio: Option<AudioConfig>, timestamp: nat)

  const AssetsFolder: string := "assets/"
  const ManifestName: string := "project.json"
  const Version: string := "1.0.2"
  const MusicName: string := "music.mp3"

  /** `${v}` for a slide id. */
  function TemplateText(v: Value): string
  {
    match v
    case Str(s) => s
    case Undefined => "undefined"
    case Null => "null"
    case Bool(b) => if b then "true" else "false"
    case NaN => "NaN"
    case Point(_) => "[object Object]"
    case Num(n) =>
      if n == n.Floor as real then
        if n >= 0.0 then ShowNat(n.Floor) else "-" + ShowNat(-n.Floor)
      else "number"
  }

  function ImageFileName(id: Value, now: nat): string
  {
    "img_" + TemplateText(id) + "_" + ShowNat(now) + ".bin"
  }

  /** Where the parts of `img_<text>_<digits>.bin` sit. */
  lemma EntryNameParts(t: string, digits: string)
    ensures var name := "img_" + t + "_" + digits + ".bin";
            |name| == 9 + |t| + |digits| && name[..4] == "img_" && name[|name| - 4..] == ".bin"
            && name[4..4 + |t|] == t && name[4 + |t|] == '_' && name[5 + |t|..|name| - 4] == digits
  {
  }

  /**
   * The entry name of a packed image: `img_`, the id as a template literal
   * prints it, `_`, the export time in decimal (which reads back), `.bin`.
   */
  lemma ImageFileNameParts(id: Value, now: nat)
    ensures var name := ImageFileName(id, now); var t := TemplateText(id);
            |name| >= 10 + |t| && name[..4] == "img_" && name[|name| - 4..] == ".bin"
            && name[4..4 + |t|] == t && name[4 + |t|] == '_'
            && AllDigits(name[5 + |t|..|name| - 4]) && ParseDigits(name[5 + |t|..|name| - 4]) == now
  {
    var t := TemplateText(id);
    var digits := ShowNat(now);
    ParseShowNat(now);
    EntryNameParts(t, digits);
  }

  function MusicFileName(now: nat): string
  {
    "music_" + ShowNat(now) + ".bin"
  }

  /** Two slides with different string ids get different image entries. */
  lemma ImageFileNameInjective(a: string, b: string, now: nat)
    requires ImageFileName(Str(a), now) == ImageFileName(Str(b), now)
    ensures a == b
  {
    var na := ImageFileName(Str(a), now);
    assert |a| == |b|;
    assert na[4..4 + |a|] == a;
    assert ImageFileName(Str(b), now)[4..4 + |b|] == b;
  }

  /** Image entries, the music entry and the manifest never share a name. */
  lemma EntryNamesDistinct(id: Value, now: nat)
    ensures AssetsFolder + ImageFileName(id, now) != AssetsFolder + MusicFileName(now)
    ensures AssetsFolder + ImageFileName(id, now) != ManifestName
    ensures AssetsFolder + MusicFileName(now) != ManifestName
  {
    assert (AssetsFolder + ImageFileName(id, now))[7] == 'i';
    assert (AssetsFolder + MusicFileName(now))[7] == 'm';
    assert (AssetsFolder + ImageFileName(id, now))[0] == 'a';
    assert (AssetsFolder + MusicFileName(now))[0] == 'a';
  }

  function CustomImage(slide: Record): Value
  {
    Get(slide, "customImage")
  }

  /** `slide.customImage && slide.customImage.startsWith(...)` can be evaluated. */
  predicate ImageTyped(slide: Record)
  {
    !Truthy(CustomImage(slide)) || CustomImage(slide).Str?
  }

  /* ---------------------------------------------------------------- export */

  /** The image of this slide is a `blob:` URL whose bytes can be fetched. */
  predicate Embeds(slide: Record, blobs: map<string, Bytes>)
  {
    var img := CustomImage(slide);
    Truthy(img) && img.Str? && StartsWith(img.s, BlobScheme) && img.s in blobs
  }

  /** The manifest copy of one slide: the image path rewritten when its bytes were packed. */
  function ExportCopy(slide: Record, blobs: map<string, Bytes>, now: nat): (copy: Record)
    ensures copy - {"customImage"} == slide - {"customImage"}
    ensures !Embeds(slide, blobs) ==> copy == slide
    ensures Embeds(slide, blobs) ==>
              CustomImage(copy) == Str(AssetsFolder + ImageFileName(Get(slide, "id"), now))
  {
    if Embeds(slide, blobs)
    then slide["customImage" := Str(AssetsFolder + ImageFileName(Get(slide, "id"), now))]
    else slide
  }

  /** The archive entry one slide adds, if any. */
  function ExportAsset(slide: Record, blobs: map<string, Bytes>, now: nat): Archive
  {
    if Embeds(slide, blobs)
    then map[AssetsFolder + ImageFileName(Get(slide, "id"), now) := blobs[CustomImage(slide).s]]
    else map[]
  }

  datatype Packed = Packed(slides: seq<Record>, assets: Archive)

  /** The slide loop of the export, over a prefix of the deck. */
  function ExportSlides(slides: seq<Record>, blobs: map<string, Bytes>, now: nat): Result<Packed>
  {
    if slides == [] then Ok(Packed([], map[]))
    else
      match ExportSlides(slides[..|slides| - 1], blobs, now)
      case Err(e) => Err(e)
      case Ok(p) =>
        var slide := slides[|slides| - 1];
        if !ImageTyped(slide) then Err(NotAString)
        else Ok(Packed(p.slides + [ExportCopy(slide, blobs, now)], p.assets + ExportAsset(slide, blobs, now)))
  }

  datatype PackedAudio = PackedAudio(config: Option<AudioConfig>, assets: Archive)

  /** The music is packed only when it is a `blob:` URL whose bytes can be fetched. */
  function ExportAudio(audioFileUrl: Value, blobs: map<string, Bytes>, now: nat): (r: Result<PackedAudio>)
    ensures r.Ok? <==> !Truthy(audioFileUrl) || audioFileUrl.Str?
    ensures r.Ok? && r.value.config.Some? ==>
              audioFileUrl.Str? && StartsWith(audioFileUrl.s, BlobScheme) && audioFileUrl.s in blobs
              && r.value.config.value == AudioConfig(AssetsFolder + MusicFileName(now), MusicName)
              && r.value.assets == map[AssetsFolder + MusicFileName(now) := blobs[audioFileUrl.s]]
    ensures r.Ok? && r.value.config.None? ==>
              r.value.assets == map[]
              && !(audioFileUrl.Str? && StartsWith(audioFileUrl.s, BlobScheme) && audioFileUrl.s in blobs)
  {
    if !Truthy(audioFileUrl) then Ok(PackedAudio(None, map[]))
    else if !audioFileUrl.Str? then Err(NotAString)
    else if StartsWith(audioFileUrl.s, BlobScheme) && audioFileUrl.s in blobs then
      var path := AssetsFolder + MusicFileName(now);
      Ok(PackedAudio(Some(AudioConfig(path, MusicName)), map[path := blobs[audioFileUrl.s]]))
    else Ok(PackedAudio(None, map[]))
  }

  datatype Bundle = Bundle(manifest: ProjectData, assets: Archive)

  /** The manifest and the asset entries of an export. */
  function ExportBundle(libraryAvailable: bool, slides: seq<Record>, audioFileUrl: Value,
                        blobs: map<string, Bytes>, now: nat): Result<Bundle>
  {
    if !libraryAvailable then Err(LibraryUnavailable)
    else
      match ExportSlides(slides, blobs, now)
      case Err(e) => Err(e)
      case Ok(p) =>
        match ExportAudio(audioFileUrl, blobs, now)
        case Err(e) => Err(e)
        case Ok(a) => Ok(Bundle(ProjectData(Version, p.slides, a.config, now), p.assets + a.assets))
  }

  /** The archive: the assets plus the serialised manifest as `project.json`. */
  function ExportSpec(libraryAvailable: bool, slides: seq<Record>, audioFileUrl: Value,
                      blobs: map<string, Bytes>, now: nat, stringify: ProjectData -> Bytes): Result<Archive>
  {
    match ExportBundle(libraryAvailable, slides, audioFileUrl, blobs, now)
    case Err(e) => Err(e)
    case Ok(b) => Ok(b.assets[ManifestName := stringify(b.manifest)])
  }

  lemma {:induction false} ExportFailurePersists(slides: seq<Record>, blobs: map<string, Bytes>, now: nat, i: nat)
    requires i <= |slides| && ExportSlides(slides[..i], blobs, now).Err?
    ensures ExportSlides(slides, blobs, now) == ExportSlides(slides[..i], blobs, now)
    decreases |slides| - i
  {
    if i < |slides| {
      assert slides[..i + 1][..i] == slides[..i];
      ExportFailurePersists(slides, blobs, now, i + 1);
    } else {
      assert slides[..i] == slides;
    }
  }

  /** The slide loop of `exportProject`. */
  method PackSlides(slides: seq<Record>, store: Store, now: nat) returns (r: Result<Packed>)
    ensures r == ExportSlides(slides, store.objects, now)
  {
    var assets: Archive := map[];
    var processed: seq<Record> := [];
    for i := 0 to |slides|
      invariant ExportSlides(slides[..i], store.objects, now) == Ok(Packed(processed, assets))
    {
      var slide := slides[i];
      assert slides[..i + 1][..i] == slides[..i] && slides[..i + 1][i] == slide;
      var newSlide := slide;
      var image := Get(slide, "customImage");
      if Truthy(image) {
        if !image.Str? {
          ExportFailurePersists(slides, store.objects, now, i + 1);
          return Err(NotAString);
        }
        if StartsWith(image.s, BlobScheme) {
          var blob := store.Fetch(image.s);
          if blob.Some? {
            var fileName := ImageFileName(Get(slide, "id"), now);
            assert Embeds(slide, store.objects);
            assert assets + ExportAsset(slide, store.objects, now) == assets[AssetsFolder + fileName := blob.value];
            assets := assets[AssetsFolder + fileName := blob.value];
            newSlide := newSlide["customImage" := Str(AssetsFolder + fileName)];
          } else {
            assert assets + ExportAsset(slide, store.objects, now) == assets;
          }
        } else {
          assert assets + ExportAsset(slide, store.objects, now) == assets;
        }
      } else {
        assert assets + ExportAsset(slide, store.objects, now) == assets;
      }
      processed := processed + [newSlide];
    }
    assert slides[..|slides|] == slides;
    r := Ok(Packed(processed, assets));
  }

  /** The music step of `exportProject`: a fetched `blob:` URL is packed under a timestamped name. */
  method PackAudio(audioFileUrl: Value, store: Store, now: nat) returns (r: Result<PackedAudio>)
    ensures r == ExportAudio(audioFileUrl, store.objects, now)
  {
    if !Truthy(audioFileUrl) {
      return Ok(PackedAudio(None, map[]));
    }
    if !audioFileUrl.Str? {
      return Err(NotAString);
    }
    r := Ok(PackedAudio(None, map[]));
    if StartsWith(audioFileUrl.s, BlobScheme) {
      var blob := store.Fetch(audioFileUrl.s);
      if blob.Some? {
        var path := AssetsFolder + MusicFileName(now);
        r := Ok(PackedAudio(Some(AudioConfig(path, MusicName)), map[path := blob.value]));
      }
    }
  }

  /**
   * `exportProject`: the slide loop, then the music, then the manifest.  The
   * caller's slides are only read; the registry is only read.
   */
  method ExportProject(libraryAvailable: bool, slides: seq<Record>, audioFileUrl: Value,
                       store: Store, now: nat, stringify: ProjectData -> Bytes)
    returns (r: Result<Archive>)
    ensures r == ExportSpec(libraryAvailable, slides, audioFileUrl, store.objects, now, stringify)
  {
    if !libraryAvailable {
      return Err(LibraryUnavailable);
    }
    var packed := PackSlides(slides, store, now);
    if packed.Err? {
      return Err(packed.error);
    }
    var audio := PackAudio(audioFileUrl, store, now);
    if audio.Err? {
      return Err(audio.error);
    }
    var assets := packed.value.assets + audio.value.assets;
    var audioConfig := audio.value.config;
    var projectData := ProjectData(Version, packed.value.slides, audioConfig, now);
    r := Ok(assets[ManifestName := stringify(projectData)]);
  }

  /* ---------------------------------------------------------------- import */

  /** This manifest slide names an archive entry that exists. */
  predicate Resolves(slide: Record, archive: Archive)
  {
    var img := CustomImage(slide);
    Truthy(img) && img.Str? && StartsWith(img.s, AssetsFolder) && img.s in archive
  }

  /** The restored copy of one manifest slide, `n` being the next handle counter. */
  function ImportCopy(slide: Record, archive: Archive, n: nat): (copy: Record)
    ensures copy - {"customImage"} == slide - {"customImage"}
    ensures !Resolves(slide, archive) ==> copy == slide
    ensures Resolves(slide, archive) ==> CustomImage(copy) == Str(Handle(n))
  {
    if Resolves(slide, archive) then slide["customImage" := Str(Handle(n))] else slide
  }

  /** The bytes registered for one manifest slide, if any. */
  function ImportAsset(slide: Record, archive: Archive): seq<Bytes>
  {
    if Resolves(slide, archive) then [archive[CustomImage(slide).s]] else []
  }

  /**
   * The state of the import loop: the restored slides, the bytes registered
   * so far (in order), and whether a slide threw.
   */
  datatype Restoring = Restoring(slides: seq<Record>, created: seq<Bytes>, failed: bool)

  function ImportSlides(slides: seq<Record>, archive: Archive, n: nat): Restoring
  {
    if slides == [] then Restoring([], [], false)
    else
      var st := ImportSlides(slides[..|slides| - 1], archive, n);
      var slide := slides[|slides| - 1];
      if st.failed then st
      else if !ImageTyped(slide) then st.(failed := true)
      else Restoring(st.slides + [ImportCopy(slide, archive, n + |st.created|)],
                     st.created + ImportAsset(slide, archive), false)
  }

  datatype Loaded = Loaded(slides: seq<Record>, audioUrl: Value)

  /** The outcome of an import and the bytes it registered, in registration order. */
  datatype ImportOutcome = ImportOutcome(result: Result<Loaded>, created: seq<Bytes>)

  /** The music is restored when the manifest names a truthy path whose entry exists. */
  function ImportAudio(audio: Option<AudioConfig>, archive: Archive): seq<Bytes>
  {
    if audio.Some? && audio.value.path != [] && audio.value.path in archive
    then [archive[audio.value.path]] else []
  }

  /** What importing a parsed manifest gives: the slide loop, then the music. */
  function ImportData(data: ProjectData, archive: Archive, n: nat): ImportOutcome
  {
    var st := ImportSlides(data.slides, archive, n);
    if st.failed then ImportOutcome(Err(NotAString), st.created)
    else
      var audio := ImportAudio(data.audio, archive);
      var audioUrl := if audio == [] then Null else Str(Handle(n + |st.created|));
      ImportOutcome(Ok(Loaded(st.slides, audioUrl)), st.created + audio)
  }

  function ImportSpec(libraryAvailable: bool, archive: Archive, parse: Bytes -> Option<ProjectData>, n: nat): ImportOutcome
  {
    if !libraryAvailable then ImportOutcome(Err(LibraryUnavailable), [])
    else if ManifestName !in archive then ImportOutcome(Err(ManifestMissing), [])
    else if parse(archive[ManifestName]).None? then ImportOutcome(Err(ManifestUnparsable), [])
    else ImportData(parse(archive[ManifestName]).value, archive, n)
  }

  lemma {:induction false} ImportFailurePersists(slides: seq<Record>, archive: Archive, n: nat, i: nat)
    requires i <= |slides| && ImportSlides(slides[..i], archive, n).failed
    ensures ImportSlides(slides, archive, n) == ImportSlides(slides[..i], archive, n)
    decreases |slides| - i
  {
    if i < |slides| {
      assert slides[..i + 1][..i] == slides[..i];
      ImportFailurePersists(slides, archive, n, i + 1);
    } else {
      assert slides[..i] == slides;
    }
  }

  lemma {:induction false} RegisterSnoc(objects: map<string, Bytes>, n: nat, created: seq<Bytes>, b: Bytes)
    ensures Register(objects, n, created + [b]) == Register(objects, n, created)[Handle(n + |created|) := b]
    decreases |created|
  {
    if created == [] {
      assert created + [b] == [b];
      assert [b][1..] == [];
    } else {
      assert (created + [b])[1..] == created[1..] + [b];
      RegisterSnoc(objects[Handle(n) := created[0]], n + 1, created[1..], b);
    }
  }

  /** The slide loop of `importProject`. */
  method RestoreSlides(slides: seq<Record>, archive: Archive, store: Store)
    returns (restored: seq<Record>, failed: bool)
    requires store.Valid()
    modifies store
    ensures store.Valid()
    ensures var st := ImportSlides(slides, archive, old(store.next));
            failed == st.failed && (!failed ==> restored == st.slides)
            && store.objects == Register(old(store.objects), old(store.next), st.created)
            && store.next == old(store.next) + |st.created|
  {
    ghost var n0 := store.next;
    ghost var objects0 := store.objects;
    ghost var created: seq<Bytes> := [];
    restored := [];
    for i := 0 to |slides|
      invariant store.Valid()
      invariant ImportSlides(slides[..i], archive, n0) == Restoring(restored, created, false)
      invariant store.next == n0 + |created|
      invariant store.objects == Register(objects0, n0, created)
    {
      var threw;
      restored, created, threw := RestoreNext(slides, archive, store, i, n0, objects0, restored, created);
      if threw {
        return restored, true;
      }
    }
    assert slides[..|slides|] == slides;
    failed := false;
  }

  /**
   * One pass of the slide loop, stated against the loop's specification:
   * the restored slides and registered bytes grow by slide `i`'s share, or
   * the whole import fails with nothing more registered.
   */
  method RestoreNext(slides: seq<Record>, archive: Archive, store: Store, i: nat,
                     ghost n0: nat, ghost objects0: map<string, Bytes>,
                     restored: seq<Record>, ghost created: seq<Bytes>)
    returns (restored': seq<Record>, ghost created': seq<Bytes>, threw: bool)
    requires i < |slides| && store.Valid()
    requires ImportSlides(slides[..i], archive, n0) == Restoring(restored, created, false)
    requires store.next == n0 + |created| && store.objects == Register(objects0, n0, created)
    modifies store
    ensures store.Valid()
    ensures threw ==> ImportSlides(slides, archive, n0) == Restoring(restored, created, true)
                      && restored' == restored && created' == created
                      && store.objects == old(store.objects) && store.next == old(store.next)
    ensures !threw ==> ImportSlides(slides[..i + 1], archive, n0) == Restoring(restored', created', false)
                       && store.next == n0 + |created'| && store.objects == Register(objects0, n0, created')
  {
    ImportSlidesStep(slides, archive, n0, i);
    ghost var before := store.objects;
    ghost var m := store.next;
    ghost var asset := ImportAsset(slides[i], archive);
    var newSlide;
    newSlide, threw := RestoreSlide(slides[i], archive, store);
    if threw {
      ImportFailurePersists(slides, archive, n0, i + 1);
      return restored, created, true;
    }
    RegisterStep(objects0, n0, created, asset, m, before, store.objects);
    created' := created + asset;
    restored' := restored + [newSlide];
  }

  /**
   * One pass of the slide loop: a truthy non-string image throws; an image
   * path found in the archive is replaced by a fresh handle for its bytes.
   */
  method RestoreSlide(slide: Record, archive: Archive, store: Store) returns (copy: Record, threw: bool)
    requires store.Valid()
    modifies store
    ensures store.Valid()
    ensures threw == !ImageTyped(slide)
    ensures threw ==> store.objects == old(store.objects) && store.next == old(store.next)
    ensures !threw ==>
              copy == ImportCopy(slide, archive, old(store.next))
              && store.objects == Register(old(store.objects), old(store.next), ImportAsset(slide, archive))
              && store.next == old(store.next) + |ImportAsset(slide, archive)|
  {
    copy := slide;
    threw := false;
    var image := Get(slide, "customImage");
    if Truthy(image) {
      if !image.Str? {
        threw := true;
        return;
      }
      if StartsWith(image.s, AssetsFolder) && image.s in archive {
        var url := store.CreateObjectURL(archive[image.s]);
        copy := copy["customImage" := Str(url)];
      }
    }
  }

  lemma ImportSlidesStep(slides: seq<Record>, archive: Archive, n: nat, i: nat)
    requires i < |slides|
    ensures var st := ImportSlides(slides[..i], archive, n);
            var slide := slides[i];
            ImportSlides(slides[..i + 1], archive, n)
            == if st.failed then st
               else if !ImageTyped(slide) then st.(failed := true)
               else Restoring(st.slides + [ImportCopy(slide, archive, n + |st.created|)],
                              st.created + ImportAsset(slide, archive), false)
  {
    assert slides[..i + 1][..i] == slides[..i];
  }

  /** The music step of `importProject`. */
  method RestoreAudio(audio: Option<AudioConfig>, archive: Archive, store: Store) returns (url: Value)
    requires store.Valid()
    modifies store
    ensures store.Valid()
    ensures var created := ImportAudio(audio, archive);
            url == (if created == [] then Null else Str(Handle(old(store.next))))
            && store.objects == Register(old(store.objects), old(store.next), created)
            && store.next == old(store.next) + |created|
  {
    url := Null;
    if audio.Some? && audio.value.path != [] {
      var path := audio.value.path;
      if path in archive {
        var handle := store.CreateObjectURL(archive[path]);
        RegisterSnoc(old(store.objects), old(store.next), [], archive[path]);
        url := Str(handle);
      }
    }
  }

  /** One more batch of registrations extends a registry built from `created`. */
  lemma RegisterStep(objects: map<string, Bytes>, n: nat, created: seq<Bytes>, more: seq<Bytes>,
                     m: nat, before: map<string, Bytes>, after: map<string, Bytes>)
    requires before == Register(objects, n, created) && m == n + |created|
    requires after == Register(before, m, more)
    ensures after == Register(objects, n, created + more)
  {
    RegisterAppend(objects, n, created, more);
  }

  /** Registering after registering is registering the concatenation. */
  lemma {:induction false} RegisterAppend(objects: map<string, Bytes>, n: nat, first: seq<Bytes>, second: seq<Bytes>)
    ensures Register(objects, n, first + second) == Register(Register(objects, n, first), n + |first|, second)
    decreases |first|
  {
    if first != [] {
      assert (first + second)[1..] == first[1..] + second;
      RegisterAppend(objects[Handle(n) := first[0]], n + 1, first[1..], second);
    } else {
      assert first + second == second;
    }
  }

  /**
   * `importProject`: the manifest, then the slide loop, then the music.  The
   * registry gains one fresh handle per restored asset, in order, also when
   * a later slide makes the import throw.
   */
  method ImportProject(libraryAvailable: bool, archive: Archive, parse: Bytes -> Option<ProjectData>, store: Store)
    returns (r: Result<Loaded>)
    requires store.Valid()
    modifies store
    ensures store.Valid()
    ensures var o := ImportSpec(libraryAvailable, archive, parse, old(store.next));
            r == o.result
            && store.objects == Register(old(store.objects), old(store.next), o.created)
            && store.next == old(store.next) + |o.created|
  {
    if !libraryAvailable {
      return Err(LibraryUnavailable);
    }
    if ManifestName !in archive {
      return Err(ManifestMissing);
    }
    var parsed := parse(archive[ManifestName]);
    if parsed.None? {
      return Err(ManifestUnparsable);
    }
    var projectData := parsed.value;
    ghost var n0 := store.next;
    ghost var objects0 := store.objects;
    var restored, failed := RestoreSlides(projectData.slides, archive, store);
    if failed {
      return Err(NotAString);
    }
    ghost var created := ImportSlides(projectData.slides, archive, n0).created;
    var restoredAudioUrl := RestoreAudio(projectData.audio, archive, store);
    RegisterAppend(objects0, n0, created, ImportAudio(projectData.audio, archive));
    r := Ok(Loaded(restored, restoredAudioUrl));
  }

  /* ------------------------------------------------------------ round trip */

  /**
   * The JSON encoding reads back the manifest this deck exports. It is an
   * assumption about one manifest, not about every value: `JSON.stringify`
   * writes NaN as `null` and drops keys whose value is `undefined`, so a
   * deck holding either does not meet it.
   */
  ghost predicate ManifestReadsBack(slides: seq<Record>, audioFileUrl: Value, blobs: map<string, Bytes>, now: nat,
                                    stringify: ProjectData -> Bytes, parse: Bytes -> Option<ProjectData>)
  {
    var b := ExportBundle(true, slides, audioFileUrl, blobs, now);
    b.Ok? ==> parse(stringify(b.value.manifest)) == Some(b.value.manifest)
  }

  /**
   * The decks the round trip is stated for: every image is absent or a
   * string that is not already an archive path.
   */
  predicate ExportableDeck(slides: seq<Record>)
  {
    forall i :: 0 <= i < |slides| ==>
      ImageTyped(slides[i]) && !(CustomImage(slides[i]).Str? && StartsWith(CustomImage(slides[i]).s, AssetsFolder))
  }

  /** Slide ids are distinct strings, as the editor's decimal timestamps are. */
  predicate DistinctIds(slides: seq<Record>)
  {
    (forall i :: 0 <= i < |slides| ==> Get(slides[i], "id").Str?)
    && (forall i, j :: 0 <= i < j < |slides| ==> Get(slides[i], "id") != Get(slides[j], "id"))
  }

  /** Export keeps one copy per slide, in order; only the image field can differ. */
  lemma {:induction false} ExportSlidesShape(slides: seq<Record>, blobs: map<string, Bytes>, now: nat)
    requires forall i :: 0 <= i < |slides| ==> ImageTyped(slides[i])
    ensures ExportSlides(slides, blobs, now).Ok?
    ensures |ExportSlides(slides, blobs, now).value.slides| == |slides|
    ensures forall i :: 0 <= i < |slides| ==>
              ExportSlides(slides, blobs, now).value.slides[i] == ExportCopy(slides[i], blobs, now)
  {
    if slides != [] {
      ExportSlidesShape(slides[..|slides| - 1], blobs, now);
    }
  }

  /** The entry written for an embedded image holds that image's bytes, with no later entry overwriting it. */
  lemma {:induction false} ExportSlidesAsset(slides: seq<Record>, blobs: map<string, Bytes>, now: nat, i: nat)
    requires DistinctIds(slides)
    requires ExportableDeck(slides)
    requires i < |slides| && Embeds(slides[i], blobs)
    ensures ExportSlides(slides, blobs, now).Ok?
    ensures var key := AssetsFolder + ImageFileName(Get(slides[i], "id"), now);
            var assets := ExportSlides(slides, blobs, now).value.assets;
            key in assets && assets[key] == blobs[CustomImage(slides[i]).s]
  {
    ExportSlidesShape(slides, blobs, now);
    var pre := slides[..|slides| - 1];
    var last := slides[|slides| - 1];
    assert ExportableDeck(pre) && DistinctIds(pre);
    ExportSlidesShape(pre, blobs, now);
    var key := AssetsFolder + ImageFileName(Get(slides[i], "id"), now);
    if i < |slides| - 1 {
      ExportSlidesAsset(pre, blobs, now, i);
      if Embeds(last, blobs) {
        var lastKey := AssetsFolder + ImageFileName(Get(last, "id"), now);
        if lastKey == key {
          assert lastKey[|AssetsFolder|..] == ImageFileName(Get(last, "id"), now);
          assert key[|AssetsFolder|..] == ImageFileName(Get(slides[i], "id"), now);
          ImageFileNameInjective(Get(last, "id").s, Get(slides[i], "id").s, now);
          assert false;
        }
      }
    }
  }

  /** With every image typed, the import loop does not throw and keeps the slide count. */
  lemma {:induction false} ImportSlidesOk(slides: seq<Record>, archive: Archive, n: nat)
    requires forall i :: 0 <= i < |slides| ==> ImageTyped(slides[i])
    ensures !ImportSlides(slides, archive, n).failed
    ensures |ImportSlides(slides, archive, n).slides| == |slides|
  {
    if slides != [] {
      ImportSlidesOk(slides[..|slides| - 1], archive, n);
    }
  }

  /**
   * Slide `i` is restored with the handle counter advanced past the assets
   * registered for the slides before it, and a resolved image's bytes are
   * registered at exactly that position.
   */
  lemma {:induction false} ImportSlidesAt(slides: seq<Record>, archive: Archive, n: nat, i: nat)
    requires forall j :: 0 <= j < |slides| ==> ImageTyped(slides[j])
    requires i < |slides|
    ensures var st := ImportSlides(slides, archive, n);
            var c := |ImportSlides(slides[..i], archive, n).created|;
            !st.failed && |st.slides| == |slides|
            && st.slides[i] == ImportCopy(slides[i], archive, n + c)
            && (Resolves(slides[i], archive) ==>
                  c < |st.created| && st.created[c] == archive[CustomImage(slides[i]).s])
  {
    ImportSlidesOk(slides, archive, n);
    ImportSlidesCount(slides[..i], archive, n);
    var q := ImportSlides(slides[..i], archive, n);
    var p := ImportSlides(slides[..i + 1], archive, n);
    ImportSlidesStep(slides, archive, n, i);
    ImportSlidesPrefix(slides, archive, n, i + 1);
    assert ImageTyped(slides[i]) && !p.failed;
    assert !q.failed && |q.slides| == i;
    var asset := ImportAsset(slides[i], archive);
    assert Resolves(slides[i], archive) ==> asset == [archive[CustomImage(slides[i]).s]];
    PrefixStep(ImportSlides(slides, archive, n), p, q,
               ImportCopy(slides[i], archive, n + |q.created|), asset);
  }

  lemma {:induction false} ImportSlidesCount(slides: seq<Record>, archive: Archive, n: nat)
    ensures !ImportSlides(slides, archive, n).failed ==> |ImportSlides(slides, archive, n).slides| == |slides|
  {
    if slides != [] {
      ImportSlidesCount(slides[..|slides| - 1], archive, n);
    }
  }

  /** Slot arithmetic of the import state: what one step appends survives into any extension. */
  lemma PrefixStep(st: Restoring, p: Restoring, q: Restoring, copy: Record, asset: seq<Bytes>)
    requires p.slides == q.slides + [copy] && p.created == q.created + asset
    requires p.slides <= st.slides && p.created <= st.created
    ensures st.slides[|q.slides|] == copy
    ensures |asset| == 1 ==> |q.created| < |st.created| && st.created[|q.created|] == asset[0]
  {
    assert p.slides[|q.slides|] == copy;
    if |asset| == 1 {
      assert p.created[|q.created|] == asset[0];
    }
  }

  /** The state after a prefix of the deck is a prefix of the final state. */
  lemma {:induction false} ImportSlidesPrefix(slides: seq<Record>, archive: Archive, n: nat, j: nat)
    requires j <= |slides|
    requires !ImportSlides(slides, archive, n).failed
    ensures var p := ImportSlides(slides[..j], archive, n);
            var st := ImportSlides(slides, archive, n);
            !p.failed && p.slides <= st.slides && p.created <= st.created
    decreases |slides|
  {
    if j < |slides| {
      var pre := slides[..|slides| - 1];
      assert pre[..j] == slides[..j];
      ImportSlidesPrefix(pre, archive, n, j);
    } else {
      assert slides[..j] == slides;
    }
  }

  /** Export, then import the archive on a registry whose counter is `n`. */
  function RoundTrip(slides: seq<Record>, audioFileUrl: Value, blobs: map<string, Bytes>, now: nat,
                     stringify: ProjectData -> Bytes, parse: Bytes -> Option<ProjectData>, n: nat): ImportOutcome
  {
    match ExportSpec(true, slides, audioFileUrl, blobs, now, stringify)
    case Err(e) => ImportOutcome(Err(e), [])
    case Ok(archive) => ImportSpec(true, archive, parse, n)
  }

  /** An export of an exportable deck succeeds, with the manifest slides its copies. */
  lemma ExportBundleOk(slides: seq<Record>, audioFileUrl: Value, blobs: map<string, Bytes>, now: nat)
    requires ExportableDeck(slides)
    requires !Truthy(audioFileUrl) || audioFileUrl.Str?
    ensures ExportBundle(true, slides, audioFileUrl, blobs, now).Ok?
    ensures var b := ExportBundle(true, slides, audioFileUrl, blobs, now).value;
            |b.manifest.slides| == |slides|
            && (forall j :: 0 <= j < |slides| ==> b.manifest.slides[j] == ExportCopy(slides[j], blobs, now))
            && b.manifest.audio == ExportAudio(audioFileUrl, blobs, now).value.config
            && (b.manifest.audio.Some? <==>
                  audioFileUrl.Str? && StartsWith(audioFileUrl.s, BlobScheme) && audioFileUrl.s in blobs)
            && b.assets == ExportSlides(slides, blobs, now).value.assets
                           + ExportAudio(audioFileUrl, blobs, now).value.assets
  {
    ExportSlidesShape(slides, blobs, now);
  }

  /** The archive entry of an embedded image survives into the exported archive. */
  lemma ExportedImageEntry(slides: seq<Record>, audioFileUrl: Value, blobs: map<string, Bytes>, now: nat,
                           stringify: ProjectData -> Bytes, i: nat)
    requires DistinctIds(slides)
    requires ExportableDeck(slides)
    requires !Truthy(audioFileUrl) || audioFileUrl.Str?
    requires i < |slides| && Embeds(slides[i], blobs)
    ensures var archive := ExportSpec(true, slides, audioFileUrl, blobs, now, stringify);
            var key := AssetsFolder + ImageFileName(Get(slides[i], "id"), now);
            archive.Ok? && key in archive.value && archive.value[key] == blobs[CustomImage(slides[i]).s]
  {
    ExportBundleOk(slides, audioFileUrl, blobs, now);
    ExportSlidesAsset(slides, blobs, now, i);
    EntryNamesDistinct(Get(slides[i], "id"), now);
  }

  /** Importing an exported archive reads back the exported manifest. */
  lemma ImportOfExport(slides: seq<Record>, audioFileUrl: Value, blobs: map<string, Bytes>, now: nat,
                       stringify: ProjectData -> Bytes, parse: Bytes -> Option<ProjectData>, n: nat)
    requires ExportableDeck(slides) && ManifestReadsBack(slides, audioFileUrl, blobs, now, stringify, parse)
    requires !Truthy(audioFileUrl) || audioFileUrl.Str?
    ensures ExportSpec(true, slides, audioFileUrl, blobs, now, stringify).Ok?
    ensures ExportBundle(true, slides, audioFileUrl, blobs, now).Ok?
    ensures RoundTrip(slides, audioFileUrl, blobs, now, stringify, parse, n)
            == ImportData(ExportBundle(true, slides, audioFileUrl, blobs, now).value.manifest,
                          ExportSpec(true, slides, audioFileUrl, blobs, now, stringify).value, n)
  {
    ExportBundleOk(slides, audioFileUrl, blobs, now);
    var b := ExportBundle(true, slides, audioFileUrl, blobs, now).value;
    var archive := ExportSpec(true, slides, audioFileUrl, blobs, now, stringify).value;
    assert archive[ManifestName] == stringify(b.manifest);
  }

  /**
   * Import, slide by slide: every field but the image is kept; an image
   * that resolves comes back as a handle made from a counter at or above
   * `n`, registered with the bytes of its archive entry; any other slide
   * comes back unchanged.
   */
  lemma RestoredSlide(ms: seq<Record>, archive: Archive, n: nat, extra: seq<Bytes>,
                      objects: map<string, Bytes>, i: nat)
    requires forall j :: 0 <= j < |ms| ==> ImageTyped(ms[j])
    requires i < |ms|
    ensures var st := ImportSlides(ms, archive, n);
            var registry := Register(objects, n, st.created + extra);
            !st.failed && |st.slides| == |ms|
            && st.slides[i] - {"customImage"} == ms[i] - {"customImage"}
            && (!Resolves(ms[i], archive) ==> st.slides[i] == ms[i])
            && (Resolves(ms[i], archive) ==>
                  var img := CustomImage(st.slides[i]);
                  img.Str? && HandleNumber(img.s).Some? && HandleNumber(img.s).value >= n
                  && img.s in registry && registry[img.s] == archive[CustomImage(ms[i]).s])
  {
    ImportSlidesAt(ms, archive, n, i);
    var st := ImportSlides(ms, archive, n);
    var c := |ImportSlides(ms[..i], archive, n).created|;
    if Resolves(ms[i], archive) {
      var all := st.created + extra;
      assert c < |all| && all[c] == archive[CustomImage(ms[i]).s];
      RegisterAt(objects, n, all, c);
      HandleNumberOfHandle(n + c);
      assert CustomImage(st.slides[i]) == Str(Handle(n + c));
    }
  }

  /** Importing an exported deck succeeds and gives as many slides as were exported. */
  lemma RoundTripShape(slides: seq<Record>, audioFileUrl: Value, blobs: map<string, Bytes>, now: nat,
                       stringify: ProjectData -> Bytes, parse: Bytes -> Option<ProjectData>, n: nat)
    requires ExportableDeck(slides) && ManifestReadsBack(slides, audioFileUrl, blobs, now, stringify, parse)
    requires !Truthy(audioFileUrl) || audioFileUrl.Str?
    ensures var o := RoundTrip(slides, audioFileUrl, blobs, now, stringify, parse, n);
            o.result.Ok? && |o.result.value.slides| == |slides|
  {
    ExportBundleOk(slides, audioFileUrl, blobs, now);
    ImportOfExport(slides, audioFileUrl, blobs, now, stringify, parse, n);
    var archive := ExportSpec(true, slides, audioFileUrl, blobs, now, stringify).value;
    var ms := ExportBundle(true, slides, audioFileUrl, blobs, now).value.manifest.slides;
    assert forall j :: 0 <= j < |ms| ==> ImageTyped(ms[j]);
    ImportSlidesOk(ms, archive, n);
  }

  /**
   * Round trip, slide by slide: slide `i` keeps every field but the image,
   * and a slide whose image was not packed comes back exactly as it was.
   */
  lemma RoundTripKeepsFields(slides: seq<Record>, audioFileUrl: Value, blobs: map<string, Bytes>, now: nat,
                             stringify: ProjectData -> Bytes, parse: Bytes -> Option<ProjectData>, n: nat, i: nat)
    requires ExportableDeck(slides) && ManifestReadsBack(slides, audioFileUrl, blobs, now, stringify, parse)
    requires !Truthy(audioFileUrl) || audioFileUrl.Str?
    requires i < |slides|
    ensures var o := RoundTrip(slides, audioFileUrl, blobs, now, stringify, parse, n);
            o.result.Ok? && |o.result.value.slides| == |slides|
            && o.result.value.slides[i] - {"customImage"} == slides[i] - {"customImage"}
            && (!Embeds(slides[i], blobs) ==> o.result.value.slides[i] == slides[i])
  {
    ExportBundleOk(slides, audioFileUrl, blobs, now);
    ImportOfExport(slides, audioFileUrl, blobs, now, stringify, parse, n);
    var archive := ExportSpec(true, slides, audioFileUrl, blobs, now, stringify).value;
    var ms := ExportBundle(true, slides, audioFileUrl, blobs, now).value.manifest.slides;
    assert ms[i] == ExportCopy(slides[i], blobs, now);
    assert forall j :: 0 <= j < |ms| ==> ImageTyped(ms[j]);
    RestoredSlide(ms, archive, n, [], map[], i);
    if !Embeds(slides[i], blobs) {
      assert !Resolves(ms[i], archive);
    }
  }

  /** In the exported manifest a packed image names an archive entry holding its bytes. */
  lemma ManifestImageResolves(slides: seq<Record>, audioFileUrl: Value, blobs: map<string, Bytes>, now: nat,
                              stringify: ProjectData -> Bytes, i: nat)
    requires DistinctIds(slides)
    requires ExportableDeck(slides)
    requires !Truthy(audioFileUrl) || audioFileUrl.Str?
    requires i < |slides| && Embeds(slides[i], blobs)
    ensures ExportBundle(true, slides, audioFileUrl, blobs, now).Ok?
    ensures ExportSpec(true, slides, audioFileUrl, blobs, now, stringify).Ok?
    ensures var ms := ExportBundle(true, slides, audioFileUrl, blobs, now).value.manifest.slides;
            var archive := ExportSpec(true, slides, audioFileUrl, blobs, now, stringify).value;
            |ms| == |slides| && (forall j :: 0 <= j < |ms| ==> ImageTyped(ms[j]))
            && Resolves(ms[i], archive)
            && archive[CustomImage(ms[i]).s] == blobs[CustomImage(slides[i]).s]
  {
    ExportBundleOk(slides, audioFileUrl, blobs, now);
    ExportedImageEntry(slides, audioFileUrl, blobs, now, stringify, i);
    var ms := ExportBundle(true, slides, audioFileUrl, blobs, now).value.manifest.slides;
    assert ms[i] == ExportCopy(slides[i], blobs, now);
    var key := AssetsFolder + ImageFileName(Get(slides[i], "id"), now);
    assert CustomImage(ms[i]) == Str(key);
    assert key[..|AssetsFolder|] == AssetsFolder;
  }

  /**
   * Round trip of a packed image: it comes back as a handle made from a
   * counter at or above the registry's counter before the import (so not a
   * handle already registered), and that handle resolves to the same bytes.
   */
  lemma RoundTripImage(slides: seq<Record>, audioFileUrl: Value, blobs: map<string, Bytes>, now: nat,
                       stringify: ProjectData -> Bytes, parse: Bytes -> Option<ProjectData>,
                       objects: map<string, Bytes>, n: nat, i: nat)
    requires DistinctIds(slides)
    requires ExportableDeck(slides) && ManifestReadsBack(slides, audioFileUrl, blobs, now, stringify, parse)
    requires !Truthy(audioFileUrl) || audioFileUrl.Str?
    requires i < |slides| && Embeds(slides[i], blobs)
    ensures var o := RoundTrip(slides, audioFileUrl, blobs, now, stringify, parse, n);
            var registry := Register(objects, n, o.created);
            o.result.Ok? && |o.result.value.slides| == |slides|
            && var img := CustomImage(o.result.value.slides[i]);
               img.Str? && HandleNumber(img.s).Some? && HandleNumber(img.s).value >= n
               && img.s in registry && registry[img.s] == blobs[CustomImage(slides[i]).s]
  {
    ImportOfExport(slides, audioFileUrl, blobs, now, stringify, parse, n);
    ManifestImageResolves(slides, audioFileUrl, blobs, now, stringify, i);
    var archive := ExportSpec(true, slides, audioFileUrl, blobs, now, stringify).value;
    var m := ExportBundle(true, slides, audioFileUrl, blobs, now).value.manifest;
    RestoredSlide(m.slides, archive, n, ImportAudio(m.audio, archive), objects, i);
  }

  /**
   * Import of the music: no music when the manifest names no existing
   * entry; otherwise a handle made from a counter at or above `n`,
   * registered with the bytes of that entry.
   */
  lemma RestoredAudio(data: ProjectData, archive: Archive, n: nat, objects: map<string, Bytes>)
    requires forall j :: 0 <= j < |data.slides| ==> ImageTyped(data.slides[j])
    ensures var o := ImportData(data, archive, n);
            var registry := Register(objects, n, o.created);
            o.result.Ok?
            && (ImportAudio(data.audio, archive) == [] ==> o.result.value.audioUrl == Null)
            && (ImportAudio(data.audio, archive) != [] ==>
                  var url := o.result.value.audioUrl;
                  url.Str? && HandleNumber(url.s).Some? && HandleNumber(url.s).value >= n
                  && url.s in registry && registry[url.s] == archive[data.audio.value.path])
  {
    ImportSlidesOk(data.slides, archive, n);
    var st := ImportSlides(data.slides, archive, n);
    var audio := ImportAudio(data.audio, archive);
    if audio != [] {
      RegisterAt(objects, n, st.created + audio, |st.created|);
      HandleNumberOfHandle(n + |st.created|);
    }
  }

  /** Round trip of music that is not packed: it comes back as `null`. */
  lemma RoundTripAudioAbsent(slides: seq<Record>, audioFileUrl: Value, blobs: map<string, Bytes>, now: nat,
                             stringify: ProjectData -> Bytes, parse: Bytes -> Option<ProjectData>, n: nat)
    requires ExportableDeck(slides) && ManifestReadsBack(slides, audioFileUrl, blobs, now, stringify, parse)
    requires !Truthy(audioFileUrl)
             || (audioFileUrl.Str? && !(StartsWith(audioFileUrl.s, BlobScheme) && audioFileUrl.s in blobs))
    ensures var o := RoundTrip(slides, audioFileUrl, blobs, now, stringify, parse, n);
            o.result.Ok? && o.result.value.audioUrl == Null
  {
    ExportBundleOk(slides, audioFileUrl, blobs, now);
    ImportOfExport(slides, audioFileUrl, blobs, now, stringify, parse, n);
    var archive := ExportSpec(true, slides, audioFileUrl, blobs, now, stringify).value;
    var m := ExportBundle(true, slides, audioFileUrl, blobs, now).value.manifest;
    assert forall j :: 0 <= j < |m.slides| ==> ImageTyped(m.slides[j]);
    assert m.audio == None;
    RestoredAudio(m, archive, n, map[]);
  }

  /** The exported archive holds the packed music under the path the manifest names. */
  lemma ExportedMusicEntry(slides: seq<Record>, audioFileUrl: Value, blobs: map<string, Bytes>, now: nat,
                           stringify: ProjectData -> Bytes)
    requires ExportableDeck(slides)
    requires audioFileUrl.Str? && StartsWith(audioFileUrl.s, BlobScheme) && audioFileUrl.s in blobs
    ensures ExportBundle(true, slides, audioFileUrl, blobs, now).Ok?
    ensures ExportSpec(true, slides, audioFileUrl, blobs, now, stringify).Ok?
    ensures var m := ExportBundle(true, slides, audioFileUrl, blobs, now).value.manifest;
            var archive := ExportSpec(true, slides, audioFileUrl, blobs, now, stringify).value;
            var path := AssetsFolder + MusicFileName(now);
            m.audio == Some(AudioConfig(path, MusicName))
            && path in archive && archive[path] == blobs[audioFileUrl.s]
  {
    ExportBundleOk(slides, audioFileUrl, blobs, now);
    EntryNamesDistinct(Undefined, now);
    var b := ExportBundle(true, slides, audioFileUrl, blobs, now).value;
    var a := ExportAudio(audioFileUrl, blobs, now).value;
    var path := AssetsFolder + MusicFileName(now);
    assert a.assets == map[path := blobs[audioFileUrl.s]];
    assert path in b.assets && b.assets[path] == blobs[audioFileUrl.s];
  }

  /**
   * Round trip of packed music: it comes back as a fresh handle resolving
   * to the same bytes.
   */
  lemma RoundTripAudioPacked(slides: seq<Record>, audioFileUrl: Value, blobs: map<string, Bytes>, now: nat,
                             stringify: ProjectData -> Bytes, parse: Bytes -> Option<ProjectData>,
                             objects: map<string, Bytes>, n: nat)
    requires ExportableDeck(slides) && ManifestReadsBack(slides, audioFileUrl, blobs, now, stringify, parse)
    requires audioFileUrl.Str? && StartsWith(audioFileUrl.s, BlobScheme) && audioFileUrl.s in blobs
    ensures var o := RoundTrip(slides, audioFileUrl, blobs, now, stringify, parse, n);
            var registry := Register(objects, n, o.created);
            o.result.Ok?
            && var url := o.result.value.audioUrl;
               url.Str? && HandleNumber(url.s).Some? && HandleNumber(url.s).value >= n
               && url.s in registry && registry[url.s] == blobs[audioFileUrl.s]
  {
    ExportBundleOk(slides, audioFileUrl, blobs, now);
    ImportOfExport(slides, audioFileUrl, blobs, now, stringify, parse, n);
    ExportedMusicEntry(slides, audioFileUrl, blobs, now, stringify);
    var archive := ExportSpec(true, slides, audioFileUrl, blobs, now, stringify).value;
    var m := ExportBundle(true, slides, audioFileUrl, blobs, now).value.manifest;
    RestoredAudio(m, archive, n, objects);
  }
}
