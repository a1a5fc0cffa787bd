# Presentación Power: a verified model of the slideshow editor's core

Presentación Power is a browser slideshow editor. A deck is a list of slide records. The editor keeps the list non-empty and keeps a current index into it. Each slide has a title box and a subtitle box, placed on a fixed 1920×1080 virtual canvas. Older decks stored these boxes as 0–100 percentages, and the layout resolver still migrates them. Slides can advance on a timer. A deck can be:

- saved as a project archive, which holds a `project.json` manifest plus `assets/` entries for the images and music;
- exported as a self-contained HTML player or as a PowerPoint deck;
- recorded as a video.

Around the editor sit a local sign-in screen and a light/dark theme switch.

This Dafny project models that core, one module per source file:

| module | source file | form |
|---|---|---|
| `CoordinateSystem` | `src/utils/coordinateSystem.js` | functions and lemmas |
| `PositionManager` | `src/utils/positionManager.js` | functions and lemmas |
| `DraggableText` | `src/components/DraggableText.jsx` | geometry functions; `Handles` class for the two refs |
| `SlideCanvas` | `src/components/SlideCanvas.jsx` | rendering fallbacks as functions; `Scale` class for the observed scale |
| `SlideTimer` | `src/utils/slideTimer.js` | functions and lemmas |
| `AutoAdvance` | `src/hooks/useAutoAdvance.js` | guard function; `Effect` class for the pending timer |
| `App` | `src/App.jsx` | `Editor` class whose methods update the deck state |
| `ProjectManager` | `src/utils/projectManager.js` | export and import loops as methods, proved against functions |
| `ExportMenu` | `src/components/ExportMenu.jsx` | HTML and PPTX loops as methods, mappings as functions |
| `RecorderMenu` | `src/components/RecorderMenu.jsx` | clock functions; `Recorder` class |
| `AuthView` | `src/components/AuthView.jsx` | `AuthForm` class over a user list and session slot |
| `ThemeManager` | `src/utils/themeManager.js` | functions; `ThemeEnv` class for storage and root classes |

Three support modules stand in for the JavaScript runtime and the browser:

- `JsValue` holds JavaScript values and records. It models truthiness, `||` fallback and `Math.round`, where `Math.round(x)` is `(x + 0.5).Floor`.
- `Text` holds decimal printing and parsing, `includes`, `startsWith`, `padStart`, `split` and `replace`.
- `BlobStore` is the object-URL registry. It maps `blob:` handles to bytes, with a counter for fresh handles.

Coordinates, delays and progress are exact `real`s. Timestamps (`Date.now()`) are parameters. Each loop the source runs over slides is a `method` with invariants, proved equal to a function; the properties are proved about those functions.

## Model

| member | source | states |
|---|---|---|
| CoordinateSystem.NormalizePixelPosition | src/utils/coordinateSystem.js:15-20 | result lies on the 1920×1080 canvas, is the input when that is already on it, and on each axis is no farther from the input than any canvas point |
| CoordinateSystem.NormalizeIdempotent | src/utils/coordinateSystem.js:15-20 | normalising twice equals normalising once |
| CoordinateSystem.LegacyToPixels | src/utils/coordinateSystem.js:25-31 | null stays null; otherwise x/1920 and y/1080 equal the percentages over 100 |
| CoordinateSystem.LegacyToPixelsOnCanvas | src/utils/coordinateSystem.js:25-31 | percentages in [0,100] land on the canvas, where normalisation leaves them alone |
| CoordinateSystem.LegacyToPixelsExamples | src/utils/coordinateSystem.js:25-31 | (50,50)↦(960,540), (0,0)↦(0,0), (100,100)↦(1920,1080) |
| CoordinateSystem.GetTextConfiguration | src/utils/coordinateSystem.js:36-61 | every resolved value is truthy; an absent or zero position, width or height each falls back on its own to the role default; a truthy stored one that is not legacy is returned as stored |
| CoordinateSystem.DefaultsWhenAbsent | src/utils/coordinateSystem.js:37-40 | absent or zero position and sizes give title (110,250) 1700×250 and subtitle (110,520) 1700×500 |
| CoordinateSystem.LegacyPositionScaled | src/utils/coordinateSystem.js:45-48 | a stored point with both coordinates ≤ 100 is scaled to x·1920/100, y·1080/100 |
| CoordinateSystem.PixelPositionKept | src/utils/coordinateSystem.js:45-48 | a stored point with x > 100 or y > 100 is returned unchanged |
| CoordinateSystem.SizeMigration | src/utils/coordinateSystem.js:50-54 | a non-zero width ≤ 100 is scaled against 1920 and a height ≤ 100 against 1080; larger values pass through |
| CoordinateSystem.WorkedExample | src/utils/coordinateSystem.js:45-60 | {titlePos:(60,40), titleWidth:70, titleHeight:15} resolves to (1152,432), 1344×162 |
| CoordinateSystem.NoClamping | src/utils/coordinateSystem.js:44-60 | an off-canvas stored position comes back unclamped and off the canvas |
| CoordinateSystem.SmallVirtualPositionMisread | src/utils/coordinateSystem.js:45-48 | a virtual-pixel position (50,80) is read as percentages and moved to (960,864) |
| PositionManager.ValidatePosition | src/utils/positionManager.js:11-21 | a non-point gives (50,50); a point is clamped into [0,100]² (kept when inside, nearest point otherwise) |
| PositionManager.ValidatePositionIdempotent | src/utils/positionManager.js:11-21 | validating a validated position changes nothing |
| PositionManager.ValidateDimension | src/utils/positionManager.js:30-36 | a non-number gives min; a number is clamped into [min,max], kept when inside |
| PositionManager.ValidateDimensionIdempotent | src/utils/positionManager.js:30-36 | validating a validated dimension changes nothing |
| PositionManager.GetTextPosition | src/utils/positionManager.js:44-60 | the result is in [0,100]²; a falsy stored value gives the role default; a truthy one is validated, so a non-point reads as (50,50) |
| PositionManager.GetTextDimensions | src/utils/positionManager.js:68-85 | width in [5,100], height in [2,100]; a truthy stored width or height is clamped into those bounds, a falsy one falls back to the role default |
| PositionManager.CreatePositionUpdate | src/utils/positionManager.js:112-119 | exactly one key `<role>Pos`, holding a point in [0,100]², the input itself when already valid |
| PositionManager.CreateDimensionUpdate | src/utils/positionManager.js:128-141 | exactly `<role>Width` in [5,100] and `<role>Height` in [2,100] |
| PositionManager.PositionUpdateReadBack | src/utils/positionManager.js:112-119 | reading a written position back gives the validated input |
| PositionManager.DimensionUpdateReadBack | src/utils/positionManager.js:128-141 | reading written dimensions back gives the validated inputs |
| DraggableText.PropsWithDefaults | src/components/DraggableText.jsx:8-16 | missing props become (100,350), 1720×150, not in preview |
| DraggableText.CanvasScale | src/components/DraggableText.jsx:27-29 | the scale is positive and scale·1920 is the container width |
| DraggableText.ToVirtual | src/components/DraggableText.jsx:42-46 | the virtual point times the scale is the cursor's offset from the container |
| DraggableText.DragOffset | src/components/DraggableText.jsx:31-34 | the recorded offset times the scale is the cursor's offset inside the box |
| DraggableText.DragInPlace | src/components/DraggableText.jsx:21-49 | a drag that has not moved reports the box's own corner relative to the container |
| DraggableText.DragTranslates | src/components/DraggableText.jsx:37-49 | moving the cursor by d pixels moves the reported corner by d / scale |
| DraggableText.ResizedBox | src/components/DraggableText.jsx:62-93 | left/top handles keep the opposite edge with newX = min(mouse, edge − 40); right/bottom keep the origin with size max(40, mouse − origin); unnamed axes are unchanged |
| DraggableText.RoundBox | src/components/DraggableText.jsx:95-100 | all four values are rounded to the nearest whole number, halves upwards |
| DraggableText.ResizeMinimumAfterRounding | src/components/DraggableText.jsx:78-100 | a resized width or height is still at least 40 after rounding |
| DraggableText.FixedEdgeAfterRounding | src/components/DraggableText.jsx:81-100 | after rounding, the fixed right edge survives only up to one unit, and a half-unit cursor shows the shift |
| DraggableText.LeftHandle | src/components/DraggableText.jsx:81-83 | "left" keeps the right edge and the vertical axis; width ≥ 40 |
| DraggableText.RightHandle | src/components/DraggableText.jsx:84-86 | "right" keeps x and the vertical axis; width ≥ 40 |
| DraggableText.TopHandle | src/components/DraggableText.jsx:88-90 | "top" keeps the bottom edge and the horizontal axis; height ≥ 40 |
| DraggableText.BottomHandle | src/components/DraggableText.jsx:91-93 | "bottom" keeps y and the horizontal axis; height ≥ 40 |
| DraggableText.TopLeftHandle | src/components/DraggableText.jsx:78-93 | a corner handle keeps the opposite corner fixed |
| DraggableText.BottomRightHandle | src/components/DraggableText.jsx:78-93 | the bottom-right handle keeps the top-left corner fixed |
| DraggableText.Handles.constructor | src/components/DraggableText.jsx:18-19 | the offset starts at (0,0) and there is no snapshot |
| DraggableText.Handles.HandleDragStart | src/components/DraggableText.jsx:21-35 | in edit mode, with container and box found, records the grab offset; otherwise nothing changes |
| DraggableText.Handles.HandleDrag | src/components/DraggableText.jsx:37-49 | an update exactly outside preview, with a listener and container; it is the rounded cursor minus the offset, size passed through |
| DraggableText.Handles.HandleResizeStart | src/components/DraggableText.jsx:51-60 | in edit mode, snapshots the box's props |
| DraggableText.Handles.HandleResizing | src/components/DraggableText.jsx:62-101 | an update exactly when editing with a listener, a snapshot and a container; it is the rounded resized snapshot |
| SlideCanvas.IsDarkWords | src/components/SlideCanvas.jsx:21 | dark iff there is a custom image or the background mentions one of black, indigo, blue, slate, gray |
| SlideCanvas.DefaultTextColor | src/components/SlideCanvas.jsx:22 | '#ffffff' exactly on dark slides, '#1e293b' exactly on the others |
| SlideCanvas.TextColor | src/components/SlideCanvas.jsx:116 | the role's colour, else textColor, else the fallback; always truthy |
| SlideCanvas.FontSize | src/components/SlideCanvas.jsx:112 | the stored size, else 80 for the title and 40 for the subtitle |
| SlideCanvas.FontWeight | src/components/SlideCanvas.jsx:117 | the title is bold; the subtitle is bold iff its flag is truthy |
| SlideCanvas.FontStyle | src/components/SlideCanvas.jsx:118 | italic iff the role's italic flag is truthy |
| SlideCanvas.TitleAlwaysBold | src/components/SlideCanvas.jsx:117 | changing titleBold does not change the title's weight |
| SlideCanvas.TextEffect | src/components/SlideCanvas.jsx:51 | the stored animation, else 'none' |
| SlideCanvas.AnimationDuration | src/components/SlideCanvas.jsx:109 | a truthy stored duration is used as it is; 1 second when unset or zero |
| SlideCanvas.TitleDelay | src/components/SlideCanvas.jsx:108 | the stored delay, else 0 |
| SlideCanvas.SubtitleDelay | src/components/SlideCanvas.jsx:163 | half a second after the title's numeric delay |
| SlideCanvas.DelaysWithoutSetting | src/components/SlideCanvas.jsx:108-163 | with no delay stored, the title starts at 0 and the subtitle at 0.5 |
| SlideCanvas.BoxUpdateFields | src/components/SlideCanvas.jsx:96-100 | a box update writes exactly its own position, width and height |
| SlideCanvas.KeysDistinct | src/components/SlideCanvas.jsx:96-155 | the title and subtitle keys are pairwise distinct |
| SlideCanvas.UpdateLeavesOtherBox | src/components/SlideCanvas.jsx:96-155 | updating one box leaves where the other box resolves unchanged |
| SlideCanvas.UpdateReadBack | src/components/SlideCanvas.jsx:31-32 | a box written above 100 units is resolved exactly where it was put |
| SlideCanvas.SmallResizeMisread | src/components/SlideCanvas.jsx:96-100 | a box resized to 80 units high is resolved 864 units high |
| SlideCanvas.Scale.constructor | src/components/SlideCanvas.jsx:35 | the scale starts at 1 |
| SlideCanvas.Scale.UpdateScale | src/components/SlideCanvas.jsx:39-43 | with a container, scale·1920 is its width; without one the scale stays |
| SlideTimer.ValidateDelay | src/utils/slideTimer.js:21-35 | always in [1,300]; 5 for non-numbers, 1 below 1, 300 above 300, the nearest whole number otherwise |
| SlideTimer.ValidateDelayIdempotent | src/utils/slideTimer.js:21-35 | validating a validated delay changes nothing |
| SlideTimer.SecondsToMs | src/utils/slideTimer.js:42-44 | a whole number of seconds, validated, in [1000,300000] |
| SlideTimer.FormatSecondsRoundTrip | src/utils/slideTimer.js:51-66 | "Ns", "Mm" and "Mm Ss" read back as the number of seconds shown |
| SlideTimer.FormatTime | src/utils/slideTimer.js:51-66 | the label ends in 's' or 'm' and mentions minutes exactly when the validated delay is at least 60 seconds |
| SlideTimer.FormatTimeRoundTrip | src/utils/slideTimer.js:51-66 | the label reads back as the validated delay, between 1 and 300 seconds |
| SlideTimer.FormatTimeExamples | src/utils/slideTimer.js:51-66 | 45↦"45s", 120↦"2m", 90↦"1m 30s", 1000↦"5m", 0↦"1s" |
| SlideTimer.GetSlideDelay | src/utils/slideTimer.js:91-97 | 0 without a slide or autoAdvance; otherwise in [1,300], and 5 when the delay is falsy |
| SlideTimer.ReduceIsSum | src/utils/slideTimer.js:78-83 | the fold equals its start plus the sum of the slide delays |
| SlideTimer.SumSlideDelaysBounds | src/utils/slideTimer.js:73-84 | the sum lies in [0, 300·n] |
| SlideTimer.CalculateTotalPresentationTime | src/utils/slideTimer.js:73-84 | the total is never negative and at most 300 seconds per slide |
| SlideTimer.TotalPresentationTime | src/utils/slideTimer.js:73-84 | 0 for a non-array; otherwise the sum of the slide delays, within [0, 300·n] |
| SlideTimer.IsAutoAdvanceEnabled | src/utils/slideTimer.js:104-106 | enabled only with a slide whose autoAdvance is truthy, and never for a numeric autoAdvance such as 1 |
| SlideTimer.EnabledIsStricter | src/utils/slideTimer.js:104-106 | enabled implies a delay ≥ 1, but autoAdvance = 1 is not enabled and still gets a 5-second delay |
| SlideTimer.CalculateProgress | src/utils/slideTimer.js:132-136 | 0 when total ≤ 0; otherwise elapsed/total·100 clamped into [0,100] |
| SlideTimer.ProgressMonotone | src/utils/slideTimer.js:132-136 | progress never decreases as elapsed time grows |
| SlideTimer.GetTimePresets | src/utils/slideTimer.js:112-124 | nine presets, strictly increasing, each a fixed point of delay validation |
| AutoAdvance.ScheduledDelay | src/hooks/useAutoAdvance.js:12-20 | a timer iff playing with a slide at the index whose autoAdvance is truthy; the delay is the validated raw delay in milliseconds |
| AutoAdvance.ZeroDelayDiffers | src/hooks/useAutoAdvance.js:20 | a missing delay waits 5000 ms but a stored 0 waits 1000 ms, though the slide-delay rule says 5 for both |
| AutoAdvance.AgreesWithSlideDelay | src/hooks/useAutoAdvance.js:20 | with a truthy delay the timer equals the slide delay times 1000 |
| AutoAdvance.Effect.constructor | src/hooks/useAutoAdvance.js:10-29 | no timer is pending |
| AutoAdvance.Effect.Run | src/hooks/useAutoAdvance.js:10-29 | the old timer is cancelled and the pending timer is the scheduled delay |
| AutoAdvance.Effect.Unmount | src/hooks/useAutoAdvance.js:28 | no timer remains pending |
| AutoAdvance.Effect.Fire | src/hooks/useAutoAdvance.js:23-25 | a pending timer calls onNext exactly once and is consumed |
| App.WithLayout | src/App.jsx:45-50 | the layout fields read back as written |
| App.DefaultSlideResolves | src/App.jsx:22-52 | the initial slide resolves to the title and subtitle defaults |
| App.NewSlideResolves | src/App.jsx:107-137 | a new slide's percentage layout resolves to (96,378) 1728×129.6 and (192,594) 1536×270 |
| App.FilterOutIndexSpec | src/App.jsx:147 | filtering out an index in range removes exactly that slide, in order; otherwise nothing |
| App.NavigationBounds | src/App.jsx:288-294 | next and prev stay in range, stop at the ends, and prev undoes next |
| App.Editor.constructor | src/App.jsx:22-56 | one default slide, index 0, not previewing or recording, no audio |
| App.Editor.AddSlide | src/App.jsx:107-141 | appends one new slide and increments the index, keeping the deck valid; only the deck and the index may change |
| App.Editor.DeleteSlide | src/App.jsx:143-150 | a one-slide deck is kept; otherwise exactly the indexed slide goes; the index steps back unless at 0; only the deck and the index may change |
| App.Editor.UpdateSlide | src/App.jsx:152-163 | only the current slide changes, its fields overridden by the update; nothing else in the editor changes |
| App.Editor.NextSlide | src/App.jsx:288-290 | the index advances unless at the last slide; nothing else changes |
| App.Editor.PrevSlide | src/App.jsx:292-294 | the index steps back unless at 0; nothing else changes |
| App.Editor.OnAutoAdvance | src/App.jsx:84-94 | advances unless on the last slide, where preview ends and stop-recording is dispatched iff recording; only the index and the preview flag may change |
| App.Editor.CreateNewProject | src/App.jsx:208-244 | one default slide, index 0, no audio, no file handle; preview and recording flags kept |
| App.Editor.HandleImageUpload | src/App.jsx:176-182 | a chosen file gets a fresh handle set as the current slide's image, with the background cleared; only the deck and the registry may change |
| App.Editor.HandleAudioUpload | src/App.jsx:188-194 | an audio file gets a fresh handle as the music; anything else changes nothing; only the music and the registry may change |
| App.Editor.RemoveAudio | src/App.jsx:200-205 | a set music URL is revoked and cleared; otherwise nothing changes; only the music and the registry may change |
| App.Editor.EnterPreview | src/App.jsx:278-281 | preview on, deck and index kept; nothing else changes |
| App.Editor.ExitPreview | src/App.jsx:283-286 | preview off, deck and index kept; nothing else changes |
| App.Editor.HandleKeyDown | src/App.jsx:308-318 | in preview, arrow right or space is next, arrow left is prev, Escape ends preview; otherwise nothing changes; only the index and the preview flag may change |
| BlobStore.Store.Fetch | src/utils/projectManager.js:30-31 | fetching a handle succeeds iff it is registered, giving its bytes |
| BlobStore.Store.CreateObjectURL | src/App.jsx:179 | a fresh, unregistered handle now maps to the bytes |
| BlobStore.Store.RevokeObjectURL | src/App.jsx:202 | the handle is no longer registered; nothing else changes |
| BlobStore.FreshHandle | src/utils/projectManager.js:135 | handles at or past the counter are unregistered |
| ProjectManager.ImageFileNameParts | src/utils/projectManager.js:32 | the name is 'img_', the id as printed, '_', decimal digits that read back as the export time, '.bin' |
| ProjectManager.ImageFileNameInjective | src/utils/projectManager.js:32 | within one export, distinct string ids give distinct image entry names |
| ProjectManager.EntryNamesDistinct | src/utils/projectManager.js:32-64 | image, music and manifest entries never share a name |
| ProjectManager.ExportCopy | src/utils/projectManager.js:26-35 | the copy differs at most in customImage, which becomes the asset path exactly for a fetchable `blob:` image |
| ProjectManager.ExportAudio | src/utils/projectManager.js:43-54 | audio config and music entry exist iff the URL is a fetchable `blob:` handle; a non-string URL throws |
| ProjectManager.PackAudio | src/utils/projectManager.js:43-54 | the music step returns exactly what the music function describes |
| ProjectManager.ExportFailurePersists | src/utils/projectManager.js:25-40 | once a slide throws, the whole export fails with that error |
| ProjectManager.PackSlides | src/utils/projectManager.js:24-40 | the slide loop's result equals the export function over the slides |
| ProjectManager.ExportProject | src/utils/projectManager.js:13-67 | the archive equals the export function: library check, slide loop, audio, manifest |
| ProjectManager.ExportSlidesShape | src/utils/projectManager.js:25-40 | one copy per slide, in order |
| ProjectManager.ExportSlidesAsset | src/utils/projectManager.js:28-34 | with distinct ids, each fetchable image's bytes are stored under its entry |
| ProjectManager.ExportBundleOk | src/utils/projectManager.js:13-64 | manifest slides are the copies in order, audio is set iff a fetchable `blob:` URL, assets are images plus music |
| ProjectManager.ExportedImageEntry | src/utils/projectManager.js:28-34 | the archive holds each embedded image's bytes under its entry name |
| ProjectManager.ExportedMusicEntry | src/utils/projectManager.js:44-50 | the manifest names the music entry, which holds the music's bytes |
| ProjectManager.ImportCopy | src/utils/projectManager.js:129-136 | the copy differs at most in customImage, which becomes a fresh handle exactly when its entry exists |
| ProjectManager.ImportFailurePersists | src/utils/projectManager.js:128-142 | once a manifest slide throws, the import stays failed |
| ProjectManager.RegisterSnoc | src/utils/projectManager.js:135 | registering one more blob extends the registry at the next handle |
| ProjectManager.RestoreSlides | src/utils/projectManager.js:127-142 | the import loop equals the import function, registering exactly its blobs in order |
| ProjectManager.RestoreNext | src/utils/projectManager.js:129-141 | one pass extends the restored slides and registered blobs by that slide's share, or fails the whole import with nothing more registered |
| ProjectManager.RestoreSlide | src/utils/projectManager.js:129-141 | one slide is restored or throws, registering only its own blob |
| ProjectManager.ImportSlidesStep | src/utils/projectManager.js:128-142 | one more manifest slide extends the loop state by its copy and its blob |
| ProjectManager.RestoreAudio | src/utils/projectManager.js:145-156 | the music URL is a fresh handle exactly when the manifest's path has an entry, otherwise null |
| ProjectManager.RegisterAppend | src/utils/projectManager.js:135-151 | registering slide blobs then music blobs equals registering both in one go |
| ProjectManager.ImportProject | src/utils/projectManager.js:113-162 | the result equals the import function, with its blobs registered under fresh handles |
| ProjectManager.ImportSlidesOk | src/utils/projectManager.js:127-142 | well-typed manifest slides restore to a list of the same length |
| ProjectManager.ImportSlidesAt | src/utils/projectManager.js:128-142 | slide i is restored by its own copy rule, and its blob is registered in order |
| ProjectManager.ImportSlidesCount | src/utils/projectManager.js:127-142 | a successful import keeps the number of slides |
| ProjectManager.ImportSlidesPrefix | src/utils/projectManager.js:127-142 | importing a prefix gives a prefix of the slides and the blobs |
| ProjectManager.ImportOfExport | src/utils/projectManager.js:13-162 | when the JSON encoding reads this manifest back, importing the exported archive imports the exported manifest |
| ProjectManager.RestoredSlide | src/utils/projectManager.js:129-141 | a restored slide keeps every other field; a resolved image gets a fresh handle to the entry's bytes |
| ProjectManager.RoundTripShape | src/utils/projectManager.js:25-142 | an export-then-import succeeds with as many slides as went in |
| ProjectManager.RoundTripKeepsFields | src/utils/projectManager.js:25-142 | after the round trip every non-image field is unchanged, and slides without an embedded image are unchanged |
| ProjectManager.ManifestImageResolves | src/utils/projectManager.js:28-34 | each embedded image's manifest path resolves to its bytes in the archive |
| ProjectManager.RoundTripImage | src/utils/projectManager.js:25-142 | an embedded image comes back under a fresh handle holding identical bytes |
| ProjectManager.RestoredAudio | src/utils/projectManager.js:144-161 | the music URL is null without an entry; otherwise a fresh handle holding the entry's bytes |
| ProjectManager.RoundTripAudioAbsent | src/utils/projectManager.js:43-156 | music that was not packed comes back as null |
| ProjectManager.RoundTripAudioPacked | src/utils/projectManager.js:43-156 | packed music comes back under a fresh handle holding identical bytes |
| ExportMenu.DataUrl | src/components/ExportMenu.jsx:284-296 | conversion succeeds iff the URL is a registered handle, giving the encoded bytes |
| ExportMenu.Embedded | src/components/ExportMenu.jsx:27-34 | a data URL when the value is truthy and converts, null otherwise |
| ExportMenu.HtmlSlide | src/components/ExportMenu.jsx:35 | the processed slide differs only in customImage, which is the embedded image or null |
| ExportMenu.ExportToHtml | src/components/ExportMenu.jsx:25-45 | one processed slide per slide, in order, and the audio embedded or null |
| ExportMenu.HtmlImageEmbedded | src/components/ExportMenu.jsx:28-35 | a registered image is replaced by its data URL |
| ExportMenu.LastMatchWins | src/components/ExportMenu.jsx:331-334 | no matching key gives 'FFFFFF'; otherwise the colour of a matching key with no later match |
| ExportMenu.BackgroundColor | src/components/ExportMenu.jsx:331-334 | the forEach loop computes the last-match colour |
| ExportMenu.FillAfterLastMatch | src/components/ExportMenu.jsx:332-334 | when the last key matches, its colour wins |
| ExportMenu.FillAfterUnmatched | src/components/ExportMenu.jsx:332-334 | keys that do not match do not affect the colour |
| ExportMenu.GradientStop | src/App.jsx:25 | the initial background contains 'from-blue-600' |
| ExportMenu.BlueStopFill | src/components/ExportMenu.jsx:316-334 | a background with a 'from-blue-600' stop and none of the later keys is filled '2563EB' |
| ExportMenu.LastKeysAbsent | src/components/ExportMenu.jsx:325-328 | a background without 'p', '7' or '4' matches none of the last three keys |
| ExportMenu.GradientExample | src/components/ExportMenu.jsx:316-334 | the initial gradient maps to '2563EB' |
| ExportMenu.PptxBackground | src/components/ExportMenu.jsx:305-337 | image data, holding exactly the converted data URL, when the image converts; '000000' when it fails; the mapped colour for a string background, a throw otherwise |
| ExportMenu.FontFace | src/components/ExportMenu.jsx:347 | the face contains no comma and no double quote |
| Text.RemoveAllAppend | src/components/ExportMenu.jsx:347 | removing every quote from a concatenation removes them from each part |
| Text.FirstFieldAt | src/components/ExportMenu.jsx:347 | the first field of a text is everything before its first separator |
| ExportMenu.FontFaceQuoted | src/components/ExportMenu.jsx:347 | a quoted family name followed by a comma gives that name, in order, without its quotes |
| ExportMenu.TimesNewRomanFace | src/components/PropertiesPanel.jsx:9 | the stored '"Times New Roman", serif' gives the face 'Times New Roman' |
| ExportMenu.FontFaceChars | src/components/ExportMenu.jsx:347 | apart from quotes, the face has exactly the characters before the first comma |
| ExportMenu.FontFacePlain | src/components/ExportMenu.jsx:347 | a single unquoted family name is used as it is |
| ExportMenu.PptxText | src/components/ExportMenu.jsx:339-359 | colour is the role's, textColor's or '#ffffff' less its first '#'; sizes 80/40; title always truthy bold; subtitle bold and italic follow flags |
| ExportMenu.PptxSlideOf | src/components/ExportMenu.jsx:302-359 | a PPTX slide exactly when background and both texts convert, carrying those parts |
| ExportMenu.ConvertSlide | src/components/ExportMenu.jsx:302-359 | the loop body computes the slide conversion |
| ExportMenu.ExportToPptx | src/components/ExportMenu.jsx:299-361 | a deck exactly when every slide converts, one PPTX slide per slide in order |
| ExportMenu.WhiteSlideDrawnDark | src/components/SlideCanvas.jsx:21-22 | a 'bg-white' slide is drawn with '#1e293b' text |
| ExportMenu.WhiteSlideNotDark | src/components/SlideCanvas.jsx:21 | 'bg-white' is not dark |
| ExportMenu.NoDarkWord | src/components/SlideCanvas.jsx:21 | a background without c, o, u, s, r mentions no dark word |
| ExportMenu.WhiteSlideFill | src/components/ExportMenu.jsx:316-334 | 'bg-white' maps to 'FFFFFF' |
| ExportMenu.WhiteOnWhite | src/components/ExportMenu.jsx:343 | a 'bg-white' slide gets dark text on the canvas but white text on a white PPTX background |
| ExportMenu.WhiteSlideExportText | src/components/ExportMenu.jsx:343 | the 'bg-white' title exports in 'ffffff' |
| RecorderMenu.FormatClock | src/components/RecorderMenu.jsx:80-84 | digits, a colon, then the seconds field, at least five characters |
| RecorderMenu.FormatClockRoundTrip | src/components/RecorderMenu.jsx:80-84 | the clock reads back as the seconds shown |
| RecorderMenu.FormatClockFields | src/components/RecorderMenu.jsx:81-83 | the minutes field is s/60 and the seconds field s mod 60 |
| RecorderMenu.ShowNatBelow100 | src/components/RecorderMenu.jsx:82-83 | seconds below 60 print in at most two digits, so the padded field is exactly two |
| RecorderMenu.RecordingName | src/components/RecorderMenu.jsx:48 | the file name is 'presentacion_power_', then decimal digits that read back as the timestamp, then '.mp4' |
| RecorderMenu.Recorder.constructor | src/components/RecorderMenu.jsx:13-18 | counter 0, no interval, 30 fps, 720p, 2 500 000 bit/s |
| RecorderMenu.Recorder.Stop | src/components/RecorderMenu.jsx:45-56 | saves a returned video, clears the interval, stops recording and zeroes the counter |
| RecorderMenu.Recorder.Toggle | src/components/RecorderMenu.jsx:58-78 | stops when recording; otherwise requests the configured fps and bitrate and, only on success, rewinds to slide 0 in preview and starts counting from 0 |
| RecorderMenu.Recorder.Tick | src/components/RecorderMenu.jsx:73-75 | the counter grows by exactly one while the interval runs |
| RecorderMenu.Recorder.HandleAutoStop | src/components/RecorderMenu.jsx:36-40 | stops only a running recording |
| RecorderMenu.Recorder.SelectHd | src/components/RecorderMenu.jsx:175 | 720p at 2 000 000 bit/s, fps kept |
| RecorderMenu.Recorder.SelectFullHd | src/components/RecorderMenu.jsx:178 | 1080p at 4 000 000 bit/s, fps kept |
| RecorderMenu.Recorder.SelectFps | src/components/RecorderMenu.jsx:187-192 | fps set, quality and bitrate kept |
| RecorderMenu.RecordSession | src/components/RecorderMenu.jsx:58-78 | start, n ticks and stop count n seconds, save one video and leave the counter at 0 |
| AuthView.FindFirst | src/components/AuthView.jsx:43 | the index of the first user satisfying the test, or none when no user does |
| AuthView.FindUnique | src/components/AuthView.jsx:43 | with distinct names, signing in with a stored user's credentials finds that user |
| AuthView.AppendFreshName | src/components/AuthView.jsx:53-58 | appending an untaken name keeps names pairwise distinct |
| AuthView.LoginSucceedsIff | src/components/AuthView.jsx:43-46 | sign-in succeeds iff some stored user has both fields equal |
| AuthView.AuthForm.constructor | src/components/AuthView.jsx:7-13 | sign-in mode, empty fields and error, not loading, and the form invariant holds for a stored list with distinct names |
| AuthView.AuthForm.HandleChange | src/components/AuthView.jsx:28-31 | only the edited field changes, and the error is cleared |
| AuthView.AuthForm.ToggleMode | src/components/AuthView.jsx:232 | switches between signing in and creating an account |
| AuthView.AuthForm.HandleSubmit | src/components/AuthView.jsx:33-66 | sign-in stores and hands over the first match or reports the error; sign-up refuses a taken name or appends one user as session; names stay distinct |
| AuthView.AuthForm.SubmitLogin | src/components/AuthView.jsx:41-50 | the first user with both fields equal becomes session and is handed over, else the error is shown and loading ends |
| AuthView.AuthForm.SubmitRegister | src/components/AuthView.jsx:51-62 | a taken name is refused with the error; otherwise one user with id `now` is appended and becomes the session, names staying distinct |
| AuthView.RegisterThenLogin | src/components/AuthView.jsx:43-61 | after creating an account, signing in with the same form succeeds as the new user |
| ThemeManager.ToggleTheme | src/utils/themeManager.js:47-49 | 'light' becomes 'dark'; anything else becomes 'light' |
| ThemeManager.ToggleTwice | src/utils/themeManager.js:47-49 | toggling twice is the identity on light and dark |
| ThemeManager.GetThemeClasses | src/utils/themeManager.js:56-73 | the dark set exactly for 'dark', the light set for anything else |
| ThemeManager.MutedSwapsSecondary | src/utils/themeManager.js:70-71 | muted and secondary text swap shades between the themes |
| ThemeManager.ThemeEnv.constructor | src/utils/themeManager.js:10-23 | the environment holds the given browser flag, storage, classes and preference |
| ThemeManager.ThemeEnv.GetInitialTheme | src/utils/themeManager.js:10-23 | 'light' outside a browser; else a non-empty stored theme; else 'dark' iff the system prefers it |
| ThemeManager.ThemeEnv.ApplyTheme | src/utils/themeManager.js:29-40 | in a browser, the root has 'dark' iff the theme is 'dark' and the theme is stored; otherwise nothing changes |
| ThemeManager.ApplyThenRead | src/utils/themeManager.js:14-39 | after applying a theme, the initial theme reads it back |
| ThemeManager.ToggleAndApply | src/utils/themeManager.js:29-49 | toggling and applying flips the stored theme and the root's dark class |

## Left out

- Browser APIs are modelled as maps, counters and parameters:
  - `fetch`, `FileReader`, `URL.createObjectURL`/`revokeObjectURL` are the `BlobStore` registry, and a data URL is an `encode` parameter.
  - JSZip compression is the archive map, and `JSON.stringify`/`JSON.parse` are parameters. The round-trip lemmas assume, through `ManifestReadsBack`, only that parsing the serialised manifest of the deck at hand gives that manifest back.
  - `PptxGenJS`, the screen recorder and `localStorage` are parameters or fields.
  - The file pickers, `saveToHandle`, `getNewFileHandle`, `getOpenFileHandle`, `download` and `debugSlidePositions` (which only logs) are not modelled.
- Asynchrony and React scheduling are not modelled: each handler is one atomic step, and `setTimeout`/`setInterval` are a pending-timer field and a `Tick` method. `ResizeObserver`, fullscreen and DOM lookups become inputs, so the `fullscreenchange` listener (src/App.jsx:297-305) is not modelled.
- The HTML player template and its script (src/components/ExportMenu.jsx:47-271) are generated text, and the `icono.ico` fetch is not modelled.
- Every `Date.now()` inside one export or recording reads the same `now`.
- Floating point is not modelled: coordinates, delays and progress are exact reals.
- In loose comparisons a numeric string is treated like a non-number, so `"50" <= 100` is not modelled.
- Not part of this model:
  - src/utils/recorderLogic.js and src/hooks/useBackgroundMusic.js;
  - the animation tables and transitions;
  - PropertiesPanel, ProjectMenu, SlideList, EditorHeader and the modals;
  - the recorder menu's settings popover and click-outside handler;
  - the auth view's particles, its 1.5-second delay (the submit is one step) and the browser's `required` check on the inputs;
  - sign-out, and the `pp_users`/`pp_session` JSON encoding (the user list and session are fields).
- ThemeManager.ThemeEnv.GetInitialTheme: `typeof window` and `typeof document` are folded into one `browser` flag.
- ProjectManager.ImageFileName: a non-integral numeric id prints as "number" rather than as JavaScript's decimal form. The round-trip lemmas about packed images (RoundTripImage, ManifestImageResolves) are stated for distinct string ids.
- ProjectManager.RoundTripKeepsFields: the round trip is stated for decks whose images are absent or are strings that are not already `assets/` paths. An `assets/` string is exported verbatim and may then resolve on import.
- ProjectManager.ImportOfExport: it holds only for a deck whose exported manifest `JSON.parse` reads back unchanged. `JSON.stringify` writes NaN as `null` and drops keys whose value is `undefined`, so a deck holding NaN (an emptied number field of the properties panel) or `undefined` is not covered, and its round trip is not described.
- ProjectManager.RoundTripShape: the same JSON hypothesis as ImportOfExport, so decks holding NaN or `undefined` values are not covered.
- ProjectManager.RoundTripKeepsFields: the same JSON hypothesis as ImportOfExport. A NaN field comes back as `null`, which this lemma does not describe.
- ProjectManager.RoundTripImage: the same JSON hypothesis as ImportOfExport, so decks holding NaN or `undefined` values are not covered. It also requires the slide ids to be distinct strings (`DistinctIds`), so that no two images share an archive entry; the editor makes ids from `Date.now().toString()` (src/App.jsx:110), and a deck with repeated ids is not covered.
- ProjectManager.ManifestImageResolves: requires distinct string ids (`DistinctIds`) for the same reason as RoundTripImage.
- ProjectManager.RoundTripAudioAbsent: the same JSON hypothesis as ImportOfExport, so decks holding NaN or `undefined` values are not covered.
- ProjectManager.RoundTripAudioPacked: the same JSON hypothesis as ImportOfExport, so decks holding NaN or `undefined` values are not covered.
- PositionManager.GetTextPosition: the debug log reads `slide.id.substring(0, 8)` (src/utils/positionManager.js:57), which throws a TypeError when the id is not a string. The model returns the position regardless.
- PositionManager.GetTextDimensions: its debug log (src/utils/positionManager.js:82) throws the same TypeError for a non-string id. The model returns the dimensions regardless.
- ProjectManager.ImportProject: a manifest whose `slides` is not an array is not modelled. The parsed manifest is typed.
- DraggableText.CanvasScale: a container of zero rendered width, which would make the scale 0 and the division infinite, is excluded by `requires`. The same applies to DraggableText.ToVirtual, DraggableText.DragOffset, DraggableText.Handles.HandleDragStart, DraggableText.Handles.HandleDrag and DraggableText.Handles.HandleResizing.
- SlideCanvas.SubtitleDelay: for a truthy stored delay that is not a number the model gives no value. JavaScript still computes something: `true + 0.5` is the number 1.5, which the model drops, and a string or an object is concatenated ("20.5", "[object Object]0.5").
- SlideCanvas.IsDarkWords: a truthy background that is not a string (where `includes` would throw or behave differently) counts as not dark.
- ExportMenu.DataUrl: `fetch` is the object-URL registry, so every URL that the registry does not hold fails to convert. A browser would usually fetch an `assets/…` path kept by import (src/utils/projectManager.js:130-139) or an http(s) URL successfully; for those the model's HTML export writes `null` and its PowerPoint export falls back to the black background.
- ExportMenu.PptxText: the fixed box geometry (`x`, `y`, `w`, `h`, `align`) passed to `addText` is not modelled.
