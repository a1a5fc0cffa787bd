/**
 * The recording menu: the `MM:SS` clock shown while recording, the
 * start/stop toggle that also puts the editor into preview at the first
 * slide, the one-second counter, the automatic stop at the end of the
 * presentation, and the quality and frame-rate settings.  The screen
 * recorder itself is outside the model: whether it started and the video it
 * returns on stopping are parameters.
 */
module RecorderMenu {
  import opened JsValue
  import opened Text
  import opened BlobStore
  import App

  /* ----------------------------------------------------------- the clock */

  /** `formatTime`: minutes and seconds, each padded to two digits. */
  function FormatClock(seconds: nat): (r: string)
    ensures |r| >= 5 && r[|r| - 3] == ':'
    ensures AllDigits(r[..|r| - 3]) && AllDigits(r[|r| - 2..])
  {
    PadStart2(ShowNat(seconds / 60)) + ":" + PadStart2(ShowNat(seconds % 60))
  }

  /** Reads a clock back: digits, a colon, then exactly two digits below 60. */
  function ParseClock(t: string): (r: Option<nat>)
    ensures r.Some? ==> |t| >= 3 && t[|t| - 3] == ':'
  {
    if |t| >= 3 && t[|t| - 3] == ':' && AllDigits(t[..|t| - 3]) && AllDigits(t[|t| - 2..])
       && ParseDigits(t[|t| - 2..]) < 60
    then Some(60 * ParseDigits(t[..|t| - 3]) + ParseDigits(t[|t| - 2..]))
    else None
  }

  /** Numbers below 100 have at most two decimal digits. */
  lemma ShowNatBelow100(n: nat)
    requires n < 100
    ensures |ShowNat(n)| <= 2
  {
    if n >= 10 {
      assert |ShowNat(n / 10)| == 1;
    }
  }

  /** The seconds field is always exactly two digits: the clock reads back as the time shown. */
  lemma FormatClockRoundTrip(seconds: nat)
    ensures ParseClock(FormatClock(seconds)) == Some(seconds)
  {
    var m, s := seconds / 60, seconds % 60;
    var mm, ss := PadStart2(ShowNat(m)), PadStart2(ShowNat(s));
    ShowNatBelow100(s);
    PadStart2Digits(ShowNat(m));
    PadStart2Digits(ShowNat(s));
    ParseShowNat(m);
    ParseShowNat(s);
    var t := mm + ":" + ss;
    assert |ss| == 2;
    assert t[..|t| - 3] == mm;
    assert t[|t| - 2..] == ss;
    assert seconds == 60 * m + s;
  }

  /** The clock is the number of whole minutes, a colon and the seconds left over. */
  lemma FormatClockFields(seconds: nat)
    ensures var r := FormatClock(seconds);
            ParseDigits(r[..|r| - 3]) == seconds / 60 && ParseDigits(r[|r| - 2..]) == seconds % 60
  {
    FormatClockRoundTrip(seconds);
    var r := FormatClock(seconds);
    ParseShowNat(seconds / 60);
    ParseShowNat(seconds % 60);
    PadStart2Digits(ShowNat(seconds / 60));
    PadStart2Digits(ShowNat(seconds % 60));
    ShowNatBelow100(seconds % 60);
    assert r[..|r| - 3] == PadStart2(ShowNat(seconds / 60));
  }

  /* -------------------------------------------------------- the settings */

  datatype Config = Config(fps: int, quality: string, bitrate: int)

  const InitialConfig: Config := Config(30, "720p", 2500000)

  /** What the recorder is asked to capture with. */
  datatype StartRequest = StartRequest(fps: int, videoBitsPerSecond: int)

  /** A saved recording: file name and video. */
  datatype Download = Download(name: string, video: Bytes)

  function RecordingName(now: nat): (name: string)
    ensures StartsWith(name, "presentacion_power_")
    ensures |name| >= 23 && name[|name| - 4..] == ".mp4"
    ensures AllDigits(name[19..|name| - 4]) && ParseDigits(name[19..|name| - 4]) == now
  {
    var digits := ShowNat(now);
    var r := "presentacion_power_" + digits + ".mp4";
    ParseShowNat(now);
    assert r[19..|r| - 4] == digits && r[|r| - 4..] == ".mp4" && r[..19] == "presentacion_power_";
    r
  }

  /**
   * The menu's own state.  The recording flag, the preview flag and the
   * slide index belong to the editor and are changed through it.
   */
  class Recorder {
    var recordingTime: nat
    /** Whether the one-second interval is set. */
    var timerRunning: bool
    var config: Config
    /** The recordings handed to the browser for saving, oldest first. */
    var downloads: seq<Download>

    /** The counter runs exactly while recording, and reads 0 otherwise. */
    ghost predicate Valid(editor: App.Editor)
      reads this, editor
    {
      timerRunning == editor.isRecordingActive && (!timerRunning ==> recordingTime == 0)
    }

    constructor ()
      ensures recordingTime == 0 && !timerRunning && config == InitialConfig && downloads == []
    {
      recordingTime := 0;
      timerRunning := false;
      config := InitialConfig;
      downloads := [];
    }

    /**
     * `stopRecording`: saves the video when the recorder returns one, clears
     * the interval, and resets the flag and the counter.
     */
    method Stop(editor: App.Editor, video: Option<Bytes>, now: nat)
      modifies this, editor`isRecordingActive
      ensures Valid(editor)
      ensures !editor.isRecordingActive && !timerRunning && recordingTime == 0
      ensures config == old(config)
      ensures downloads == old(downloads) + (if video.Some? then [Download(RecordingName(now), video.value)] else [])
    {
      if video.Some? {
        downloads := downloads + [Download(RecordingName(now), video.value)];
      }
      if timerRunning {
        timerRunning := false;
      }
      editor.isRecordingActive := false;
      recordingTime := 0;
    }

    /**
     * `toggleRecording`: stops while recording; otherwise asks the recorder
     * to start with the chosen frame rate and bitrate and, only if it did,
     * rewinds to the first slide, enters preview and starts counting from 0.
     */
    method Toggle(editor: App.Editor, started: bool, video: Option<Bytes>, now: nat)
      returns (request: Option<StartRequest>)
      requires Valid(editor)
      modifies this, editor`isRecordingActive, editor`isPreviewMode, editor`currentSlideIndex
      ensures Valid(editor) && config == old(config)
      ensures old(editor.Valid()) ==> editor.Valid()
      ensures old(editor.isRecordingActive) ==>
                request.None? && !editor.isRecordingActive && recordingTime == 0
                && editor.isPreviewMode == old(editor.isPreviewMode)
                && editor.currentSlideIndex == old(editor.currentSlideIndex)
                && downloads == old(downloads) + (if video.Some? then [Download(RecordingName(now), video.value)] else [])
      ensures !old(editor.isRecordingActive) ==>
                request == Some(StartRequest(config.fps, config.bitrate)) && downloads == old(downloads)
      ensures !old(editor.isRecordingActive) && started ==>
                editor.isRecordingActive && editor.isPreviewMode && editor.currentSlideIndex == 0
                && recordingTime == 0
      ensures !old(editor.isRecordingActive) && !started ==>
                !editor.isRecordingActive && editor.isPreviewMode == old(editor.isPreviewMode)
                && editor.currentSlideIndex == old(editor.currentSlideIndex) && recordingTime == old(recordingTime)
    {
      if editor.isRecordingActive {
        request := None;
        Stop(editor, video, now);
      } else {
        request := Some(StartRequest(config.fps, config.bitrate));
        if started {
          editor.currentSlideIndex := 0;
          editor.isPreviewMode := true;
          editor.isRecordingActive := true;
          recordingTime := 0;
          timerRunning := true;
        }
      }
    }

    /** One firing of the interval: one more second while it is set. */
    method Tick(editor: App.Editor)
      requires Valid(editor)
      modifies this
      ensures Valid(editor) && config == old(config) && downloads == old(downloads)
      ensures timerRunning == old(timerRunning)
      ensures recordingTime == if timerRunning then old(recordingTime) + 1 else old(recordingTime)
    {
      if timerRunning {
        recordingTime := recordingTime + 1;
      }
    }

    /** The stop-recording event stops only a running recording. */
    method HandleAutoStop(editor: App.Editor, video: Option<Bytes>, now: nat)
      requires Valid(editor)
      modifies this, editor`isRecordingActive
      ensures Valid(editor) && config == old(config)
      ensures !editor.isRecordingActive
      ensures !old(editor.isRecordingActive) ==>
                recordingTime == old(recordingTime) && downloads == old(downloads)
      ensures old(editor.isRecordingActive) ==>
                recordingTime == 0
                && downloads == old(downloads) + (if video.Some? then [Download(RecordingName(now), video.value)] else [])
    {
      if editor.isRecordingActive {
        Stop(editor, video, now);
      }
    }

    /** The 720p button: 720p at 2 Mbit/s, frame rate kept. */
    method SelectHd()
      modifies this`config
      ensures config == Config(old(config.fps), "720p", 2000000)
    {
      config := config.(quality := "720p", bitrate := 2000000);
    }

    /** The 1080p button: 1080p at 4 Mbit/s, frame rate kept. */
    method SelectFullHd()
      modifies this`config
      ensures config == Config(old(config.fps), "1080p", 4000000)
    {
      config := config.(quality := "1080p", bitrate := 4000000);
    }

    /** The 30 and 60 FPS buttons: frame rate set, quality and bitrate kept. */
    method SelectFps(fps: int)
      modifies this`config
      ensures config == Config(fps, old(config.quality), old(config.bitrate))
    {
      config := config.(fps := fps);
    }
  }

  /**
   * A full session: starting, `n` seconds, then stopping saves one video
   * and leaves the editor in preview at the first slide with the counter at 0.
   */
  method RecordSession(editor: App.Editor, recorder: Recorder, n: nat, video: Bytes, now: nat)
    returns (elapsed: nat)
    requires recorder.Valid(editor) && !editor.isRecordingActive
    modifies recorder, editor`isRecordingActive, editor`isPreviewMode, editor`currentSlideIndex
    ensures elapsed == n
    ensures recorder.Valid(editor) && !editor.isRecordingActive && recorder.recordingTime == 0
    ensures editor.isPreviewMode && editor.currentSlideIndex == 0
    ensures recorder.downloads == old(recorder.downloads) + [Download(RecordingName(now), video)]
  {
    var _ := recorder.Toggle(editor, true, None, now);
    var i := 0;
    while i < n
      invariant 0 <= i <= n
      invariant recorder.Valid(editor) && editor.isRecordingActive && recorder.recordingTime == i
      invariant editor.isPreviewMode && editor.currentSlideIndex == 0
      invariant recorder.downloads == old(recorder.downloads)
    {
      recorder.Tick(editor);
      i := i + 1;
    }
    elapsed := recorder.recordingTime;
    var _ := recorder.Toggle(editor, false, Some(video), now);
  }
}
