/**
  The voice-note recorder of components/ui/voice-recorder.tsx: recording with
  pause and resume under a one-second timer that is meant to stop the
  recording at maxDuration seconds, the level meter, playback of the recorded
  note, deletion, and the m:ss time label. The media devices are not
  modelled: whether the microphone and the recorder could be opened, the
  recorded blob and its object URL, the analyser's average and the audio
  element's current time are parameters of the events that deliver them.

  The component's closures read React state of the render that created them.
  Two callbacks installed by startRecording therefore see the flags as they
  were before recording began; the `captured` field of a running loop records
  that value. The functions suffixed AsWritten follow those stale reads; the
  unsuffixed ones read the current state, and the Recorder class follows them.
 */
module VoiceRecorder {

  import opened JsValues
  import opened Text

  /** `maxDuration = 300`: five minutes, in seconds. */
  const DefaultMaxDuration: nat := 300

  /**
    A timer or animation-frame loop: cleared, or running with the flag its callback's closure
    captured when it was installed.
   */
  datatype Loop = Cleared | Running(captured: bool)

  datatype RecorderState = RecorderState(
    isRecording: bool,
    isPaused: bool,
    isPlaying: bool,
    recordingTime: nat,
    playbackTime: real,
    audioBlob: Option<string>,
    audioUrl: Option<string>,
    audioLevel: real,
    // mediaRecorderRef.current is set
    hasRecorder: bool,
    // audioRef.current is set
    hasAudio: bool,
    // the one-second recording timer; captured is `isRecording || isPaused` of its render
    timer: Loop,
    // the level meter's animation-frame loop; captured is `isRecording` of its render
    meter: Loop,
    // the playback-time interval
    playbackTimer: bool)

  /** The component as first rendered. */
  const Initial: RecorderState :=
    RecorderState(false, false, false, 0, 0.0, None, None, 0.0, false, false, Cleared, Cleared, false)

  // ---------------------------------------------------------------- recording

  /**
    `startRecording()`: nothing changes when the microphone or the recorder cannot be opened;
    otherwise recording starts from zero seconds with the timer and the meter installed.
   */
  function Start(s: RecorderState, granted: bool): RecorderState {
    if !granted then s
    else s.(hasRecorder := true, isRecording := true, isPaused := false, recordingTime := 0,
            timer := Running(s.isRecording || s.isPaused), meter := Running(s.isRecording))
  }

  /** `pauseRecording()`: the timer is cleared; the recording flag stays set. */
  function Pause(s: RecorderState): RecorderState {
    if s.hasRecorder && s.isRecording then s.(isPaused := true, timer := Cleared) else s
  }

  /** `resumeRecording()`: a fresh timer is installed, in a render where the recorder is paused. */
  function Resume(s: RecorderState): RecorderState {
    if s.hasRecorder && s.isPaused then s.(isPaused := false, timer := Running(s.isRecording || s.isPaused))
    else s
  }

  /**
    What a `stopRecording()` whose guard passed does, together with the recorder's `onstop`
    handler, which delivers the blob and its object URL.
   */
  function Stopped(s: RecorderState, blob: string, url: string): RecorderState {
    s.(isRecording := false, isPaused := false, audioLevel := 0.0, timer := Cleared, meter := Cleared,
       audioBlob := Some(blob), audioUrl := Some(url))
  }

  /** `stopRecording()` as called from the current render. */
  function Stop(s: RecorderState, blob: string, url: string): RecorderState {
    if s.hasRecorder && (s.isRecording || s.isPaused) then Stopped(s, blob, url) else s
  }

  /** One second of the recording timer, stopping the recording once maxDuration is reached. */
  function Tick(s: RecorderState, maxDuration: nat, blob: string, url: string): RecorderState {
    if !s.timer.Running? then s
    else
      var newTime := s.recordingTime + 1;
      (if newTime >= maxDuration then Stop(s, blob, url) else s).(recordingTime := newTime)
  }

  /**
    One second of the recording timer as the source has it: the `stopRecording` the callback calls
    tests the flags its closure captured, not the current ones.
   */
  function TickAsWritten(s: RecorderState, maxDuration: nat, blob: string, url: string): RecorderState {
    if !s.timer.Running? then s
    else
      var newTime := s.recordingTime + 1;
      (if newTime >= maxDuration && s.hasRecorder && s.timer.captured then Stopped(s, blob, url) else s)
        .(recordingTime := newTime)
  }

  /** n seconds of the timer. */
  function Ticks(s: RecorderState, n: nat, maxDuration: nat, blob: string, url: string): RecorderState {
    if n == 0 then s else Tick(Ticks(s, n - 1, maxDuration, blob, url), maxDuration, blob, url)
  }

  function TicksAsWritten(s: RecorderState, n: nat, maxDuration: nat, blob: string, url: string): RecorderState {
    if n == 0 then s else TickAsWritten(TicksAsWritten(s, n - 1, maxDuration, blob, url), maxDuration, blob, url)
  }

  // ---------------------------------------------------------------- level meter

  /** `Math.min(100, (average / 255) * 100)`. */
  function Level(average: real): real {
    if average / 255.0 * 100.0 < 100.0 then average / 255.0 * 100.0 else 100.0
  }

  /** The meter reads the average of the analyser's byte spectrum as a percentage, capped at 100. */
  lemma LevelSpec(average: real)
    ensures 0.0 <= average <= 255.0 ==> Level(average) == average * 100.0 / 255.0
    ensures 0.0 <= average ==> 0.0 <= Level(average) <= 100.0
    ensures Level(average) == 100.0 <==> average >= 255.0
  {
  }

  /** One animation frame of `updateLevel`: a stopped recording ends the loop. */
  function LevelFrame(s: RecorderState, average: real): RecorderState {
    if !s.meter.Running? then s
    else if !s.isRecording then s.(meter := Cleared)
    else s.(audioLevel := Level(average))
  }

  /** One frame of `updateLevel` as the source has it: it tests the recording flag its closure captured. */
  function LevelFrameAsWritten(s: RecorderState, average: real): RecorderState {
    if !s.meter.Running? then s
    else if !s.meter.captured then s.(meter := Cleared)
    else s.(audioLevel := Level(average))
  }

  // ---------------------------------------------------------------- playback and deletion

  /** `playRecording()`: plays the note from the start, if there is one and it is not playing. */
  function Play(s: RecorderState): RecorderState {
    if s.audioUrl.Some? && !s.isPlaying then
      s.(hasAudio := true, isPlaying := true, playbackTime := 0.0, playbackTimer := true)
    else s
  }

  /** The playback interval copies the audio element's current time. */
  function PlaybackTick(s: RecorderState, currentTime: real): RecorderState {
    if s.playbackTimer && s.hasAudio then s.(playbackTime := currentTime) else s
  }

  /** The audio element's `onended`. */
  function PlaybackEnded(s: RecorderState): RecorderState {
    if s.hasAudio then s.(isPlaying := false, playbackTime := 0.0, playbackTimer := false) else s
  }

  /** `pausePlayback()`. */
  function PausePlay(s: RecorderState): RecorderState {
    if s.hasAudio && s.isPlaying then s.(isPlaying := false, playbackTimer := false) else s
  }

  /** `deleteRecording()`: the note and both clocks are cleared. */
  function Delete(s: RecorderState): RecorderState {
    s.(audioBlob := None, audioUrl := None, recordingTime := 0, playbackTime := 0.0, isPlaying := false)
  }

  // ---------------------------------------------------------------- invariant

  /** The recording time the timer can reach: maxDuration, or one second when maxDuration is 0. */
  function Limit(maxDuration: nat): (r: nat)
    ensures r >= 1 && r >= maxDuration
  {
    if maxDuration == 0 then 1 else maxDuration
  }

  /**
    A paused recorder is still recording; only a recording recorder has a recorder object and
    a running meter; the timer runs exactly while recording unpaused; a recording in progress is
    under the limit and no recording ever passes it; the level is a percentage, 0 when not
    recording; the note's blob and URL come and go together; playing needs an audio element
    and keeps the playback interval running.
   */
  predicate Valid(s: RecorderState, maxDuration: nat) {
    && (s.isPaused ==> s.isRecording)
    && (s.isRecording ==> s.hasRecorder && s.recordingTime < Limit(maxDuration))
    && (s.timer.Running? <==> s.isRecording && !s.isPaused)
    && (s.meter.Running? ==> s.isRecording)
    && (!s.isRecording ==> s.audioLevel == 0.0)
    && 0.0 <= s.audioLevel <= 100.0
    && s.recordingTime <= Limit(maxDuration)
    && (s.audioUrl.Some? <==> s.audioBlob.Some?)
    && (s.isPlaying ==> s.hasAudio && s.playbackTimer)
  }

  lemma InitialValid(maxDuration: nat)
    ensures Valid(Initial, maxDuration)
  {
  }

  /** Every event keeps the invariant; the meter's reading is a byte average, never negative. */
  lemma EventsKeepValid(s: RecorderState, maxDuration: nat, granted: bool, blob: string, url: string,
                        average: real, currentTime: real)
    requires Valid(s, maxDuration)
    requires 0.0 <= average
    ensures Valid(Start(s, granted), maxDuration)
    ensures Valid(Pause(s), maxDuration)
    ensures Valid(Resume(s), maxDuration)
    ensures Valid(Stop(s, blob, url), maxDuration)
    ensures Valid(Tick(s, maxDuration, blob, url), maxDuration)
    ensures Valid(LevelFrame(s, average), maxDuration)
    ensures Valid(Play(s), maxDuration)
    ensures Valid(PlaybackTick(s, currentTime), maxDuration)
    ensures Valid(PlaybackEnded(s), maxDuration)
    ensures Valid(PausePlay(s), maxDuration)
    ensures Valid(Delete(s), maxDuration)
  {
    LevelSpec(average);
  }

  /**
    From any idle state, a recording started and left running records for exactly Limit seconds:
    before that it is recording with the timer counting, from then on it is stopped at the limit
    with the note delivered.
   */
  lemma {:induction false} AutoStop(s0: RecorderState, maxDuration: nat, n: nat, blob: string, url: string)
    requires Valid(s0, maxDuration) && !s0.isRecording
    ensures var s := Ticks(Start(s0, true), n, maxDuration, blob, url);
      && (n < Limit(maxDuration) ==>
            s.isRecording && !s.isPaused && s.timer.Running? && s.hasRecorder && s.recordingTime == n)
      && (n >= Limit(maxDuration) ==>
            && !s.isRecording && !s.timer.Running? && s.recordingTime == Limit(maxDuration)
            && s.audioBlob == Some(blob) && s.audioUrl == Some(url))
  {
    if n > 0 {
      AutoStop(s0, maxDuration, n - 1, blob, url);
    }
  }

  /**
    Whatever the events, the timer never passes the limit and the progress bar never passes 100;
    under the source's stale timer neither holds (see NeverStopsAsWritten).
   */
  lemma {:induction false} TicksKeepValid(s: RecorderState, n: nat, maxDuration: nat, blob: string, url: string)
    requires Valid(s, maxDuration)
    ensures Valid(Ticks(s, n, maxDuration, blob, url), maxDuration)
    ensures Ticks(s, n, maxDuration, blob, url).recordingTime <= Limit(maxDuration)
  {
    if n > 0 {
      TicksKeepValid(s, n - 1, maxDuration, blob, url);
      EventsKeepValid(Ticks(s, n - 1, maxDuration, blob, url), maxDuration, true, blob, url, 0.0, 0.0);
    }
  }

  /**
    The source's timer after a plain start never stops the recording: its stopRecording sees
    the flags of the render before recording began, both false. After n seconds the recorder
    is still recording, the clock reads n, and no note has been delivered.
   */
  lemma {:induction false} NeverStopsAsWritten(s0: RecorderState, maxDuration: nat, n: nat, blob: string, url: string)
    requires Valid(s0, maxDuration) && !s0.isRecording
    ensures var s := TicksAsWritten(Start(s0, true), n, maxDuration, blob, url);
      && s.isRecording && !s.isPaused && s.timer == Running(false)
      && s.recordingTime == n && s.audioBlob == s0.audioBlob
  {
    if n > 0 {
      NeverStopsAsWritten(s0, maxDuration, n - 1, blob, url);
    }
  }

  /**
    With the default five minutes: 301 seconds after a plain start the source is still
    recording and its progress bar stands above 100%, where the corrected timer stopped the
    recording at 300 seconds.
   */
  lemma OverrunAsWritten()
    ensures var s := TicksAsWritten(Start(Initial, true), 301, DefaultMaxDuration, "blob", "url");
      && s.isRecording && s.recordingTime == 301
      && RecordingProgress(s.recordingTime, DefaultMaxDuration).value > 100.0
    ensures var s := Ticks(Start(Initial, true), 301, DefaultMaxDuration, "blob", "url");
      && !s.isRecording && s.recordingTime == 300
      && RecordingProgress(s.recordingTime, DefaultMaxDuration).value == 100.0
  {
    InitialValid(DefaultMaxDuration);
    NeverStopsAsWritten(Initial, DefaultMaxDuration, 301, "blob", "url");
    AutoStop(Initial, DefaultMaxDuration, 301, "blob", "url");
  }

  /**
    A pause and a resume re-arm the source's timer with a closure from a paused render, whose
    stopRecording does act: once resumed, the timer stops the recording at the limit.
   */
  lemma ResumedTimerStopsAsWritten(s: RecorderState, maxDuration: nat, blob: string, url: string)
    requires Valid(s, maxDuration) && s.isPaused
    requires s.recordingTime + 1 >= maxDuration
    ensures var t := TickAsWritten(Resume(s), maxDuration, blob, url);
      !t.isRecording && t.audioBlob == Some(blob) && t.recordingTime == s.recordingTime + 1
  {
  }

  /**
    The source's meter never moves: its first frame, run by startRecording itself, sees the
    recording flag of the render before recording began and ends the loop with the level at 0.
   */
  lemma LevelStuckAsWritten(s0: RecorderState, maxDuration: nat, average: real)
    requires Valid(s0, maxDuration) && !s0.isRecording
    ensures var s := LevelFrameAsWritten(Start(s0, true), average);
      s.meter == Cleared && s.audioLevel == 0.0 && s.isRecording
  {
  }

  /** With the current flag, the meter shows the level of every frame while recording, paused included. */
  lemma LevelFrameShowsLevel(s: RecorderState, maxDuration: nat, average: real)
    requires Valid(s, maxDuration) && s.isRecording && s.meter.Running?
    requires 0.0 <= average <= 255.0
    ensures LevelFrame(s, average).audioLevel == average * 100.0 / 255.0
    ensures LevelFrame(s, average).meter.Running?
  {
    LevelSpec(average);
  }

  // ---------------------------------------------------------------- what is shown

  /** `getRecordingProgress()`; None stands for the non-finite quotient when maxDuration is 0. */
  function RecordingProgress(recordingTime: nat, maxDuration: nat): (r: Option<real>)
    ensures r.Some? <==> maxDuration > 0
    ensures r.Some? ==> 0.0 <= r.value
  {
    if maxDuration == 0 then None else Some(recordingTime as real / maxDuration as real * 100.0)
  }

  /** Under the invariant the recording progress bar stays within 0..100. */
  lemma ProgressWithinBar(s: RecorderState, maxDuration: nat)
    requires Valid(s, maxDuration) && maxDuration > 0
    ensures RecordingProgress(s.recordingTime, maxDuration).value <= 100.0
  {
    var t := s.recordingTime as real;
    var m := maxDuration as real;
    assert t <= m;
    assert t / m <= 1.0;
  }

  /** `getPlaybackProgress()`: 0 without an audio element or without a duration. */
  function PlaybackProgress(playbackTime: real, hasAudio: bool, duration: real): real {
    if !hasAudio || duration == 0.0 then 0.0 else playbackTime / duration * 100.0
  }

  lemma PlaybackProgressSpec(playbackTime: real, hasAudio: bool, duration: real)
    requires 0.0 <= playbackTime <= duration
    ensures 0.0 <= PlaybackProgress(playbackTime, hasAudio, duration) <= 100.0
    ensures hasAudio && playbackTime == duration && duration > 0.0 ==>
      PlaybackProgress(playbackTime, hasAudio, duration) == 100.0
  {
    if hasAudio && duration != 0.0 {
      assert playbackTime / duration <= 1.0;
    }
  }

  /** "Start Recording". */
  predicate ShowsStart(s: RecorderState) {
    !s.isRecording && s.audioBlob.None?
  }

  /** "Pause" and "Stop". */
  predicate ShowsPauseStop(s: RecorderState) {
    s.isRecording && !s.isPaused
  }

  /** "Resume" and "Stop". */
  predicate ShowsResumeStop(s: RecorderState) {
    s.isPaused
  }

  /**
    At most one group of recording controls is shown, and when none is, a note is held and its
    playback controls are shown instead.
   */
  lemma ControlsSpec(s: RecorderState, maxDuration: nat)
    requires Valid(s, maxDuration)
    ensures !(ShowsStart(s) && ShowsPauseStop(s))
    ensures !(ShowsStart(s) && ShowsResumeStop(s))
    ensures !(ShowsPauseStop(s) && ShowsResumeStop(s))
    ensures !ShowsStart(s) && !ShowsPauseStop(s) && !ShowsResumeStop(s) <==>
      !s.isRecording && s.audioBlob.Some?
  {
  }

  /** `formatTime(seconds)` for a whole number of seconds: minutes, a colon, two digits of seconds. */
  function FormatTime(seconds: nat): string {
    NatToString(seconds / 60) + ":" + PadStart2(NatToString(seconds % 60))
  }

  /** A number under 100, padded to two places, is two digits that read back as the number. */
  lemma TwoDigits(n: nat)
    requires n < 100
    ensures |PadStart2(NatToString(n))| == 2 && ReadsAs(PadStart2(NatToString(n)), n)
  {
    var p := PadStart2(NatToString(n));
    if n < 10 {
      assert p == ['0', Digit(n)];
      assert p[..1] == ['0'];
      assert ParseDecimal(p[..1]) == 0 by {
        assert p[..1][..0] == [];
      }
    } else {
      assert NatToString(n) == [Digit(n / 10), Digit(n % 10)];
      ParseNatToString(n);
    }
  }

  /** Minutes, a colon and a two-character seconds field split back at the colon. */
  lemma SplitLabel(m: string, p: string)
    requires |p| == 2
    ensures var r := m + ":" + p;
      |r| == |m| + 3 && r[|r| - 3] == ':' && r[..|r| - 3] == m && r[|r| - 2..] == p
  {
  }

  /**
    The label is the minutes in decimal, a colon and two digits of seconds under 60; the two
    parts read back as the whole minutes and the remaining seconds.
   */
  lemma FormatTimeSpec(seconds: nat)
    ensures var r := FormatTime(seconds);
      && |r| >= 4 && r[|r| - 3] == ':'
      && ReadsAs(r[..|r| - 3], seconds / 60)
      && ReadsAs(r[|r| - 2..], seconds % 60)
      && seconds % 60 < 60
  {
    var m := NatToString(seconds / 60);
    var p := PadStart2(NatToString(seconds % 60));
    TwoDigits(seconds % 60);
    ParseNatToString(seconds / 60);
    assert ReadsAs(m, seconds / 60);
    SplitLabel(m, p);
  }

  /** Different durations get different labels. */
  lemma FormatTimeInjective(a: nat, b: nat)
    requires FormatTime(a) == FormatTime(b)
    ensures a == b
  {
    TwoDigits(a % 60);
    TwoDigits(b % 60);
    var pa, pb := PadStart2(NatToString(a % 60)), PadStart2(NatToString(b % 60));
    SplitLabel(NatToString(a / 60), pa);
    SplitLabel(NatToString(b / 60), pb);
    NatToStringInjective(a / 60, b / 60);
    assert a % 60 == b % 60 by {
      assert pa == pb;
    }
    assert a == 60 * (a / 60) + a % 60;
    assert b == 60 * (b / 60) + b % 60;
  }

  // ---------------------------------------------------------------- the component

  /** The component's state, with the corrected timer and meter. */
  class Recorder {
    const maxDuration: nat
    var isRecording: bool
    var isPaused: bool
    var isPlaying: bool
    var recordingTime: nat
    var playbackTime: real
    var audioBlob: Option<string>
    var audioUrl: Option<string>
    var audioLevel: real
    var hasRecorder: bool
    var hasAudio: bool
    var timer: Loop
    var meter: Loop
    var playbackTimer: bool

    function State(): RecorderState
      reads this
    {
      RecorderState(isRecording, isPaused, isPlaying, recordingTime, playbackTime, audioBlob, audioUrl,
                    audioLevel, hasRecorder, hasAudio, timer, meter, playbackTimer)
    }

    constructor (maxDuration: nat)
      ensures this.maxDuration == maxDuration
      ensures State() == Initial && Valid(State(), maxDuration)
    {
      this.maxDuration := maxDuration;
      isRecording, isPaused, isPlaying := false, false, false;
      recordingTime, playbackTime := 0, 0.0;
      audioBlob, audioUrl := None, None;
      audioLevel := 0.0;
      hasRecorder, hasAudio := false, false;
      timer, meter, playbackTimer := Cleared, Cleared, false;
    }

    /** The Start Recording button, shown only when idle and holding no note. */
    method StartRecording(granted: bool)
      requires Valid(State(), maxDuration)
      requires !isRecording && audioBlob.None?
      modifies this
      ensures State() == Start(old(State()), granted) && Valid(State(), maxDuration)
    {
      if granted {
        // the callbacks installed below close over this render's flags
        var active, recording := isRecording || isPaused, isRecording;
        hasRecorder := true;
        isRecording, isPaused, recordingTime := true, false, 0;
        timer := Running(active);
        meter := Running(recording);
      }
    }

    method PauseRecording()
      requires Valid(State(), maxDuration)
      modifies this
      ensures State() == Pause(old(State())) && Valid(State(), maxDuration)
    {
      if hasRecorder && isRecording {
        isPaused := true;
        timer := Cleared;
      }
    }

    method ResumeRecording()
      requires Valid(State(), maxDuration)
      modifies this
      ensures State() == Resume(old(State())) && Valid(State(), maxDuration)
    {
      if hasRecorder && isPaused {
        var active := isRecording || isPaused;
        isPaused := false;
        timer := Running(active);
      }
    }

    /** The Stop button; the recorder's onstop delivers blob and url. */
    method StopRecording(blob: string, url: string)
      requires Valid(State(), maxDuration)
      modifies this
      ensures State() == Stop(old(State()), blob, url) && Valid(State(), maxDuration)
    {
      if hasRecorder && (isRecording || isPaused) {
        isRecording, isPaused := false, false;
        audioLevel := 0.0;
        timer, meter := Cleared, Cleared;
        audioBlob, audioUrl := Some(blob), Some(url);
      }
    }

    /** One second of the recording timer. */
    method OnTimerTick(blob: string, url: string)
      requires Valid(State(), maxDuration)
      modifies this
      ensures State() == Tick(old(State()), maxDuration, blob, url) && Valid(State(), maxDuration)
    {
      if timer.Running? {
        var newTime := recordingTime + 1;
        if newTime >= maxDuration {
          StopRecording(blob, url);
        }
        recordingTime := newTime;
      }
    }

    /** One animation frame of the level meter, given the analyser's average. */
    method OnLevelFrame(average: real)
      requires Valid(State(), maxDuration) && 0.0 <= average
      modifies this
      ensures State() == LevelFrame(old(State()), average) && Valid(State(), maxDuration)
    {
      LevelSpec(average);
      // a running meter means a recording in progress, so the frame always shows the level
      if meter.Running? {
        audioLevel := Level(average);
      }
    }

    method PlayRecording()
      requires Valid(State(), maxDuration)
      modifies this
      ensures State() == Play(old(State())) && Valid(State(), maxDuration)
    {
      if audioUrl.Some? && !isPlaying {
        hasAudio := true;
        isPlaying, playbackTime := true, 0.0;
        playbackTimer := true;
      }
    }

    method OnPlaybackTick(currentTime: real)
      requires Valid(State(), maxDuration)
      modifies this
      ensures State() == PlaybackTick(old(State()), currentTime) && Valid(State(), maxDuration)
    {
      if playbackTimer && hasAudio {
        playbackTime := currentTime;
      }
    }

    method OnPlaybackEnded()
      requires Valid(State(), maxDuration)
      modifies this
      ensures State() == PlaybackEnded(old(State())) && Valid(State(), maxDuration)
    {
      if hasAudio {
        isPlaying, playbackTime := false, 0.0;
        playbackTimer := false;
      }
    }

    method PausePlayback()
      requires Valid(State(), maxDuration)
      modifies this
      ensures State() == PausePlay(old(State())) && Valid(State(), maxDuration)
    {
      if hasAudio && isPlaying {
        isPlaying := false;
        playbackTimer := false;
      }
    }

    method DeleteRecording()
      requires Valid(State(), maxDuration)
      modifies this
      ensures State() == Delete(old(State())) && Valid(State(), maxDuration)
    {
      audioBlob, audioUrl := None, None;
      recordingTime, playbackTime := 0, 0.0;
      isPlaying := false;
    }
  }
}
