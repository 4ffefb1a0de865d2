/** The non-widget logic of `MainWindow`: the recording toggle, the
    recording-time label, the transcript held by the text area (without the
    newline Tk keeps after the last line), its character count, the
    placeholder, and the order of the shutdown steps. */
module Window {
  import opened Wrappers
  import opened Text
  import opened TimeFormat
  import opened Recorder
  import opened Files

  /** The text the text area starts with. */
  const Placeholder: string :=
    "音声認識結果がここに表示されます。\n\n"
    + "使い方:\n"
    + "• 「録音開始」ボタンで連続録音・認識\n"
    + "• 「一回認識」ボタンで単発の音声認識\n"
    + "• 認識結果は自動的にここに追加されます\n"
    + "• 「保存」ボタンでテキストファイルとして保存できます"
  /** The text area is treated as showing the placeholder while it contains this. */
  const PlaceholderMarker: string := "音声認識結果がここに表示されます"
  const MicUnavailableMessage: string := "マイクロフォンが利用できません。"
  /** "⏱️ " in front of the elapsed time */
  const TimerIcon: string := "\U{23F1}\U{FE0F} "

  /** The steps `_on_closing` takes, in the order they happen. */
  datatype ShutdownStep = RecordingStopped | RecorderCleanedUp | TempFilesCleanedUp | WindowDestroyed

  // ---------------------------------------------------------------------
  // The recording-time label

  /** The text `_update_recording_time` puts on the time label; `startTime`
      is `None` until the first start, and a start time of 0 counts as unset
      just as a falsy `time.time()` value would. */
  function TimeLabelText(recording: bool, startTime: Option<int>, nowMs: int): string {
    if recording && startTime.Some? && startTime.value != 0
    then TimerIcon + ElapsedText(ElapsedSeconds(startTime.value, nowMs))
    else TimerIcon + IdleElapsed
  }

  /** Idle, the label shows "00:00"; while recording it reads back as the
      minutes and seconds (each at least two digits) that make up the whole
      seconds elapsed since the start. */
  lemma TimeLabelReadsBack(recording: bool, startTime: Option<int>, nowMs: int)
    ensures !recording ==> TimeLabelText(recording, startTime, nowMs) == TimerIcon + "00:00"
    ensures recording && startTime.Some? && startTime.value != 0 && startTime.value <= nowMs ==>
      var r := TimeLabelText(recording, startTime, nowMs)[|TimerIcon|..];
      && |r| >= 5 && r[|r| - 3] == ':'
      && AllDigits(r[..|r| - 3]) && AllDigits(r[|r| - 2..])
      && ParseNat(r[..|r| - 3]) * 60 + ParseNat(r[|r| - 2..]) == (nowMs - startTime.value) / 1000
  {
    if recording && startTime.Some? && startTime.value != 0 && startTime.value <= nowMs {
      var total := ElapsedSeconds(startTime.value, nowMs);
      var e := ElapsedText(total);
      ElapsedRoundTrip(total);
      assert (TimerIcon + e)[|TimerIcon|..] == e;
    }
  }

  /** Right after a start the label shows "00:00", whatever the clock reads. */
  lemma LabelAtStart(nowMs: int)
    ensures TimeLabelText(true, Some(nowMs), nowMs) == TimerIcon + IdleElapsed
  {
    IdleElapsedReadsZero();
  }

  // ---------------------------------------------------------------------
  // Transcript entries

  /** `f"[{timestamp}] {text}"` */
  function EntryLine(stamp: string, text: string): string {
    "[" + stamp + "] " + text
  }

  /** Reads the clock fields and the text back out of an entry line. */
  function ParseEntryLine(line: string): Option<((int, int, int), string)> {
    if |line| >= 11 && line[0] == '[' && line[9] == ']' && line[10] == ' ' then
      match ParseClockText(line[1..9])
      case Some(t) => Some((t, line[11..]))
      case None => None
    else None
  }

  lemma EntryLineReadsBack(d: DateTime, text: string)
    requires ValidDateTime(d)
    ensures ParseEntryLine(EntryLine(ClockText(d), text)) == Some(((d.hour, d.minute, d.second), text))
  {
    var line := EntryLine(ClockText(d), text);
    assert line[1..9] == ClockText(d);
    assert line[11..] == text;
    ClockTextRoundTrip(d);
  }

  /** The transcript after `_add_recognized_text` appends an entry: a newline
      goes first when the stripped transcript is not empty. */
  function AppendEntry(current: string, stamp: string, text: string): string {
    current + (if Strip(current) != [] then "\n" else "") + EntryLine(stamp, text)
  }

  /** The widget's `get("1.0", END)` carries a trailing newline, which the
      strip removes, so testing it decides the separator exactly as testing
      the transcript itself does. */
  lemma AppendEntryReadsWidget(current: string, stamp: string, text: string)
    ensures AppendEntry(current, stamp, text)
      == current + (if Strip(current + "\n") != [] then "\n" else "") + EntryLine(stamp, text)
  {
    StripAppendSpace(current, '\n');
  }

  /** The old transcript is kept as a prefix, the entry ends the new one,
      the character right after the old text is a newline exactly when the
      old text had something besides whitespace, and the result is never
      blank. */
  lemma AppendEntryShape(current: string, stamp: string, text: string)
    ensures var r := AppendEntry(current, stamp, text);
      && |r| > |current| && r[..|current|] == current
      && EndsWith(r, EntryLine(stamp, text))
      && (r[|current|] == '\n' <==> Strip(current) != [])
      && Strip(r) != []
  {
    var r := AppendEntry(current, stamp, text);
    var sep := if Strip(current) != [] then "\n" else "";
    var line := EntryLine(stamp, text);
    assert r == current + sep + line;
    assert r[..|current|] == current;
    assert r[|r| - |line|..] == line;
    assert r[|current| + |sep|] == '[';
    assert !IsSpace(r[|current| + |sep|]);
  }

  // ---------------------------------------------------------------------
  // The placeholder

  /** The placeholder is what the first start or the first single-shot
      recognition clears. */
  lemma PlaceholderIsRecognised()
    ensures Contains(Strip(Placeholder), PlaceholderMarker)
  {
    assert !IsSpace(Placeholder[0]) && !IsSpace(Placeholder[|Placeholder| - 1]);
    StripFixed(Placeholder);
    assert Placeholder[..|PlaceholderMarker|] == PlaceholderMarker;
  }

  /** A recognised phrase that happens to contain the marker makes the next
      start clear the whole transcript, entries and all. */
  lemma MarkerInEntryClearsTranscript(current: string, stamp: string, text: string)
    requires Contains(text, PlaceholderMarker)
    ensures Contains(Strip(AppendEntry(current, stamp, text)), PlaceholderMarker)
  {
    var sep := if Strip(current) != [] then "\n" else "";
    var p := current + sep + "[" + stamp + "] ";
    assert AppendEntry(current, stamp, text) == p + text;
    ContainsAfterPrefix(p, text, PlaceholderMarker);
    ContainsStrip(p + text, PlaceholderMarker);
  }

  /** Whether `_start_recording` gets as far as setting `is_recording`: the
      microphone probe succeeded, and the recorder was idle and opened and
      started its stream without an exception. */
  predicate StartSucceeds(micAvailable: bool, recorderWasRecording: bool,
                          openFailure: Option<string>, startFailure: Option<string>) {
    micAvailable && !recorderWasRecording && openFailure.None? && startFailure.None?
  }

  // ---------------------------------------------------------------------
  // The window

  class MainWindow {
    /** `is_recording` */
    var isRecording: bool
    /** `start_time` in milliseconds; `None` until the first start */
    var startTime: Option<int>
    /** the text area's content */
    var transcript: string
    /** the number on the character-count label */
    var charCount: nat
    /** the time label's text */
    var timeLabel: string
    /** messages shown with `messagebox.showerror` */
    var shownErrors: seq<string>
    /** the shutdown steps taken so far */
    var shutdown: seq<ShutdownStep>
    const recorder: AudioRecorder
    /** the temporary directory `cleanup_temp_files` empties */
    const tempDir: Directory

    /** The window only believes it is recording while the recorder does,
        and a recording always has a start time. */
    ghost predicate Valid()
      reads this, recorder, tempDir
    {
      && recorder.Valid() && tempDir.Valid()
      && (isRecording ==> recorder.isRecording && startTime.Some?)
    }

    /** `__init__`: a fresh recorder with both callbacks set, the placeholder
        in the text area, and the labels at "00:00" and 0. */
    constructor(tempDir: Directory)
      requires tempDir.Valid()
      ensures Valid()
      ensures this.tempDir == tempDir && fresh(recorder)
      ensures !isRecording && startTime == None && transcript == Placeholder && charCount == 0
      ensures timeLabel == TimerIcon + IdleElapsed && shownErrors == [] && shutdown == []
      ensures !recorder.isRecording && recorder.audioDataCallbackSet && recorder.errorCallbackSet
    {
      var r := new AudioRecorder();
      r.SetCallbacks(true, true);
      recorder := r;
      this.tempDir := tempDir;
      isRecording, startTime := false, None;
      transcript, charCount, timeLabel := Placeholder, 0, TimerIcon + IdleElapsed;
      shownErrors, shutdown := [], [];
    }

    /** `_update_recording_time`: sets the label and says whether it runs
        again a second later. */
    method UpdateRecordingTime(nowMs: int) returns (rescheduled: bool)
      modifies this`timeLabel
      ensures timeLabel == TimeLabelText(isRecording, startTime, nowMs)
      ensures rescheduled <==> isRecording && startTime.Some? && startTime.value != 0
    {
      rescheduled := isRecording && startTime.Some? && startTime.value != 0;
      if rescheduled {
        var elapsed := ElapsedSeconds(startTime.value, nowMs);
        timeLabel := TimerIcon + ElapsedText(elapsed);
      } else {
        timeLabel := TimerIcon + IdleElapsed;
      }
    }

    /** `_clear_placeholder_text`: empties the text area when it contains
        the placeholder marker. */
    method ClearPlaceholderText()
      modifies this`transcript
      ensures transcript == if Contains(Strip(old(transcript)), PlaceholderMarker) then "" else old(transcript)
    {
      StripAppendSpace(transcript, '\n');
      if Contains(Strip(transcript + "\n"), PlaceholderMarker) {
        transcript := "";
      }
    }

    /** `_update_char_count`: the length of the stripped transcript. */
    method UpdateCharCount()
      modifies this`charCount
      ensures charCount == |Strip(transcript)|
    {
      StripAppendSpace(transcript, '\n');
      charCount := |Strip(transcript + "\n")|;
    }

    /** `_add_recognized_text`, stamped with the clock reading `now`. */
    method AddRecognizedText(text: string, now: DateTime)
      requires ValidDateTime(now)
      modifies this`transcript, this`charCount
      ensures IsBlank(text) ==> transcript == old(transcript) && charCount == old(charCount)
      ensures !IsBlank(text) ==>
        && transcript == AppendEntry(old(transcript), ClockText(now), text)
        && charCount == |Strip(transcript)|
    {
      if !IsBlank(text) {
        var stamp := ClockText(now);
        var sep := if Strip(transcript + "\n") != [] then "\n" else "";
        AppendEntryReadsWidget(transcript, stamp, text);
        transcript := transcript + sep + EntryLine(stamp, text);
        UpdateCharCount();
      }
    }

    /** `_start_recording`: `micAvailable` is what `is_microphone_available`
        answered, `openFailure`/`startFailure` what the recorder's device
        calls raised, `nowMs` the clock. */
    method StartRecording(micAvailable: bool, openFailure: Option<string>, startFailure: Option<string>, nowMs: int)
      requires Valid()
      modifies this`isRecording, this`startTime, this`transcript, this`timeLabel, this`shownErrors, recorder
      ensures Valid()
      ensures shownErrors == old(shownErrors) + (if micAvailable then [] else [MicUnavailableMessage])
      ensures !micAvailable ==> unchanged(recorder)
      ensures var started := StartSucceeds(micAvailable, old(recorder.isRecording), openFailure, startFailure);
        && isRecording == (started || old(isRecording))
        && startTime == (if started then Some(nowMs) else old(startTime))
        && transcript == (if started && Contains(Strip(old(transcript)), PlaceholderMarker) then "" else old(transcript))
        && timeLabel == (if started then TimerIcon + IdleElapsed else old(timeLabel))
    {
      if !micAvailable {
        shownErrors := shownErrors + [MicUnavailableMessage];
        return;
      }
      ghost var wasRecording := recorder.isRecording;
      var ok := recorder.StartRecording(openFailure, startFailure);
      assert ok <==> !wasRecording && openFailure.None? && startFailure.None?;
      if ok {
        BeginSession(nowMs);
      }
    }

    /** What `_start_recording` does once the recorder has started: set the
        flag, note the start time, clear the placeholder and show "00:00". */
    method BeginSession(nowMs: int)
      modifies this`isRecording, this`startTime, this`transcript, this`timeLabel
      ensures isRecording && startTime == Some(nowMs)
      ensures transcript == if Contains(Strip(old(transcript)), PlaceholderMarker) then "" else old(transcript)
      ensures timeLabel == TimerIcon + IdleElapsed
    {
      isRecording := true;
      startTime := Some(nowMs);
      ClearPlaceholderText();
      LabelAtStart(nowMs);
      var _ := UpdateRecordingTime(nowMs);
    }

    /** `_stop_recording`: always stops the recorder and clears the flag;
        the start time is left as it was. */
    method StopRecording(closeFailure: Option<string>)
      requires Valid()
      modifies this`isRecording, recorder
      ensures Valid()
      ensures !isRecording && !recorder.isRecording
      ensures recorder.terminated == old(recorder.terminated)
    {
      recorder.StopRecording(closeFailure);
      isRecording := false;
    }

    /** `_toggle_recording` */
    method ToggleRecording(micAvailable: bool, openFailure: Option<string>, startFailure: Option<string>,
                           closeFailure: Option<string>, nowMs: int)
      requires Valid()
      modifies this`isRecording, this`startTime, this`transcript, this`timeLabel, this`shownErrors, recorder
      ensures Valid()
      // recording: only the recording is stopped
      ensures old(isRecording) ==>
        && !isRecording && !recorder.isRecording && recorder.terminated == old(recorder.terminated)
        && startTime == old(startTime) && transcript == old(transcript)
        && timeLabel == old(timeLabel) && shownErrors == old(shownErrors)
      // idle: what `StartRecording` does
      ensures !old(isRecording) ==>
        && shownErrors == old(shownErrors) + (if micAvailable then [] else [MicUnavailableMessage])
        && (!micAvailable ==> unchanged(recorder))
        && var started := StartSucceeds(micAvailable, old(recorder.isRecording), openFailure, startFailure);
          && isRecording == started
          && startTime == (if started then Some(nowMs) else old(startTime))
          && transcript == (if started && Contains(Strip(old(transcript)), PlaceholderMarker) then "" else old(transcript))
          && timeLabel == (if started then TimerIcon + IdleElapsed else old(timeLabel))
    {
      if !isRecording {
        StartRecording(micAvailable, openFailure, startFailure, nowMs);
      } else {
        StopRecording(closeFailure);
      }
    }

    /** `_on_closing`: stops a running recording, then cleans up the
        recorder, then the temporary files, then destroys the window.
        `stopFailure` and `cleanupFailure` are what closing the stream raised
        in the two stops; `tempFailures` names the files whose removal raises. */
    method OnClosing(stopFailure: Option<string>, cleanupFailure: Option<string>, tempFailures: set<string>)
      requires Valid()
      modifies this`isRecording, this`shutdown, recorder, tempDir
      ensures Valid()
      ensures shutdown == old(shutdown)
        + (if old(isRecording) then [RecordingStopped] else [])
        + [RecorderCleanedUp, TempFilesCleanedUp, WindowDestroyed]
      ensures !isRecording && !recorder.isRecording && recorder.terminated
      ensures !recorder.streamOpen && recorder.openStreams == 0
      ensures tempDir.entries == if tempDir.present then AfterCleanup(old(tempDir.entries), tempFailures) else old(tempDir.entries)
    {
      if isRecording {
        StopRecording(stopFailure);
        shutdown := shutdown + [RecordingStopped];
      }
      recorder.Cleanup(cleanupFailure);
      shutdown := shutdown + [RecorderCleanedUp];
      CleanupTempFiles(tempDir, tempFailures);
      shutdown := shutdown + [TempFilesCleanedUp];
      shutdown := shutdown + [WindowDestroyed];
    }
  }
}
