# Speech recognition app: a Dafny model of its core logic

The application is a Tkinter desktop program that records from the
microphone with PyAudio, cuts the stream into segments, and sends each
segment to Google speech recognition through the SpeechRecognition library.
Recognised phrases are appended to a transcript, stamped with the time of
day. The transcript can be saved to a text file. This project models the
sequential logic inside that glue and proves properties about it:

- **Frame aggregator** (`aggregator.dfy`). This is the `_process_audio_data`
  loop of `AudioRecorder`. Frames taken from the queue are appended to a
  buffer. A boundary is reached when 5 seconds (`PHRASE_TIME_LIMIT`) have
  passed since the last one, or when 50 frames are buffered. At a boundary
  the buffer is joined and handed to `on_audio_data`, then emptied, and the
  timer restarts. The model has:
  - a pure specification: `Advance` for one frame, `Run` for a trace of
    queue items;
  - a `ChunkAggregator` class whose `Step` method is proved against
    `Advance`;
  - the loop itself as `ProcessAudioData`, proved against `Run`.
- **Recorder** (`recorder.dfy`). The `AudioRecorder` class holds the
  recording flag, the stream, the queue and the reported errors. Its
  `start_recording`, `stop_recording`, `_audio_callback`,
  `get_input_devices` and `cleanup` become methods. Each PyAudio call that
  can raise becomes an input carrying the exception message.
- **Recognizer** (`recognizer.dfy`). This covers how each of the two
  recognition paths maps the ending of an attempt to callbacks: the
  recognised text, a timeout, an unrecognisable phrase, a service error or
  any other exception. The `SpeechRecognizer` class holds the language, the
  energy threshold and the callbacks.
- **File handler** (`files.dfy`). A directory is a list of entries with
  modification times. The model covers:
  - the blank-content guards;
  - the `<prefix>_<YYYYMMDD_HHMMSS>.txt` names;
  - the interactive and automatic saves, and loading;
  - the `.txt` listing, newest first;
  - the temporary-file clean-up, which removes regular files only.
- **Main window** (`window.dfy`). The `MainWindow` class holds:
  - the recording toggle;
  - the recording-time label (`MM:SS`);
  - the transcript as a string, with its `[HH:MM:SS] text` entries, the
    character count and the placeholder;
  - the order of the shutdown steps.

`text.dfy` and `timefmt.dfy` supply the string operations Python provides.
`text.dfy` has `str.strip` with Python's whitespace set, `in`, `endswith`
and `{n:02d}` padding. `timefmt.dfy` has the three clock renderings, each
with a parser that reads it back.

One behaviour is stated as the source has it. `start_recording` sets
`is_recording` before `start_stream`, so a `start_stream` failure leaves the
recorder recording while the window stays idle. From then on every start
from the window is refused until the recorder is stopped. `Window.StartSucceeds`
makes this explicit: it requires the recorder to have been idle.

## Model

| member | source | states |
|---|---|---|
| Text.Strip | src/gui/main_window.py:300 | `str.strip()` is empty exactly when every character is Python whitespace; otherwise it starts and ends with non-whitespace |
| Text.StripIdempotent | src/utils/file_handler.py:26 | stripping text that `_save_file` already stripped changes nothing |
| Text.StripAppendSpace | src/gui/main_window.py:289 | the trailing newline of `get("1.0", END)` never changes the stripped text |
| Text.ContainsAt | src/gui/main_window.py:290 | `sub in s` holds exactly when `sub` occurs at some position of `s` |
| Text.ContainsStrip | src/gui/main_window.py:289-290 | stripping keeps every occurrence of a substring that starts and ends with non-whitespace |
| Text.ContainsAfterPrefix | src/gui/main_window.py:290 | text put in front never removes an occurrence |
| Text.FormatInt | src/gui/main_window.py:280 | `{n:0Wd}` is W characters wide, or as wide as the sign and the digits need when that is more, a non-negative `n` gives only digits and a negative one a '-' followed by digits, and `int()` of it gives back `n`, for negative numbers too |
| Text.ParseZeroPad | src/gui/main_window.py:280 | zero padding never changes the value the digits denote |
| Text.PadWidth | src/utils/file_handler.py:74 | a number below 10^k padded to k digits is exactly k characters long |
| TimeFormat.ClockText | src/gui/main_window.py:298 | `%H:%M:%S` is eight characters with colons at positions 2 and 5 |
| TimeFormat.ClockTextRoundTrip | src/gui/main_window.py:298 | the hour, minute and second read back from the `%H:%M:%S` stamp |
| TimeFormat.FileStamp | src/utils/file_handler.py:74 | `%Y%m%d_%H%M%S` is 15 characters: eight digits, `_`, six digits |
| TimeFormat.FileStampRoundTrip | src/utils/file_handler.py:74 | the file stamp reads back as the moment it was taken |
| TimeFormat.FileStampInjective | src/utils/file_handler.py:74-75 | different moments (to the second) never give the same stamp |
| TimeFormat.ElapsedSecondsField | src/gui/main_window.py:277-280 | the seconds field is always two digits in 00..59, even for a negative elapsed time |
| TimeFormat.ElapsedRoundTrip | src/gui/main_window.py:277-280 | for a non-negative elapsed time, minutes times 60 plus seconds, as displayed, is the elapsed whole seconds |
| TimeFormat.IdleElapsedReadsZero | src/gui/main_window.py:280-285 | zero elapsed seconds show the same "00:00" as the idle label |
| Aggregator.JoinAppend | src/audio/recorder.py:117 | `b''.join` of a concatenation is the concatenation of the joins |
| Aggregator.JoinEachFlatten | src/audio/recorder.py:117 | joining each buffer and then the results gives the bytes of all frames in order |
| Aggregator.Advance | src/audio/recorder.py:109-121 | one frame is appended; a boundary is reached exactly when 5000 ms have passed or 50 frames are buffered; a boundary takes out the whole buffer and restarts the timer; otherwise the timer is kept; the buffer stays under 50 frames |
| Aggregator.Delivered | src/audio/recorder.py:116-118 | `on_audio_data` is called exactly at a boundary while a consumer is registered |
| Aggregator.RunHaltsOnFailure | src/audio/recorder.py:126-129 | the loop ends on an exception exactly when the queue raised one |
| Aggregator.ConsumeConserves | src/audio/recorder.py:108-121 | one pass of the loop adds the frame it took, and nothing else, to the flushed buffers plus the current buffer |
| Aggregator.RunConservesFrames | src/audio/recorder.py:105-121 | the flushed buffers followed by the current buffer are exactly the frames taken, with nothing lost, duplicated or reordered |
| Aggregator.RunBounded | src/audio/recorder.py:113-121 | between passes the buffer holds at most 49 frames; every flushed buffer held 1 to 50 frames |
| Aggregator.RunEmits | src/audio/recorder.py:116-118 | with a consumer, every flushed buffer is delivered joined and in order; without one, nothing is delivered |
| Aggregator.FrameConservation | src/audio/recorder.py:109-118 | with a consumer, the delivered bytes followed by the buffered bytes are all the bytes taken from the queue |
| Aggregator.DroppedWithoutConsumer | src/audio/recorder.py:116-121 | without a consumer, boundaries still empty the buffer and restart the timer, so those frames are lost |
| Aggregator.RunIgnoresConsumer | src/audio/recorder.py:116-121 | whether a consumer is registered never changes the buffer, the timer, the boundaries or the exit |
| Aggregator.RunStopsAtFailure | src/audio/recorder.py:126-129 | after the loop breaks on an exception, later queue items make no difference |
| Aggregator.RunUpToExit | src/audio/recorder.py:105-129 | a run cut off where the loop exited equals the full run |
| Aggregator.TimeoutChangesNothing | src/audio/recorder.py:123-125 | a `queue.Empty` timeout changes nothing and never triggers a hand-off |
| Aggregator.FlushKeepsConsistent | src/audio/recorder.py:116-121 | a hand-off keeps the invariant: the flushed buffers plus the buffer are all frames received, and the buffer stays under the limit |
| Aggregator.PushKeepsConsistent | src/audio/recorder.py:109-114 | buffering a frame below the limit keeps the same invariant |
| Aggregator.RunFromEmpty | src/audio/recorder.py:102-121 | a loop started with an empty buffer keeps fewer than 50 frames, conserves frames with a consumer, and delivers nothing without one |
| Aggregator.ChunkAggregator.constructor | src/audio/recorder.py:102-103 | the buffer starts empty and the timer starts at the start time |
| Aggregator.ChunkAggregator.Step | src/audio/recorder.py:108-121 | the new state is `Advance` of the old; the frame is recorded as received; a segment is returned exactly at a boundary with a consumer, and it is the joined buffer |
| Aggregator.TakeItem | src/audio/recorder.py:106-129 | one pass of the loop body moves the aggregator and the outputs exactly as `Consume` does |
| Aggregator.ProcessAudioData | src/audio/recorder.py:100-129 | the segments, the abandoned buffer and the reported error are those of `Run`; the buffer is under 50 frames; frames are conserved with a consumer; nothing is emitted without one |
| Recorder.Report | src/audio/recorder.py:70-71 | a message reaches `on_error` exactly when the callback is set |
| Recorder.Truncate | src/audio/recorder.py:157 | Python's `int()` on a float truncates toward zero |
| Recorder.ScanEnd | src/audio/recorder.py:151-152 | the index of the first device query that raised, or the device count |
| Recorder.DeviceScanExact | src/audio/recorder.py:150-161 | the list holds exactly the devices with `maxInputChannels > 0` before the first failing query, in ascending index order, each with its name and truncated rate; a failure is reported exactly when a query raised, with its message |
| Recorder.DeviceScanFault | src/audio/recorder.py:159-161 | a failure is reported exactly when a query raised, with the first one's message |
| Recorder.DeviceScanSound | src/audio/recorder.py:153-158 | every listed device is an input device queried before the failure, with its own name and rate, in index order |
| Recorder.DeviceScanComplete | src/audio/recorder.py:151-158 | every input device queried before the failure is listed |
| Recorder.CollectInputDevices | src/audio/recorder.py:149-158 | the loop computes the scan: nothing when the device count raised; otherwise every device is an input device |
| Recorder.ScanStopsAtFault | src/audio/recorder.py:150-159 | once a query has raised, the rest of the devices are never looked at |
| Recorder.AudioRecorder.constructor | src/audio/recorder.py:15-30 | the recorder starts idle, without a stream, with an empty queue and no callbacks |
| Recorder.AudioRecorder.SetCallbacks | src/audio/recorder.py:32-41 | the callbacks are replaced and nothing else changes |
| Recorder.AudioRecorder.StartRecording | src/audio/recorder.py:43-72 | if already recording, returns False with nothing changed; if the open raises, returns False, stays idle and reports one start error; otherwise the flag is set before `start_stream`, so it stays set when that raises; success also starts one processing thread |
| Recorder.AudioRecorder.StopRecording | src/audio/recorder.py:74-89 | nothing happens when idle; otherwise the flag is cleared and the stream is closed, or a stop error is reported and the stream stays |
| Recorder.AudioRecorder.AudioCallback | src/audio/recorder.py:91-98 | the frame is queued only while recording; the data and "continue" are always returned |
| Recorder.AudioRecorder.GetInputDevices | src/audio/recorder.py:147-163 | returns the scanned devices, or nothing when the device count raised; reports a device error exactly when something raised and the callback is set |
| Recorder.AudioRecorder.Cleanup | src/audio/recorder.py:165-169 | stops the recording as `StopRecording` does, reporting only a stop that raised, then terminates PyAudio, which closes every stream: the recorder ends idle and terminated with no stream open; the enqueued frames, the threads and the callbacks are untouched |
| Recognizer.SingleShotReport | src/audio/recognizer.py:77-91 | a result exactly for recognised text, passed on unchanged; every other ending becomes an error message |
| Recognizer.ContinuousReport | src/audio/recognizer.py:128-139 | no report exactly for an unrecognisable phrase; a result exactly for recognised text |
| Recognizer.PathsCompared | src/audio/recognizer.py:131-139 | the paths agree on results and service errors; an unrecognisable phrase is an error on one path and nothing on the other; other failures get different prefixes |
| Recognizer.SingleShotReadsBack | src/audio/recognizer.py:80-91 | the single-shot messages never collide: the kind of ending and the service's or exception's own text can be read back from the report |
| Recognizer.Deliver | src/audio/recognizer.py:77-91 | at most one callback fires, and one fires exactly when the callback for that kind of report is set |
| Recognizer.SingleShotEventsShape | src/audio/recognizer.py:58-91 | `on_listening` fires first exactly when set; at most one more callback follows; recognised text is passed on unchanged; no callbacks set means no events |
| Recognizer.ContinuousEventsShape | src/audio/recognizer.py:106-139 | at most one callback, never `on_listening`, nothing for an unrecognisable phrase, recognised text passed on unchanged |
| Recognizer.SpeechRecognizer.constructor | src/audio/recognizer.py:15-39 | the language is 'ja-JP'; the microphone is usable unless creating it raised; no callbacks are set yet, so an initialisation failure is never reported |
| Recognizer.SpeechRecognizer.SetCallbacks | src/audio/recognizer.py:41-52 | the three callbacks are replaced |
| Recognizer.SpeechRecognizer.SetLanguage | src/audio/recognizer.py:146-153 | later attempts use the new language tag |
| Recognizer.SpeechRecognizer.GetEnergyThreshold | src/audio/recognizer.py:170-172 | returns the current threshold, whether it was last set by hand, by a calibration or by `listen` |
| Recognizer.SpeechRecognizer.SetEnergyThreshold | src/audio/recognizer.py:174-181 | the threshold becomes the given value |
| Recognizer.SpeechRecognizer.TestMicrophone | src/audio/recognizer.py:155-168 | succeeds exactly when the microphone exists and calibration does not raise; with a microphone the calibration rewrites the threshold, without one it is untouched |
| Recognizer.SpeechRecognizer.RecognizeFromMicrophoneOnce | src/audio/recognizer.py:54-96 | the events are the single-shot events of the ending; a missing microphone ends the attempt in the generic branch and leaves the threshold alone; otherwise the threshold is what `listen` left; the current language is used |
| Recognizer.SpeechRecognizer.RecognizeFromAudioData | src/audio/recognizer.py:98-144 | the events are the continuous-path events of the ending; the current language is used |
| Files.StampedName | src/utils/file_handler.py:74-75 | `<prefix>_<stamp>.txt` is 20 characters longer than the prefix and ends in ".txt" |
| Files.StampedNameRoundTrip | src/utils/file_handler.py:74-75 | the moment of the save reads back from the name |
| Files.StampedNamesCollide | src/utils/file_handler.py:74-75 | two names with the same prefix collide exactly when they were made in the same second |
| Files.DefaultSaveNameReadsBack | src/utils/file_handler.py:31-32 | the suggested name carries the moment of the save and ends in ".txt" |
| Files.Lookup | src/utils/file_handler.py:107 | the entry found has the name looked up; no entry means no entry has that name |
| Files.NewlinesFolded | src/utils/file_handler.py:107-108 | text-mode reading leaves no `\r`, never lengthens the text, and leaves text without `\r` unchanged |
| Files.WriteThenRead | src/utils/file_handler.py:47-48 | after a write, reading the name in text mode gives what was written with `\r\n` and a lone `\r` read as `\n` (exactly what was written when it holds no `\r`), and every other name reads as before |
| Files.WriteKeepsEntries | src/utils/file_handler.py:47-48 | a write adds the file and keeps every entry with another name |
| Files.WriteKeepsDistinct | src/utils/file_handler.py:47-48 | a write never creates a second entry with the same name |
| Files.TextEntries | src/utils/file_handler.py:128-131 | every entry kept ends in ".txt" |
| Files.TextEntriesExact | src/utils/file_handler.py:128-131 | the filter keeps exactly the entries whose names end in ".txt" |
| Files.InsertByMtime | src/utils/file_handler.py:133 | inserting adds exactly one entry to the same multiset |
| Files.InsertKeepsOrder | src/utils/file_handler.py:133 | inserting into a newest-first list keeps it newest first |
| Files.SortNewestFirstCorrect | src/utils/file_handler.py:133 | the sort is newest first and a permutation of its input |
| Files.ListingExact | src/utils/file_handler.py:124-133 | the listing is sorted newest first and holds exactly the ".txt" entries; every path ends in ".txt" |
| Files.ListingPathsAreText | src/utils/file_handler.py:129-131 | a path built from a ".txt" name ends in ".txt" |
| Files.SavedFileListed | src/utils/file_handler.py:128-133 | a file saved under a ".txt" name appears in the next listing |
| Files.FirstFailure | src/utils/file_handler.py:144-149 | the position of the first regular file whose removal raises, where the loop stops |
| Files.NonFiles | src/utils/file_handler.py:146 | no regular file is kept |
| Files.NonFilesExact | src/utils/file_handler.py:146-147 | exactly the entries that are not regular files are kept |
| Files.CleanupKeepsNonFiles | src/utils/file_handler.py:143-147 | only regular files are removed; with no failures, no regular file is left |
| Files.RemoveNamedAt | src/utils/file_handler.py:147 | removing a name removes exactly that entry |
| Files.RemoveStep | src/utils/file_handler.py:145-147 | one removal moves the directory one step through the clean-up |
| Files.KeepStep | src/utils/file_handler.py:146 | passing over an entry that is not a regular file changes nothing |
| Files.SaveTextAsFile | src/utils/file_handler.py:15-56 | blank text: a warning and nothing written; otherwise the default name is suggested; a cancelled dialog writes nothing and shows nothing; an `open` that raises writes nothing and shows the error; a `write` that raises leaves the file created or truncated with what reached it, and shows the error; otherwise the text is written and "saved" is shown with the path |
| Files.AutoSaveText | src/utils/file_handler.py:59-85 | blank text or an `open` that raises: `None` and nothing written; a `write` that raises: `None`, with the stamped file left holding what reached it; otherwise the text is written under the stamped name (prefix "auto_save" by default) and the path is returned |
| Files.LoadTextFromFile | src/utils/file_handler.py:88-113 | a cancelled dialog gives "" silently; a failing read gives "" and the error; otherwise the file's content as text-mode reading gives it, newlines folded, so no `\r` reaches the text |
| Files.GetOutputFilesList | src/utils/file_handler.py:116-137 | `[]` when the directory is missing; otherwise the ".txt" paths, newest first |
| Files.CleanupTempFiles | src/utils/file_handler.py:140-149 | a missing directory is left alone; otherwise regular files are removed in listing order until a removal raises, and everything else stays |
| Window.TimeLabelReadsBack | src/gui/main_window.py:274-285 | idle, the label shows "00:00"; while recording it reads back as minutes and seconds that make up the whole seconds elapsed |
| Window.LabelAtStart | src/gui/main_window.py:276-285 | right after a start, the label shows "00:00" |
| Window.EntryLineReadsBack | src/gui/main_window.py:298-304 | the time and the text read back from a `[HH:MM:SS] text` entry |
| Window.AppendEntryReadsWidget | src/gui/main_window.py:300-304 | testing the widget text with its trailing newline chooses the separator as testing the transcript does |
| Window.AppendEntryShape | src/gui/main_window.py:300-304 | the old transcript is a prefix; the entry ends the new one; a newline follows the old text exactly when it was not blank; the result is never blank |
| Window.PlaceholderIsRecognised | src/gui/main_window.py:185-193 | the initial text contains the marker, so the first start clears it |
| Window.MarkerInEntryClearsTranscript | src/gui/main_window.py:289-291 | a recognised phrase containing the marker makes the next start clear the whole transcript |
| Window.MainWindow.constructor | src/gui/main_window.py:21-49 | idle, no start time, the placeholder shown, labels at "00:00" and 0, a fresh recorder with both callbacks set |
| Window.MainWindow.UpdateRecordingTime | src/gui/main_window.py:274-285 | the label is the elapsed `MM:SS` while recording with a start time, "00:00" otherwise; it is rescheduled exactly in the first case |
| Window.MainWindow.ClearPlaceholderText | src/gui/main_window.py:287-292 | the text is emptied exactly when its stripped content contains the marker |
| Window.MainWindow.UpdateCharCount | src/gui/main_window.py:312-316 | the count is the length of the stripped transcript |
| Window.MainWindow.AddRecognizedText | src/gui/main_window.py:294-310 | blank text changes nothing; otherwise the stamped entry is appended as `AppendEntry` says and the count is updated |
| Window.MainWindow.StartRecording | src/gui/main_window.py:224-248 | no microphone: one error shown and the recorder untouched; the session starts exactly when the recorder was idle and opened and started its stream; a start sets the flag and the start time, clears the placeholder and shows "00:00"; otherwise those fields are unchanged |
| Window.MainWindow.BeginSession | src/gui/main_window.py:231-248 | the flag is set, the start time noted, the placeholder cleared and "00:00" shown |
| Window.MainWindow.StopRecording | src/gui/main_window.py:250-253 | the recorder is stopped and the flag cleared |
| Window.MainWindow.ToggleRecording | src/gui/main_window.py:217-222 | recording: both stop and nothing else on the window changes; idle: exactly what `StartRecording` does, so recording afterwards exactly when a start succeeds |
| Window.MainWindow.OnClosing | src/gui/main_window.py:374-384 | an active recording is stopped before recorder clean-up, then temporary files, then the window; the recorder ends idle and terminated with no stream open; the temporary directory is cleaned as `CleanupTempFiles` says |

## Left out

- Tk widgets: layout, colours, fonts, button and status texts, the
  five-second status reset, `_show_error`, and message-box and dialog
  rendering. Dialog answers are inputs.
- `_clear_text`, `_open_file`, `_save_file` and `_recognize_once`. These
  only wire a dialog or the recognizer to operations that are modelled
  (`LoadTextFromFile`, `SaveTextAsFile`, `ClearPlaceholderText`,
  `RecognizeFromMicrophoneOnce`).
- The callback wiring between the window, the recorder and the recognizer
  (`root.after` hops). Each side is modelled on its own.
- PyAudio:
  - opening a stream, `start_stream` and closing are inputs saying whether
    and how they raised;
  - `terminate` never raises (PyAudio ignores the PortAudio result) and
    closes every stream still open;
  - `is_microphone_available` is a boolean input;
  - the stream parameters passed to `audio.open` (sample format, channels,
    rate, buffer size) are not modelled, since opening is an input;
  - the callback flag is only ever `paContinue`.
- The SpeechRecognition library, the WAV wrapping and the Google service.
  How an attempt ends is an input of type `Outcome`. The threshold a
  calibration or `listen` leaves behind is an input too. The timeout and
  phrase limit passed to `listen` are not modelled.
- The text of the exception raised when `with self.microphone` meets `None`
  is taken from Python 3.11 and later.
- Threads and the thread-safe queue:
  - the processing loop runs over the finite sequence of queue items it
    observed while `is_recording` held;
  - the recognition workers run as one sequential call each;
  - a buffer still held when recording stops is abandoned (`leftover`);
  - frames still on `audio_queue` when recording stops are never drained,
    so the next session's loop takes them first. `AudioRecorder.enqueued`
    logs what was put on the queue, and the loop runs over its own item
    sequence, so this carry-over between sessions is not modelled.
- Floating-point clocks. Time is integer milliseconds for the aggregator
  and the label, and integer date/time fields for stamps.
- Years before 1000. `strftime("%Y")` pads them differently across
  platforms, so `ValidDateTime` requires four-digit years.
- `os.path.join` is modelled as directory + "/" + name. Names are flat
  entries of one directory, so a prefix containing "/" is not treated as
  a nested path. The dialogs choosing another directory, and
  `defaultextension`, are not modelled.
- Text-mode writing turns `\n` into the platform's line separator. The
  model writes the text unchanged, as on POSIX systems. Decoding errors on
  reading are part of the `readFails` input.
- Exceptions from `os.path.getmtime` or `os.listdir` in the listing, and
  exceptions raised inside callbacks.
- Files.SortNewestFirstCorrect: does not state stability (the order of
  entries with equal modification times), because only the newest-first
  order and the permutation are needed.
- Window.TimeLabelReadsBack: the read-back is stated for a clock that has
  not stepped back; the seconds field for any clock is in
  TimeFormat.ElapsedSecondsField.
- Window.MainWindow.StartRecording: the recorder's own new state (streams,
  reported errors) is not restated. It is what
  Recorder.AudioRecorder.StartRecording ensures.
- Window.MainWindow.StopRecording: the recorder's stream and reported
  errors are not restated. They are what
  Recorder.AudioRecorder.StopRecording ensures.
- Window.MainWindow.OnClosing: the errors the recorder reports are not
  restated. It states the step order, the final flags, the released streams
  and the temporary directory.
- Calling `_on_closing` twice (after `run` ends) and `Config.ensure_directories`:
  whether a directory exists is fixed for the life of a `Directory`.
- Configuration constants other than the phrase time limit and the
  language tag (window sizes, colours, directory names).
