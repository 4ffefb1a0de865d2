/** `SpeechRecognizer`: turns how a recognition attempt ended into the
    callbacks it fires. The SpeechRecognition library and the Google service
    are not modelled; the attempt's ending is an input (`Outcome`), one value
    per exception class the source distinguishes. */
module Recognizer {
  import opened Wrappers

  /** `Config.RECOGNITION_LANGUAGE` */
  const DefaultLanguage: string := "ja-JP"

  const TimeoutMessage: string := "音声が検出されませんでした（タイムアウト）"
  const NoMatchMessage: string := "音声を認識できませんでした"
  const ServiceErrorPrefix: string := "音声認識サービスエラー: "
  const SingleShotErrorPrefix: string := "認識エラー: "
  const SegmentErrorPrefix: string := "音声データ認識エラー: "
  const MicInitErrorPrefix: string := "マイク初期化エラー: "
  /** What `str(e)` says when `with self.microphone` meets `None`, on
      Python 3.11 and later (earlier versions raise `AttributeError` with
      the text `__enter__`). */
  const NoMicrophoneDetail: string := "'NoneType' object does not support the context manager protocol"

  /** How one attempt ended: the text `recognize_google` returned, or the
      exception raised (`WaitTimeoutError`, `UnknownValueError`,
      `RequestError`, any other), with its `str(e)` where the source uses it. */
  datatype Outcome =
    | Transcribed(text: string)
    | WaitTimeout(detail: string)
    | UnknownValue
    | RequestFailed(detail: string)
    | Unexpected(detail: string)

  /** What the attempt hands on: a result for `on_recognition_result` or a
      message for `on_error`. */
  datatype Report = ResultReport(text: string) | ErrorReport(message: string)

  /** `recognize_from_microphone_once`: every ending is reported. */
  function SingleShotReport(o: Outcome): (r: Report)
    ensures r.ResultReport? <==> o.Transcribed?
    ensures o.Transcribed? ==> r.text == o.text
  {
    match o
    case Transcribed(text) => ResultReport(text)
    case WaitTimeout(_) => ErrorReport(TimeoutMessage)
    case UnknownValue => ErrorReport(NoMatchMessage)
    case RequestFailed(detail) => ErrorReport(ServiceErrorPrefix + detail)
    case Unexpected(detail) => ErrorReport(SingleShotErrorPrefix + detail)
  }

  /** `recognize_from_audio_data`: an unrecognisable segment is silently
      ignored, and a `WaitTimeoutError` (which this path has no handler for)
      falls into the generic branch. */
  function ContinuousReport(o: Outcome): (r: Option<Report>)
    ensures r.None? <==> o.UnknownValue?
    ensures r.Some? ==> (r.value.ResultReport? <==> o.Transcribed?)
  {
    match o
    case Transcribed(text) => Some(ResultReport(text))
    case WaitTimeout(detail) => Some(ErrorReport(SegmentErrorPrefix + detail))
    case UnknownValue => None
    case RequestFailed(detail) => Some(ErrorReport(ServiceErrorPrefix + detail))
    case Unexpected(detail) => Some(ErrorReport(SegmentErrorPrefix + detail))
  }

  /** The two paths agree on results and service errors, and differ exactly
      where the source means them to: a no-match is an error on the single-shot
      path and nothing on the continuous one; other failures get different
      prefixes. */
  lemma PathsCompared(o: Outcome)
    ensures o.Transcribed? || o.RequestFailed? ==> ContinuousReport(o) == Some(SingleShotReport(o))
    ensures o.UnknownValue? ==> ContinuousReport(o).None? && SingleShotReport(o) == ErrorReport(NoMatchMessage)
    ensures o.WaitTimeout? || o.Unexpected? ==>
      ContinuousReport(o) == Some(ErrorReport(SegmentErrorPrefix + o.detail)) != Some(SingleShotReport(o))
  {
    if o.WaitTimeout? {
      assert (SegmentErrorPrefix + o.detail)[2] != TimeoutMessage[2];
    }
    if o.Unexpected? {
      assert (SegmentErrorPrefix + o.detail)[0] != (SingleShotErrorPrefix + o.detail)[0];
    }
  }

  // ---------------------------------------------------------------------
  // Reading a single-shot report back

  /** The kind of ending, with the parts a report preserves. */
  datatype Kind = TextKind(text: string) | TimeoutKind | NoMatchKind | ServiceKind(detail: string) | OtherKind(detail: string)

  function KindOf(o: Outcome): Kind {
    match o
    case Transcribed(text) => TextKind(text)
    case WaitTimeout(_) => TimeoutKind
    case UnknownValue => NoMatchKind
    case RequestFailed(detail) => ServiceKind(detail)
    case Unexpected(detail) => OtherKind(detail)
  }

  predicate HasPrefix(s: string, prefix: string) {
    |prefix| <= |s| && s[..|prefix|] == prefix
  }

  /** Classifies what a single-shot attempt reported. */
  function ReadSingleShot(r: Report): Kind {
    match r
    case ResultReport(text) => TextKind(text)
    case ErrorReport(m) =>
      if m == TimeoutMessage then TimeoutKind
      else if m == NoMatchMessage then NoMatchKind
      else if HasPrefix(m, ServiceErrorPrefix) then ServiceKind(m[|ServiceErrorPrefix|..])
      else if HasPrefix(m, SingleShotErrorPrefix) then OtherKind(m[|SingleShotErrorPrefix|..])
      else OtherKind(m)
  }

  /** The single-shot messages never collide: from the report alone one can
      tell which kind of ending it was, and recover the service's or the
      exception's own message. */
  lemma SingleShotReadsBack(o: Outcome)
    ensures ReadSingleShot(SingleShotReport(o)) == KindOf(o)
  {
    match o
    case Transcribed(_) =>
    case WaitTimeout(_) =>
    case UnknownValue =>
      assert NoMatchMessage[2] != TimeoutMessage[2];
    case RequestFailed(d) =>
      var m := ServiceErrorPrefix + d;
      assert m[2] != TimeoutMessage[2] && m[2] != NoMatchMessage[2];
      assert m[..|ServiceErrorPrefix|] == ServiceErrorPrefix;
    case Unexpected(d) =>
      var m := SingleShotErrorPrefix + d;
      assert m[0] != TimeoutMessage[0] && m[0] != NoMatchMessage[0] && m[0] != ServiceErrorPrefix[0];
      assert m[..|SingleShotErrorPrefix|] == SingleShotErrorPrefix;
  }

  // ---------------------------------------------------------------------
  // Callbacks and the events they produce

  /** Which of `on_recognition_result`, `on_error`, `on_listening` are set. */
  datatype Callbacks = Callbacks(result: bool, error: bool, listening: bool)

  /** A callback invocation. */
  datatype Event = Listening | Recognized(text: string) | ErrorShown(message: string)

  /** Every call is guarded by `if self.on_...:`. */
  function Deliver(r: Report, cb: Callbacks): (e: seq<Event>)
    ensures |e| <= 1
    ensures e != [] <==> (if r.ResultReport? then cb.result else cb.error)
  {
    match r
    case ResultReport(text) => if cb.result then [Recognized(text)] else []
    case ErrorReport(m) => if cb.error then [ErrorShown(m)] else []
  }

  /** The callbacks one single-shot attempt fires, in order. */
  function SingleShotEvents(o: Outcome, cb: Callbacks): seq<Event> {
    (if cb.listening then [Listening] else []) + Deliver(SingleShotReport(o), cb)
  }

  /** The callbacks one continuous-path attempt fires. */
  function ContinuousEvents(o: Outcome, cb: Callbacks): seq<Event> {
    match ContinuousReport(o)
    case None => []
    case Some(r) => Deliver(r, cb)
  }

  /** `on_listening` fires first on the single-shot path, at most one other
      callback follows, and a recognised text is passed on unchanged. */
  lemma SingleShotEventsShape(o: Outcome, cb: Callbacks, t: string)
    ensures var e := SingleShotEvents(o, cb);
      && |e| <= 2
      && (Listening in e <==> cb.listening)
      && (cb.listening ==> e[0] == Listening)
      && (Recognized(t) in e <==> cb.result && o == Transcribed(t))
      && (cb == Callbacks(false, false, false) ==> e == [])
  {
  }

  /** The continuous path fires at most one callback, never `on_listening`,
      nothing at all for a no-match, and passes a recognised text on unchanged. */
  lemma ContinuousEventsShape(o: Outcome, cb: Callbacks, t: string)
    ensures var e := ContinuousEvents(o, cb);
      && |e| <= 1
      && Listening !in e
      && (o.UnknownValue? ==> e == [])
      && (Recognized(t) in e <==> cb.result && o == Transcribed(t))
      && (!cb.result && !cb.error ==> e == [])
  {
  }

  /** How `_initialize_microphone` went: `sr.Microphone()` raised, or the
      ambient-noise calibration raised after the microphone was created. */
  datatype MicInit = MicReady | CreateFailed(detail: string) | CalibrationFailed(detail: string)

  class SpeechRecognizer {
    /** the tag passed to `recognize_google` */
    var language: string
    /** `recognizer.energy_threshold` */
    var energyThreshold: real
    /** `self.microphone is not None` */
    var microphoneReady: bool
    var callbacks: Callbacks
    /** every callback fired, in order */
    var events: seq<Event>
    /** the language in effect for each recognition attempt, in order */
    var attempts: seq<string>

    /** `__init__`: callbacks are still unset while the microphone is
        initialised, so an initialisation failure is never reported.
        `calibratedThreshold` is the threshold the library holds afterwards. */
    constructor (init: MicInit, calibratedThreshold: real)
      ensures language == DefaultLanguage
      ensures energyThreshold == calibratedThreshold
      ensures microphoneReady == !init.CreateFailed?
      ensures callbacks == Callbacks(false, false, false)
      ensures events == [] && attempts == []
    {
      language := DefaultLanguage;
      energyThreshold := calibratedThreshold;
      callbacks := Callbacks(false, false, false);
      events := [];
      attempts := [];
      microphoneReady := !init.CreateFailed?;
      new;
      // The except branch would call on_error, which is None here.
      if init.CreateFailed? || init.CalibrationFailed? {
        events := events + Deliver(ErrorReport(MicInitErrorPrefix + init.detail), callbacks);
      }
    }

    /** `set_callbacks` */
    method SetCallbacks(result: bool, error: bool, listening: bool)
      modifies this`callbacks
      ensures callbacks == Callbacks(result, error, listening)
    {
      callbacks := Callbacks(result, error, listening);
    }

    /** `set_language`: later attempts use the new tag. */
    method SetLanguage(code: string)
      modifies this`language
      ensures language == code
    {
      language := code;
    }

    /** `get_microphone_energy_threshold` */
    method GetEnergyThreshold() returns (threshold: real)
      ensures threshold == energyThreshold
    {
      threshold := energyThreshold;
    }

    /** `set_microphone_energy_threshold` */
    method SetEnergyThreshold(threshold: real)
      modifies this`energyThreshold
      ensures energyThreshold == threshold
    {
      energyThreshold := threshold;
    }

    /** `test_microphone`: calibrating on a missing microphone raises before
        anything is measured; otherwise `adjust_for_ambient_noise` rewrites
        the threshold as it goes, leaving `calibratedThreshold` whether it
        finishes or raises part-way. */
    method TestMicrophone(calibrationSucceeds: bool, calibratedThreshold: real) returns (ok: bool)
      modifies this`energyThreshold
      ensures ok <==> microphoneReady && calibrationSucceeds
      ensures energyThreshold == if microphoneReady then calibratedThreshold else old(energyThreshold)
    {
      ok := microphoneReady && calibrationSucceeds;
      if microphoneReady {
        energyThreshold := calibratedThreshold;
      }
    }

    /** One run of `recognize_from_microphone_once`'s worker, where `o` is how
        the library call ended and `listenedThreshold` the threshold `listen`
        left behind (it adapts the threshold while waiting for speech).
        Without a microphone, `with self.microphone` itself raises after
        `on_listening` has fired, and the threshold is untouched. */
    method RecognizeFromMicrophoneOnce(o: Outcome, listenedThreshold: real)
      modifies this`events, this`attempts, this`energyThreshold
      ensures var ending := if microphoneReady then o else Unexpected(NoMicrophoneDetail);
        events == old(events) + SingleShotEvents(ending, callbacks)
      ensures attempts == old(attempts) + [language]
      ensures energyThreshold == if microphoneReady then listenedThreshold else old(energyThreshold)
    {
      var ending := if microphoneReady then o else Unexpected(NoMicrophoneDetail);
      attempts := attempts + [language];
      if callbacks.listening {
        events := events + [Listening];
      }
      if microphoneReady {
        energyThreshold := listenedThreshold;
      }
      events := events + Deliver(SingleShotReport(ending), callbacks);
    }

    /** One run of `recognize_from_audio_data`'s worker on a segment. */
    method RecognizeFromAudioData(o: Outcome)
      modifies this`events, this`attempts
      ensures events == old(events) + ContinuousEvents(o, callbacks)
      ensures attempts == old(attempts) + [language]
    {
      attempts := attempts + [language];
      var report := ContinuousReport(o);
      if report.Some? {
        events := events + Deliver(report.value, callbacks);
      }
    }
  }
}
