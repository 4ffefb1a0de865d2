/** `AudioRecorder`: owns the PyAudio input stream, the recording flag and
    the queue the stream callback fills. PyAudio itself is not modelled: each
    device call that can raise is given as an input saying whether (and with
    what message) it raised. */
module Recorder {
  import opened Wrappers
  import opened Aggregator

  const StartErrorPrefix: string := "録音開始エラー: "
  const StopErrorPrefix: string := "録音停止エラー: "
  const DeviceErrorPrefix: string := "デバイス取得エラー: "

  /** The flag a PyAudio stream callback returns; `_audio_callback` only
      ever returns `paContinue`. */
  datatype CallbackFlag = Continue

  /** What `on_error(message)` leads to: a report when the callback is set,
      nothing otherwise. */
  function Report(callbackSet: bool, message: string): (r: seq<string>)
    ensures |r| <= 1
    ensures r != [] <==> callbackSet
    ensures r != [] ==> r[0] == message
  {
    if callbackSet then [message] else []
  }

  // ---------------------------------------------------------------------
  // Device listing (`get_input_devices`)

  /** The answer to `get_device_info_by_index(i)`: the fields the source reads,
      or the exception it raised. */
  datatype DeviceQuery =
    | DeviceInfo(name: string, maxInputChannels: int, defaultSampleRate: real)
    | QueryFailed(message: string)

  /** One entry of the returned list: `{'index', 'name', 'sample_rate'}`. */
  datatype InputDevice = InputDevice(index: nat, name: string, sampleRate: int)

  /** Python's `int()` on a float: truncation toward zero. */
  function Truncate(x: real): (n: int)
    ensures x >= 0.0 ==> n as real <= x < n as real + 1.0
    ensures x < 0.0 ==> n as real - 1.0 < x <= n as real
  {
    if x >= 0.0 then x.Floor else -((-x).Floor)
  }

  predicate IsInput(q: DeviceQuery) {
    q.DeviceInfo? && q.maxInputChannels > 0
  }

  /** The loop over device indices: input devices are collected in index order
      until a query raises, which ends the listing with what was collected. */
  function DeviceScan(queries: seq<DeviceQuery>): (seq<InputDevice>, Option<string>) {
    if queries == [] then ([], None)
    else
      var (devices, fault) := DeviceScan(queries[..|queries| - 1]);
      var q := queries[|queries| - 1];
      if fault.Some? then (devices, fault)
      else if q.QueryFailed? then (devices, Some(q.message))
      else if q.maxInputChannels > 0 then
        (devices + [InputDevice(|queries| - 1, q.name, Truncate(q.defaultSampleRate))], None)
      else (devices, None)
  }

  /** Index of the first query that raised, or the device count. */
  function ScanEnd(queries: seq<DeviceQuery>): (n: nat)
    ensures n <= |queries|
    ensures forall i :: 0 <= i < n ==> !queries[i].QueryFailed?
    ensures n < |queries| ==> queries[n].QueryFailed?
  {
    if queries == [] || queries[0].QueryFailed? then 0 else 1 + ScanEnd(queries[1..])
  }

  /** The listing holds exactly the devices with `maxInputChannels > 0` that
      come before the first failing query, in ascending index order, each with
      its name and truncated sample rate; a failure is reported exactly when
      some query raised. */
  lemma DeviceScanExact(queries: seq<DeviceQuery>)
    ensures var (devices, fault) := DeviceScan(queries);
      && (fault.Some? <==> ScanEnd(queries) < |queries|)
      && (fault.Some? ==> fault.value == queries[ScanEnd(queries)].message)
      && (forall k :: 0 <= k < |devices| ==>
            && devices[k].index < ScanEnd(queries)
            && IsInput(queries[devices[k].index])
            && devices[k].name == queries[devices[k].index].name
            && devices[k].sampleRate == Truncate(queries[devices[k].index].defaultSampleRate))
      && (forall k, l :: 0 <= k < l < |devices| ==> devices[k].index < devices[l].index)
      && (forall i :: 0 <= i < ScanEnd(queries) && IsInput(queries[i]) ==> Listed(devices, i))
  {
    DeviceScanFault(queries);
    DeviceScanSound(queries);
    DeviceScanComplete(queries);
  }

  /** The scan reports a failure exactly when some query raised, with the
      message of the first one. */
  lemma {:induction false} DeviceScanFault(queries: seq<DeviceQuery>)
    ensures var (devices, fault) := DeviceScan(queries);
      && (fault.Some? <==> ScanEnd(queries) < |queries|)
      && (fault.Some? ==> fault.value == queries[ScanEnd(queries)].message)
  {
    if queries != [] {
      var init := queries[..|queries| - 1];
      DeviceScanFault(init);
      ScanEndSnoc(queries);
      var n := ScanEnd(init);
      if n < |init| {
        assert queries[n] == init[n];
      }
    }
  }

  /** Every listed device is an input device queried before the first
      failure, listed with its own name and truncated rate, in index order. */
  lemma {:induction false} DeviceScanSound(queries: seq<DeviceQuery>)
    ensures var (devices, fault) := DeviceScan(queries);
      && (forall k :: 0 <= k < |devices| ==>
            && devices[k].index < ScanEnd(queries)
            && IsInput(queries[devices[k].index])
            && devices[k].name == queries[devices[k].index].name
            && devices[k].sampleRate == Truncate(queries[devices[k].index].defaultSampleRate))
      && (forall k, l :: 0 <= k < l < |devices| ==> devices[k].index < devices[l].index)
  {
    if queries != [] {
      var init := queries[..|queries| - 1];
      DeviceScanSound(init);
      DeviceScanFault(init);
      ScanEndSnoc(queries);
      var (devices, fault) := DeviceScan(queries);
      var (d0, f0) := DeviceScan(init);
      var n := |init|;
      assert forall i :: 0 <= i < n ==> queries[i] == init[i];
      if f0.None? && IsInput(queries[n]) {
        assert devices == d0 + [InputDevice(n, queries[n].name, Truncate(queries[n].defaultSampleRate))];
      } else {
        assert devices == d0;
      }
    }
  }

  /** Every input device queried before the first failure is listed. */
  /** Device index `i` appears in the listing. */
  predicate Listed(devices: seq<InputDevice>, i: nat) {
    exists k :: 0 <= k < |devices| && devices[k].index == i
  }

  /** Every input device queried before the first failure is listed. */
  lemma {:induction false} DeviceScanComplete(queries: seq<DeviceQuery>)
    ensures forall i :: 0 <= i < ScanEnd(queries) && IsInput(queries[i]) ==> Listed(DeviceScan(queries).0, i)
  {
    if queries != [] {
      var init := queries[..|queries| - 1];
      DeviceScanComplete(init);
      DeviceScanFault(init);
      ScanEndSnoc(queries);
      var devices := DeviceScan(queries).0;
      var (d0, f0) := DeviceScan(init);
      var n := |init|;
      assert |d0| <= |devices| && devices[..|d0|] == d0;
      forall i | 0 <= i < ScanEnd(queries) && IsInput(queries[i])
        ensures Listed(devices, i)
      {
        if i < n {
          assert init[i] == queries[i];
          var k :| 0 <= k < |d0| && d0[k].index == i;
          assert devices[k] == d0[k];
        } else {
          assert devices == d0 + [InputDevice(n, queries[n].name, Truncate(queries[n].defaultSampleRate))];
          assert devices[|d0|].index == i;
        }
      }
    }
  }

  lemma ScanEndSnoc(queries: seq<DeviceQuery>)
    requires queries != []
    ensures var init := queries[..|queries| - 1];
      ScanEnd(queries) == if ScanEnd(init) < |init| then ScanEnd(init) else
        (if queries[|init|].QueryFailed? then |init| else |queries|)
  {
    var init := queries[..|queries| - 1];
    var a, b := ScanEnd(init), ScanEnd(queries);
    if a < |init| {
      assert queries[a].QueryFailed?;
    } else if queries[|init|].QueryFailed? {
      assert queries[|init|].QueryFailed?;
    } else {
      assert forall i :: 0 <= i < |queries| ==> !queries[i].QueryFailed? by {
        forall i | 0 <= i < |queries| ensures !queries[i].QueryFailed? {
          if i < |init| { assert queries[i] == init[i]; }
        }
      }
    }
  }

  /** `get_input_devices` without the reporting: the loop over
      `range(get_device_count())`, or nothing when the count itself raised. */
  method CollectInputDevices(countFailure: Option<string>, queries: seq<DeviceQuery>)
    returns (devices: seq<InputDevice>, fault: Option<string>)
    ensures countFailure.Some? ==> devices == [] && fault == countFailure
    ensures countFailure.None? ==> (devices, fault) == DeviceScan(queries)
    ensures forall k :: 0 <= k < |devices| ==>
      devices[k].index < |queries| && IsInput(queries[devices[k].index])
  {
    devices, fault := [], None;
    if countFailure.Some? {
      fault := countFailure;
      return;
    }
    var i := 0;
    while i < |queries| && fault.None?
      invariant 0 <= i <= |queries|
      invariant (devices, fault) == DeviceScan(queries[..i])
    {
      assert queries[..i + 1][..i] == queries[..i];
      var q := queries[i];
      if q.QueryFailed? {
        fault := Some(q.message);
      } else if q.maxInputChannels > 0 {
        devices := devices + [InputDevice(i, q.name, Truncate(q.defaultSampleRate))];
      }
      i := i + 1;
    }
    ScanStopsAtFault(queries, i);
    DeviceScanExact(queries);
  }

  lemma {:induction false} ScanStopsAtFault(queries: seq<DeviceQuery>, i: nat)
    requires i <= |queries|
    requires i < |queries| ==> DeviceScan(queries[..i]).1.Some?
    ensures DeviceScan(queries) == DeviceScan(queries[..i])
    decreases |queries| - i
  {
    if i < |queries| {
      var n := |queries|;
      assert queries[..n] == queries;
      ScanFaultSticks(queries, i, n);
    } else {
      assert queries[..i] == queries;
    }
  }

  lemma {:induction false} ScanFaultSticks(queries: seq<DeviceQuery>, i: nat, j: nat)
    requires i <= j <= |queries|
    requires DeviceScan(queries[..i]).1.Some?
    ensures DeviceScan(queries[..j]) == DeviceScan(queries[..i])
    decreases j - i
  {
    if j > i {
      ScanFaultSticks(queries, i, j - 1);
      assert queries[..j][..j - 1] == queries[..j - 1];
    }
  }

  // ---------------------------------------------------------------------
  // The recorder object

  class AudioRecorder {
    /** `is_recording` */
    var isRecording: bool
    /** `self.stream is not None` and its device stream is still open */
    var streamOpen: bool
    /** device streams opened by this recorder and not closed again */
    var openStreams: nat
    /** every frame `_audio_callback` has put on `audio_queue`, oldest first;
        taking frames off the queue is modelled by `ProcessAudioData` on its
        own trace, so this is a log of what was enqueued, not what is left */
    var enqueued: seq<Frame>
    /** whether `on_audio_data` / `on_error` are set */
    var audioDataCallbackSet: bool
    var errorCallbackSet: bool
    /** every message passed to `on_error`, in order */
    var errors: seq<string>
    /** processing threads started */
    var processingThreads: nat
    /** `audio.terminate()` has been called */
    var terminated: bool

    ghost predicate Valid()
      reads this
    {
      && (isRecording ==> streamOpen)
      && (streamOpen ==> openStreams >= 1)
    }

    constructor ()
      ensures Valid()
      ensures !isRecording && !streamOpen && openStreams == 0 && enqueued == []
      ensures !audioDataCallbackSet && !errorCallbackSet && errors == []
      ensures processingThreads == 0 && !terminated
    {
      isRecording, streamOpen, openStreams, enqueued := false, false, 0, [];
      audioDataCallbackSet, errorCallbackSet, errors := false, false, [];
      processingThreads, terminated := 0, false;
    }

    /** `set_callbacks` */
    method SetCallbacks(audioData: bool, error: bool)
      modifies this
      ensures audioDataCallbackSet == audioData && errorCallbackSet == error
      ensures isRecording == old(isRecording) && streamOpen == old(streamOpen)
      ensures openStreams == old(openStreams) && enqueued == old(enqueued) && errors == old(errors)
      ensures processingThreads == old(processingThreads) && terminated == old(terminated)
    {
      audioDataCallbackSet, errorCallbackSet := audioData, error;
    }

    /** `start_recording`: `openFailure` is the exception `audio.open` raised,
        `startFailure` the one `stream.start_stream()` raised. */
    method StartRecording(openFailure: Option<string>, startFailure: Option<string>) returns (ok: bool)
      requires Valid()
      modifies this
      ensures Valid()
      ensures enqueued == old(enqueued) && terminated == old(terminated)
      ensures audioDataCallbackSet == old(audioDataCallbackSet) && errorCallbackSet == old(errorCallbackSet)
      // already recording: refused, nothing changes
      ensures old(isRecording) ==>
        && !ok && isRecording && streamOpen == old(streamOpen) && openStreams == old(openStreams)
        && errors == old(errors) && processingThreads == old(processingThreads)
      // the open raised: refused, still idle, one start error reported
      ensures !old(isRecording) && openFailure.Some? ==>
        && !ok && !isRecording && streamOpen == old(streamOpen) && openStreams == old(openStreams)
        && errors == old(errors) + Report(errorCallbackSet, StartErrorPrefix + openFailure.value)
        && processingThreads == old(processingThreads)
      // the open succeeded: the flag is set before start_stream, so it stays
      // set even when start_stream raises
      ensures !old(isRecording) && openFailure.None? ==>
        && isRecording && streamOpen && openStreams == old(openStreams) + 1
        && ok == startFailure.None?
        && errors == old(errors) + (if ok then [] else Report(errorCallbackSet, StartErrorPrefix + startFailure.value))
        && processingThreads == old(processingThreads) + (if ok then 1 else 0)
    {
      if isRecording {
        return false;
      }
      if openFailure.Some? {
        errors := errors + Report(errorCallbackSet, StartErrorPrefix + openFailure.value);
        return false;
      }
      streamOpen, openStreams := true, openStreams + 1;
      isRecording := true;
      if startFailure.Some? {
        errors := errors + Report(errorCallbackSet, StartErrorPrefix + startFailure.value);
        return false;
      }
      processingThreads := processingThreads + 1;
      ok := true;
    }

    /** `stop_recording`: `closeFailure` is the exception `stop_stream` or
        `close` raised, which leaves the stream unreleased. */
    method StopRecording(closeFailure: Option<string>)
      requires Valid()
      modifies this
      ensures Valid()
      ensures !isRecording
      ensures enqueued == old(enqueued) && processingThreads == old(processingThreads) && terminated == old(terminated)
      ensures audioDataCallbackSet == old(audioDataCallbackSet) && errorCallbackSet == old(errorCallbackSet)
      ensures !old(isRecording) ==>
        streamOpen == old(streamOpen) && openStreams == old(openStreams) && errors == old(errors)
      ensures old(isRecording) && closeFailure.None? ==>
        !streamOpen && openStreams == old(openStreams) - 1 && errors == old(errors)
      ensures old(isRecording) && closeFailure.Some? ==>
        && streamOpen && openStreams == old(openStreams)
        && errors == old(errors) + Report(errorCallbackSet, StopErrorPrefix + closeFailure.value)
    {
      if !isRecording {
        return;
      }
      isRecording := false;
      if streamOpen {
        if closeFailure.Some? {
          errors := errors + Report(errorCallbackSet, StopErrorPrefix + closeFailure.value);
        } else {
          streamOpen, openStreams := false, openStreams - 1;
        }
      }
    }

    /** `_audio_callback`: the frame is queued only while recording, and the
        stream is always told to continue. */
    method AudioCallback(inData: Frame) returns (outData: Frame, flag: CallbackFlag)
      modifies this`enqueued
      ensures outData == inData && flag == Continue
      ensures enqueued == old(enqueued) + (if isRecording then [inData] else [])
    {
      if isRecording {
        enqueued := enqueued + [inData];
      }
      outData, flag := inData, Continue;
    }

    /** `get_input_devices`, reporting a failure through `on_error`. */
    method GetInputDevices(countFailure: Option<string>, queries: seq<DeviceQuery>)
      returns (devices: seq<InputDevice>)
      modifies this`errors
      ensures countFailure.Some? ==>
        && devices == []
        && errors == old(errors) + Report(errorCallbackSet, DeviceErrorPrefix + countFailure.value)
      ensures countFailure.None? ==>
        && devices == DeviceScan(queries).0
        && errors == old(errors) + (if DeviceScan(queries).1.Some?
                                    then Report(errorCallbackSet, DeviceErrorPrefix + DeviceScan(queries).1.value)
                                    else [])
    {
      var fault;
      devices, fault := CollectInputDevices(countFailure, queries);
      if fault.Some? {
        errors := errors + Report(errorCallbackSet, DeviceErrorPrefix + fault.value);
      }
    }

    /** `cleanup`: stops any recording, then terminates PyAudio, which closes
        every stream it still has open (PyAudio's `terminate` ignores the
        PortAudio result, so it never raises). */
    method Cleanup(closeFailure: Option<string>)
      requires Valid()
      modifies this
      ensures Valid()
      ensures !isRecording && terminated && !streamOpen && openStreams == 0
      ensures enqueued == old(enqueued) && processingThreads == old(processingThreads)
      ensures audioDataCallbackSet == old(audioDataCallbackSet) && errorCallbackSet == old(errorCallbackSet)
      // only a recording whose stop raised reports anything
      ensures errors == old(errors) +
        (if old(isRecording) && closeFailure.Some?
         then Report(errorCallbackSet, StopErrorPrefix + closeFailure.value)
         else [])
    {
      StopRecording(closeFailure);
      streamOpen, openStreams := false, 0;
      terminated := true;
    }
  }
}
